/** The order of cells on the machine words: interleave is monotone in each word, and shifting
    both words right by j shifts the code right by 2j. */
module GeohashOrder {
  import opened Geohash

  // ---- Monotone ----------------------------------------------------------------------------

  /** f computes the Morton code, on the numbers its words and codes stand for. */
  ghost predicate Codes<W(!new), C>(f: (W, W) -> C, value: W -> nat, code: C -> nat) {
    forall x: W, y: W :: code(f(x, y)) == Morton(value(x), value(y))
  }

  lemma InterleaveCodes()
    ensures Codes(Interleave, Value32, Value64)
  {
    forall x: bv32, y: bv32 ensures Value64(Interleave(x, y)) == Morton(Value32(x), Value32(y)) {
      InterleaveIsMorton(x, y);
    }
  }

  lemma CodesMonotone<W(!new), C>(f: (W, W) -> C, value: W -> nat, code: C -> nat, x: W, x': W, y: W, y': W)
    requires Codes(f, value, code)
    ensures value(x) < value(x') && value(y) <= value(y') ==> code(f(x, y)) < code(f(x', y'))
    ensures value(x) <= value(x') && value(y) < value(y') ==> code(f(x, y)) < code(f(x', y'))
  {
    MortonMonotone(value(x), value(x'), value(y), value(y'));
  }

  /** Smaller words of a pair, at least one of them strictly. */
  predicate Below(x: bv32, x': bv32, y: bv32, y': bv32) {
    || (Value32(x) < Value32(x') && Value32(y) <= Value32(y'))
    || (Value32(x) <= Value32(x') && Value32(y) < Value32(y'))
  }

  /** interleave is strictly monotone in each word. */
  lemma InterleaveMonotone(x: bv32, x': bv32, y: bv32, y': bv32)
    requires Below(x, x', y, y')
    ensures Value64(Interleave(x, y)) < Value64(Interleave(x', y'))
  {
    InterleaveCodes();
    CodesMonotone(Interleave, Value32, Value64, x, x', y, y');
  }

  // ---- Shifts ------------------------------------------------------------------------------

  function HalfCode(code: bv64): bv64 { code >> 1 }

  /** f applied n times: Times(Half, j, x) shifts x right by j, one bit at a time. */
  function Times<T>(f: T -> T, n: nat, x: T): T { if n == 0 then x else Times(f, n - 1, f(x)) }

  lemma QuarterIs(code: bv64, quarter: bv64)
    requires Rest(code) as bv64 == quarter
    ensures code >> 2 == quarter
  {
  }

  lemma HalfTwice(code: bv64)
    ensures HalfCode(HalfCode(code)) == code >> 2
  {
  }

  lemma QuarterOf(code: bv64)
    ensures HalfCode(HalfCode(code)) == Top(code)
  {
    QuarterIs(code, Rest(code) as bv64);
    HalfTwice(code);
  }

  lemma TwiceMore<C>(halfCode: C -> C, j: nat, c: C)
    ensures Times(halfCode, 2 * (j + 1), c) == Times(halfCode, 2 * j, halfCode(halfCode(c)))
  {
    assert Times(halfCode, 2 * j + 2, c) == Times(halfCode, 2 * j + 1, halfCode(c));
  }

  lemma {:induction false} ShiftsTogether<W(!new), C(!new)>(f: (W, W) -> C, half: W -> W, halfCode: C -> C,
                                                            x: W, y: W, j: nat)
    requires forall a, b :: f(half(a), half(b)) == halfCode(halfCode(f(a, b)))
    ensures f(Times(half, j, x), Times(half, j, y)) == Times(halfCode, 2 * j, f(x, y))
  {
    if j != 0 {
      ShiftsTogether(f, half, halfCode, half(x), half(y), j - 1);
      assert f(half(x), half(y)) == halfCode(halfCode(f(x, y)));
      TwiceMore(halfCode, j - 1, f(x, y));
    }
  }

  lemma HalvesShift<W(!new), C(!new)>(f: (W, W) -> C, half: W -> W, halfCode: C -> C, top: C -> C,
                                      x: W, y: W, j: nat)
    requires forall a, b :: top(f(a, b)) == f(half(a), half(b))
    requires forall c :: halfCode(halfCode(c)) == top(c)
    ensures f(Times(half, j, x), Times(half, j, y)) == Times(halfCode, 2 * j, f(x, y))
  {
    ShiftsTogether(f, half, halfCode, x, y, j);
  }

  /** interleave(x >> j, y >> j) is interleave(x, y) >> 2j: cells with a common prefix have codes
      with a common prefix. */
  lemma InterleaveShifts(x: bv32, y: bv32, j: nat)
    ensures Interleave(Times(Half, j, x), Times(Half, j, y)) == Times(HalfCode, 2 * j, Interleave(x, y))
  {
    InterleaveHalves();
    forall c ensures HalfCode(HalfCode(c)) == Top(c) { QuarterOf(c); }
    HalvesShift(Interleave, Half, HalfCode, Top, x, y, j);
  }

  // ---- What the shifts mean ----------------------------------------------------------------

  lemma HalfValue(x: bv32)
    ensures Value32(Half(x)) == Value32(x) / 2
  {
    WordParts(x);
    BitSize(Lower(x));
  }

  lemma {:induction false} TimesDrops<T(!new)>(f: T -> T, value: T -> nat, j: nat, x: T)
    requires forall a :: value(f(a)) == value(a) / 2
    ensures value(Times(f, j, x)) == Drop(value(x), j)
  {
    if j != 0 { TimesDrops(f, value, j - 1, f(x)); }
  }

  /** A word shifted right by j is its value without the j low bits. */
  lemma ShiftedValue(x: bv32, j: nat)
    ensures Value32(Times(Half, j, x)) == Drop(Value32(x), j)
  {
    forall a ensures Value32(Half(a)) == Value32(a) / 2 { HalfValue(a); }
    TimesDrops(Half, Value32, j, x);
  }

  lemma CodesShift<W(!new), C>(f: (W, W) -> C, value: W -> nat, code: C -> nat, x: W, y: W, x': W, y': W, j: nat)
    requires Codes(f, value, code) && value(x') == Drop(value(x), j) && value(y') == Drop(value(y), j)
    ensures code(f(x', y')) == Drop(code(f(x, y)), 2 * j)
  {
    MortonPrefix(value(x), value(y), j);
  }

  /** In numbers: dropping the j low bits of both words drops 2j low bits of the code. */
  lemma ShiftedCode(x: bv32, y: bv32, j: nat)
    ensures Value64(Interleave(Times(Half, j, x), Times(Half, j, y))) == Drop(Value64(Interleave(x, y)), 2 * j)
  {
    InterleaveCodes();
    ShiftedValue(x, j);
    ShiftedValue(y, j);
    CodesShift(Interleave, Value32, Value64, x, y, Times(Half, j, x), Times(Half, j, y), j);
  }
}
