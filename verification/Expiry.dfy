/** Time to live: lazy deletion by GET and any number of cleanup goroutines together behave as
    a map whose values stop existing at their deadline. Each command is one step first; then GET and
    SET with a time to live take their two sections apart. */
module Expiry {
  import opened Strconv
  import opened StreamIds
  import opened StoreModel

  /** now + time.Duration(ttlMillis) * time.Millisecond, in nanoseconds; the product wraps. */
  function Deadline(now: int, ttlMillis: int): int { now + Wrap64(ttlMillis * 1_000_000) }

  /** The milliseconds of an EX option; the product wraps. */
  function SecondsToMillis(seconds: int): int { Wrap64(seconds * 1000) }

  /** An EX time puts the deadline exactly that many seconds ahead if and only if its nanoseconds
      fit int64. */
  lemma DeadlineExact(now: int, seconds: int)
    ensures Deadline(now, SecondsToMillis(seconds)) == now + seconds * 1_000_000_000
       <==> IsInt64(seconds * 1_000_000_000)
  {
    if IsInt64(seconds * 1_000_000_000) { assert IsInt64(seconds * 1000); }
  }

  /** The same of a PX time. */
  lemma DeadlineExactMillis(now: int, millis: int)
    ensures Deadline(now, millis) == now + millis * 1_000_000 <==> IsInt64(millis * 1_000_000)
  {
    var wrapped := Wrap64(millis * 1_000_000);
    assert IsInt64(wrapped);
  }

  /** A witness: this key is gone as soon as it is set. */
  lemma DeadlineWraps(now: int)
    ensures Deadline(now, SecondsToMillis(9_223_372_037)) < now
  {
    assert SecondsToMillis(9_223_372_037) == 9_223_372_037_000;
  }

  /** A command, or a cleanup goroutine waking up: any goroutine, for any key, at any time. */
  datatype Event =
    | SetPlain(key: string, value: Datum)
    | SetTimed(key: string, value: Datum, deadline: int)
    | Read(key: string)
    | Wake(key: string)

  datatype Timed = Timed(event: Event, now: int)

  function Step(d: State, t: Timed): State {
    match t.event
    case SetPlain(key, value) => SetValue(d, key, value)
    case SetTimed(key, value, deadline) => SetExpiry(SetValue(d, key, value), key, deadline)
    case Read(key) => Get(d, key, t.now).0
    case Wake(key) => Clean(d, key, t.now)
  }

  function RunTimed(d: State, run: seq<Timed>): State {
    if run == [] then d else Step(RunTimed(d, run[..|run| - 1]), run[|run| - 1])
  }

  // ---- The timed map ------------------------------------------------------------------

  datatype Write = Write(value: Datum, deadline: Option<int>)

  /** The last write of a key: by the run, or the one the initial store was loaded with. */
  function LastWrite(d: State, run: seq<Timed>, key: string): Option<Write> {
    if run == [] then
      if key in d.cache then Some(Write(d.cache[key], Lookup(d.expiry, key))) else None
    else After(LastWrite(d, run[..|run| - 1], key), run[|run| - 1].event, key)
  }

  function After(w: Option<Write>, event: Event, key: string): Option<Write> {
    match event
    case SetPlain(k, value) => if k == key then Some(Write(value, None)) else w
    case SetTimed(k, value, deadline) => if k == key then Some(Write(value, Some(deadline))) else w
    case _ => w
  }

  /** What a reader may see at a time: before the deadline the value, after it nothing, and at
      the very instant either. */
  predicate Visible(w: Option<Write>, now: int, seen: Option<Datum>) {
    match w
    case None => seen == None
    case Some(Write(value, None)) => seen == Some(value)
    case Some(Write(value, Some(deadline))) =>
      (now <= deadline && seen == Some(value)) || (now >= deadline && seen == None)
  }

  /** The clock never goes back. */
  predicate Monotone(run: seq<Timed>) { forall i, j :: 0 <= i < j < |run| ==> run[i].now <= run[j].now }

  /** The stored key is its last write, or was removed after that write's deadline. */
  predicate Refines(d: State, key: string, w: Option<Write>, clock: int) {
    var (value, deadline) := (Lookup(d.cache, key), Lookup(d.expiry, key));
    match w
    case None => value == None && deadline == None
    case Some(write) =>
      || (value == Some(write.value) && deadline == write.deadline)
      || (value == None && deadline == None && write.deadline.Some? && clock >= write.deadline.value)
  }

  predicate Loaded(d: State) { d.expiry.Keys <= d.cache.Keys }

  lemma {:induction false} RunRefines(d: State, run: seq<Timed>, key: string, clock: int)
    requires Loaded(d) && Monotone(run) && (run != [] ==> run[|run| - 1].now <= clock)
    ensures Refines(RunTimed(d, run), key, LastWrite(d, run, key), clock)
  {
    if run != [] {
      var n := |run| - 1;
      assert forall i :: 0 <= i < n ==> run[..n][i] == run[i];
      RunRefines(d, run[..n], key, run[n].now);
      StepRefines(RunTimed(d, run[..n]), run[n], key, LastWrite(d, run[..n], key), clock);
    }
  }

  lemma StepRefines(d: State, t: Timed, key: string, w: Option<Write>, clock: int)
    requires Refines(d, key, w, t.now) && t.now <= clock
    ensures Refines(Step(d, t), key, After(w, t.event, key), clock)
  {
    if t.event.key != key { StepElsewhere(d, t, key); }
  }

  lemma StepElsewhere(d: State, t: Timed, key: string)
    requires t.event.key != key
    ensures Lookup(Step(d, t).cache, key) == Lookup(d.cache, key)
    ensures Lookup(Step(d, t).expiry, key) == Lookup(d.expiry, key)
  {
  }

  /** GET refines the timed map: in every run with a clock that does not go back, however many
      cleanup goroutines exist and whenever they wake, a read returns the last write before
      its deadline and nothing after it. */
  lemma GetIsTimedRead(d: State, run: seq<Timed>, key: string, now: int)
    requires Loaded(d) && Monotone(run) && (run != [] ==> run[|run| - 1].now <= now)
    ensures Visible(LastWrite(d, run, key), now, Get(RunTimed(d, run), key, now).1)
  {
    RunRefines(d, run, key, now);
  }

  /** A stale goroutine never removes a newer value that is still alive. */
  lemma CleanerSparesLiveValues(d: State, run: seq<Timed>, key: string, other: string, now: int)
    requires Loaded(d) && Monotone(run) && (run != [] ==> run[|run| - 1].now <= now)
    ensures var w := LastWrite(d, run, key);
            w.Some? && (w.value.deadline.Some? ==> now < w.value.deadline.value)
            ==> Lookup(Clean(RunTimed(d, run), other, now).cache, key) == Some(w.value.value)
  {
    RunRefines(d, run, key, now);
  }

  // ---- GET and timed SET in their critical sections --------------------------------------------

  /** A GET that finds its key expired deletes it in a second section of its own; `Look` and
      `Delete` are the two, with the getter's name. A SET with a time to live stores the value and
      sets the deadline in another: `Store` and `Arm`. */
  datatype Part =
    | Whole(event: Event)
    | Look(g: nat, key: string)
    | Delete(g: nat)
    | Store(g: nat, key: string, value: Datum)
    | Arm(g: nat, deadline: int)

  datatype Moment = Moment(part: Part, now: int)

  /** The getters and setters between their sections, with their keys and, for the proof, whether
      the key has been touched since. */
  datatype Split = Split(d: State, getters: map<nat, (string, bool)>, setters: map<nat, (string, bool)>)

  function WrittenKey(event: Event): Option<string> {
    if event.SetPlain? || event.SetTimed? then Some(event.key) else None
  }

  function Touched(names: map<nat, (string, bool)>, key: Option<string>): map<nat, (string, bool)> {
    map g | g in names :: (names[g].0, names[g].1 || Some(names[g].0) == key)
  }

  function SplitStep(s: Split, t: Moment): Split {
    match t.part
    case Whole(event) =>
      var key := WrittenKey(event);
      Split(Step(s.d, Timed(event, t.now)), Touched(s.getters, key), Touched(s.setters, key))
    case Look(g, key) => if Expired(s.d, key, t.now) then s.(getters := s.getters[g := (key, false)]) else s
    case Delete(g) => if g in s.getters then s.(d := DropKey(s.d, s.getters[g].0), getters := s.getters - {g}) else s
    case Store(g, key, value) =>
      Split(SetValue(s.d, key, value), Touched(s.getters, Some(key)), Touched(s.setters, Some(key))[g := (key, false)])
    case Arm(g, deadline) =>
      if g !in s.setters then s
      else
        var key := s.setters[g].0;
        Split(SetExpiry(s.d, key, deadline), Touched(s.getters, Some(key)), s.setters - {g})
  }

  function RunSplit(d: State, run: seq<Moment>): Split {
    if run == [] then Split(d, map[], map[]) else SplitStep(RunSplit(d, run[..|run| - 1]), run[|run| - 1])
  }

  /** The last write of a key by a run of moments. A deadline belongs to the value its setter
      stored, if that is still the last. */
  function LastSplitWrite(d: State, run: seq<Moment>, key: string): Option<Write> {
    if run == [] then
      if key in d.cache then Some(Write(d.cache[key], Lookup(d.expiry, key))) else None
    else
      AfterPart(LastSplitWrite(d, run[..|run| - 1], key), RunSplit(d, run[..|run| - 1]), run[|run| - 1].part, key)
  }

  function AfterPart(w: Option<Write>, s: Split, part: Part, key: string): Option<Write> {
    match part
    case Whole(event) => After(w, event, key)
    case Store(_, k, value) => if k == key then Some(Write(value, None)) else w
    case Arm(g, deadline) =>
      if g in s.setters && s.setters[g] == (key, false) && w.Some? then Some(w.value.(deadline := Some(deadline)))
      else w
    case _ => w
  }

  /** The clock never goes back, and a name is used for one command at a time. */
  predicate Proper(d: State, run: seq<Moment>) {
    && (forall i, j :: 0 <= i < j < |run| ==> run[i].now <= run[j].now)
    && (forall i :: 0 <= i < |run| && run[i].part.Look? ==> run[i].part.g !in RunSplit(d, run[..i]).getters)
    && (forall i :: 0 <= i < |run| && run[i].part.Store? ==> run[i].part.g !in RunSplit(d, run[..i]).setters)
  }

  predicate Live(d: State, key: string, now: int) {
    key in d.cache && (key in d.expiry ==> now < d.expiry[key])
  }

  /** A key that nobody has touched since a getter looked is no longer live. */
  ghost predicate LooksHold(s: Split, clock: int) {
    forall g :: g in s.getters && !s.getters[g].1 ==> !Live(s.d, s.getters[g].0, clock)
  }

  lemma DropNotLive(d: State, key: string, other: string, now: int)
    requires !Live(d, other, now)
    ensures !Live(DropKey(d, key), other, now)
  {
  }

  lemma EventNotLive(d: State, t: Timed, key: string, clock: int)
    requires !Live(d, key, t.now) && t.now <= clock && WrittenKey(t.event) != Some(key)
    ensures !Live(Step(d, t), key, clock)
  {
  }

  lemma {:induction false} LooksHoldAlways(d: State, run: seq<Moment>, clock: int)
    requires Proper(d, run) && (run != [] ==> run[|run| - 1].now <= clock)
    ensures LooksHold(RunSplit(d, run), clock)
  {
    if run != [] {
      var n := |run| - 1;
      ProperTake(d, run, n);
      LooksHoldAlways(d, run[..n], run[n].now);
      LooksHoldStep(RunSplit(d, run[..n]), run[n], clock);
    }
  }

  lemma LooksHoldStep(s: Split, t: Moment, clock: int)
    requires LooksHold(s, t.now) && t.now <= clock
    ensures LooksHold(SplitStep(s, t), clock)
  {
    var s' := SplitStep(s, t);
    forall g | g in s'.getters && !s'.getters[g].1 ensures !Live(s'.d, s'.getters[g].0, clock) {
      var key := s'.getters[g].0;
      match t.part
      case Whole(event) => EventNotLive(s.d, Timed(event, t.now), key, clock);
      case Look(_, _) =>
      case Delete(g') => if g' in s.getters { DropNotLive(s.d, s.getters[g'].0, key, t.now); }
      case Store(_, _, _) =>
      case Arm(_, _) =>
    }
  }

  lemma ProperTake(d: State, run: seq<Moment>, n: nat)
    requires Proper(d, run) && n <= |run|
    ensures Proper(d, run[..n])
  {
    assert forall i :: 0 <= i < n ==> run[..n][i] == run[i] && run[..n][..i] == run[..i];
  }

  /** Moment n is the delete of a getter whose key is live: it removes a value it should not. */
  predicate RemovesLive(d: State, run: seq<Moment>, n: nat, key: string)
    requires n < |run|
  {
    var s := RunSplit(d, run[..n]);
    run[n].part.Delete? && run[n].part.g in s.getters && s.getters[run[n].part.g].0 == key && Live(s.d, key, run[n].now)
  }

  /** Moment n gives its deadline to a key that has been written since the value was stored. */
  predicate ArmsAnother(d: State, run: seq<Moment>, n: nat, key: string)
    requires n < |run|
  {
    var s := RunSplit(d, run[..n]);
    && run[n].part.Arm? && run[n].part.g in s.setters && s.setters[run[n].part.g] == (key, true)
    && Lookup(s.d.expiry, key) != Some(run[n].part.deadline)
  }

  /** A delete removes a live value exactly if the key is live again because it was written, or
      given a deadline, between the look and the delete. */
  lemma LiveOnlyIfWritten(d: State, run: seq<Moment>, n: nat, key: string)
    requires Proper(d, run) && n < |run| && run[n].part.Delete?
    requires var s := RunSplit(d, run[..n]); run[n].part.g in s.getters && s.getters[run[n].part.g].0 == key
    ensures var s := RunSplit(d, run[..n]);
            RemovesLive(d, run, n, key) <==> s.getters[run[n].part.g].1 && Live(s.d, key, run[n].now)
  {
    ProperTake(d, run, n);
    if n > 0 { assert run[..n][n - 1].now <= run[n].now; }
    LooksHoldAlways(d, run[..n], run[n].now);
  }

  /** The timed map at moment n, for a key. */
  predicate RefinesAt(d: State, run: seq<Moment>, n: nat, key: string, clock: int)
    requires n <= |run|
  {
    Refines(RunSplit(d, run[..n]).d, key, LastSplitWrite(d, run[..n], key), clock)
  }

  /** While the value of a setter is the last written of its key, that write has no deadline. */
  ghost predicate StoresHold(s: Split, key: string, w: Option<Write>) {
    forall g :: g in s.setters && s.setters[g] == (key, false) ==> w.Some? && w.value.deadline == None
  }

  lemma {:induction false} StoresHoldAlways(d: State, run: seq<Moment>, key: string)
    requires Proper(d, run)
    ensures StoresHold(RunSplit(d, run), key, LastSplitWrite(d, run, key))
    ensures forall g, g' :: OnlySetter(RunSplit(d, run), key, g, g')
  {
    if run != [] {
      var n := |run| - 1;
      ProperTake(d, run, n);
      StoresHoldAlways(d, run[..n], key);
      StoresHoldStep(RunSplit(d, run[..n]), run[n], key, LastSplitWrite(d, run[..n], key));
    }
  }

  /** Two setters cannot both have stored the last value. */
  predicate OnlySetter(s: Split, key: string, g: nat, g': nat) {
    g in s.setters && g' in s.setters && s.setters[g] == (key, false) == s.setters[g'] ==> g == g'
  }

  lemma StoresHoldStep(s: Split, t: Moment, key: string, w: Option<Write>)
    requires StoresHold(s, key, w) && forall g, g' :: OnlySetter(s, key, g, g')
    ensures StoresHold(SplitStep(s, t), key, AfterPart(w, s, t.part, key))
    ensures forall g, g' :: OnlySetter(SplitStep(s, t), key, g, g')
  {
    var s' := SplitStep(s, t);
    forall g, g' ensures OnlySetter(s', key, g, g') { assert OnlySetter(s, key, g, g'); }
    forall g | g in s'.setters && s'.setters[g] == (key, false)
      ensures var w' := AfterPart(w, s, t.part, key); w'.Some? && w'.value.deadline == None
    {
      if t.part.Arm? && t.part.g in s.setters { assert OnlySetter(s, key, g, t.part.g); }
    }
  }

  lemma DropRefines(d: State, other: string, key: string, w: Option<Write>, now: int)
    requires Refines(d, key, w, now)
    ensures Refines(DropKey(d, other), key, w, now) <==> !(other == key && Live(d, key, now))
  {
  }

  lemma LaterRefines(d: State, key: string, w: Option<Write>, now: int, clock: int)
    requires Refines(d, key, w, now) && now <= clock
    ensures Refines(d, key, w, clock)
  {
  }

  lemma StoreRefines(d: State, other: string, value: Datum, key: string, w: Option<Write>, now: int)
    requires Refines(d, key, w, now)
    ensures Refines(SetValue(d, other, value), key, if other == key then Some(Write(value, None)) else w, now)
  {
  }

  /** A deadline for the last write, and one for a value that is no longer there. */
  lemma ArmRefines(d: State, other: string, deadline: int, key: string, w: Option<Write>, now: int)
    requires Refines(d, key, w, now)
    ensures other != key ==> Refines(SetExpiry(d, other, deadline), key, w, now)
    ensures other == key && w.Some? && w.value.deadline == None ==>
              Refines(SetExpiry(d, other, deadline), key, Some(w.value.(deadline := Some(deadline))), now)
    ensures other == key ==>
              (Refines(SetExpiry(d, other, deadline), key, w, now) <==> Lookup(d.expiry, key) == Some(deadline))
  {
  }

  lemma ArmPart(s: Split, g: nat, deadline: int, key: string, w: Option<Write>, now: int)
    requires g in s.setters && StoresHold(s, key, w) && Refines(s.d, key, w, now)
    ensures Refines(SetExpiry(s.d, s.setters[g].0, deadline), key, AfterPart(w, s, Arm(g, deadline), key), now)
       <==> !(s.setters[g] == (key, true) && Lookup(s.d.expiry, key) != Some(deadline))
  {
    ArmRefines(s.d, s.setters[g].0, deadline, key, w, now);
    if s.setters[g].0 != key {
      assert s.setters[g] != (key, false) && s.setters[g] != (key, true);
    } else if s.setters[g].1 {
      assert s.setters[g] == (key, true);
    } else {
      assert s.setters[g] == (key, false);
    }
  }

  /** One moment keeps the refinement unless it removes a live value or arms another one. */
  lemma MomentRefines(d: State, run: seq<Moment>, n: nat, key: string)
    requires Proper(d, run) && n < |run| && RefinesAt(d, run, n, key, run[n].now)
    ensures RefinesAt(d, run, n + 1, key, run[n].now)
       <==> !RemovesLive(d, run, n, key) && !ArmsAnother(d, run, n, key)
  {
    var s, w, t := RunSplit(d, run[..n]), LastSplitWrite(d, run[..n], key), run[n];
    assert run[..n + 1][..n] == run[..n] && run[..n + 1][n] == run[n];
    match t.part
    case Whole(event) => StepRefines(s.d, Timed(event, t.now), key, w, t.now);
    case Look(_, _) =>
    case Delete(g) => if g in s.getters { DropRefines(s.d, s.getters[g].0, key, w, t.now); }
    case Store(_, k, value) => StoreRefines(s.d, k, value, key, w, t.now);
    case Arm(g, deadline) =>
      ProperTake(d, run, n);
      StoresHoldAlways(d, run[..n], key);
      if g in s.setters { ArmPart(s, g, deadline, key, w, t.now); }
  }

  predicate Harmless(d: State, run: seq<Moment>, n: nat, key: string)
    requires n < |run|
  {
    !RemovesLive(d, run, n, key) && !ArmsAnother(d, run, n, key)
  }

  /** With the sections of GET and timed SET interleaved with anything, the store refines the timed
      map at every moment of a run if and only if no delete of the key removes a live value and no
      deadline is given to a value stored since. */
  lemma SplitRunsRefine(d: State, run: seq<Moment>, key: string)
    requires Loaded(d) && Proper(d, run)
    ensures (forall n :: 0 <= n < |run| ==> RefinesAt(d, run, n + 1, key, run[n].now))
       <==> (forall n :: 0 <= n < |run| ==> Harmless(d, run, n, key))
  {
    if forall n :: 0 <= n < |run| ==> Harmless(d, run, n, key) {
      forall n | 0 <= n < |run| ensures RefinesAt(d, run, n + 1, key, run[n].now) { RefinesUpTo(d, run, n, key); }
    }
    if forall n :: 0 <= n < |run| ==> RefinesAt(d, run, n + 1, key, run[n].now) {
      forall n | 0 <= n < |run| ensures Harmless(d, run, n, key) {
        RefinesBefore(d, run, n, key);
        MomentRefines(d, run, n, key);
      }
    }
  }

  lemma RefinesBefore(d: State, run: seq<Moment>, n: nat, key: string)
    requires Loaded(d) && Proper(d, run) && n < |run|
    requires n > 0 ==> RefinesAt(d, run, n, key, run[n - 1].now)
    ensures RefinesAt(d, run, n, key, run[n].now)
  {
    if n > 0 {
      LaterRefines(RunSplit(d, run[..n]).d, key, LastSplitWrite(d, run[..n], key), run[n - 1].now, run[n].now);
    }
  }

  lemma {:induction false} RefinesUpTo(d: State, run: seq<Moment>, n: nat, key: string)
    requires Loaded(d) && Proper(d, run) && n < |run| && forall i :: 0 <= i < |run| ==> Harmless(d, run, i, key)
    ensures RefinesAt(d, run, n + 1, key, run[n].now)
  {
    if n > 0 { RefinesUpTo(d, run, n - 1, key); }
    RefinesBefore(d, run, n, key);
    assert Harmless(d, run, n, key);
    MomentRefines(d, run, n, key);
  }

  // ---- Both can happen ------------------------------------------------------------------------------

  lemma SplitSnoc(d: State, run: seq<Moment>, t: Moment)
    ensures RunSplit(d, run + [t]) == SplitStep(RunSplit(d, run), t)
  {
    assert (run + [t])[..|run|] == run;
  }

  function LateDelete(key: string, first: Datum, second: Datum): seq<Moment> {
    [Moment(Whole(SetTimed(key, first, 1)), 0), Moment(Look(0, key), 2), Moment(Whole(SetPlain(key, second)), 3),
     Moment(Delete(0), 4)]
  }

  /** A SET between the look and the delete of a GET is lost. */
  lemma LateDeleteLosesWrite(key: string, first: Datum, second: Datum)
    ensures RemovesLive(EMPTY, LateDelete(key, first, second), 3, key)
  {
    var run := LateDelete(key, first, second);
    FirstThree(run);
  }

  /** The state before the fourth moment. */
  lemma FirstThree(run: seq<Moment>)
    requires |run| >= 3
    ensures RunSplit(EMPTY, run[..3])
         == SplitStep(SplitStep(SplitStep(Split(EMPTY, map[], map[]), run[0]), run[1]), run[2])
  {
    FirstTwo(run);
    SplitSnoc(EMPTY, run[..2], run[2]);
    assert run[..2] + [run[2]] == run[..3];
  }

  lemma FirstTwo(run: seq<Moment>)
    requires |run| >= 2
    ensures RunSplit(EMPTY, run[..2]) == SplitStep(SplitStep(Split(EMPTY, map[], map[]), run[0]), run[1])
  {
    SplitSnoc(EMPTY, [], run[0]);
    SplitSnoc(EMPTY, [run[0]], run[1]);
    assert [] + [run[0]] == [run[0]] && [run[0]] + [run[1]] == run[..2];
  }

  function LateDeadline(key: string, first: Datum, second: Datum, deadline: int): seq<Moment> {
    [Moment(Store(0, key, first), 0), Moment(Whole(SetPlain(key, second)), 1), Moment(Arm(0, deadline), 2)]
  }

  /** A SET between the sections of a timed SET gets a deadline it never had. */
  lemma LateDeadlineArmsAnother(key: string, first: Datum, second: Datum, deadline: int)
    ensures ArmsAnother(EMPTY, LateDeadline(key, first, second, deadline), 2, key)
  {
    FirstTwo(LateDeadline(key, first, second, deadline));
  }
}
