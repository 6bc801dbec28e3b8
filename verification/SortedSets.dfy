/** Sorted sets: ZRANGE and ZRANK work on a sorted list built from a map on every call. The
    list is the same whatever order the map is iterated in and whatever sort is used. */
module SortedSets {
  import opened StoreModel
  import opened StoreClass

  datatype Node = Node(member: string, score: Score)

  /** Go's `<` on strings: bytewise lexicographic. */
  predicate StringLess(a: string, b: string) {
    if b == [] then false
    else if a == [] then true
    else a[0] < b[0] || (a[0] == b[0] && StringLess(a[1..], b[1..]))
  }

  predicate ScoreLess(a: Score, b: Score) {
    match (a, b)
    case (NaN, _) => false
    case (_, NaN) => false
    case (NegInf, _) => b != NegInf
    case (_, PosInf) => a != PosInf
    case (Finite(x), Finite(y)) => x < y
    case _ => false
  }

  predicate ScoreEqual(a: Score, b: Score) { a == b && !a.NaN? }

  /** The comparison passed to sort.Slice. */
  predicate Before(a: Node, b: Node) {
    if ScoreEqual(a.score, b.score) then StringLess(a.member, b.member) else ScoreLess(a.score, b.score)
  }

  predicate Comparable(scores: map<string, Score>) { forall m :: m in scores ==> !scores[m].NaN? }

  // ---- The order is total -------------------------------------------------------------

  lemma {:induction false} StringOrder(a: string, b: string, c: string)
    ensures StringLess(a, b) && StringLess(b, c) ==> StringLess(a, c)
    ensures a == b || StringLess(a, b) || StringLess(b, a)
    ensures !(StringLess(a, b) && StringLess(b, a)) && !StringLess(a, a)
  {
    if a != [] && b != [] {
      StringOrder(a[1..], b[1..], if c == [] then [] else c[1..]);
      if a[0] == b[0] && a[1..] == b[1..] { assert a == [a[0]] + a[1..] == b; }
    } else if a != [] {
      StringOrder(a[1..], [], []);
    }
  }

  lemma NodeOrder(a: Node, b: Node, c: Node)
    requires !a.score.NaN? && !b.score.NaN? && !c.score.NaN?
    ensures Before(a, b) && Before(b, c) ==> Before(a, c)
    ensures a == b || Before(a, b) || Before(b, a)
    ensures !(Before(a, b) && Before(b, a)) && !Before(a, a)
  {
    StringOrder(a.member, b.member, c.member);
  }

  /** No node comes before itself, whatever its score. */
  lemma NotBeforeItself(a: Node)
    ensures !Before(a, a)
  {
    StringOrder(a.member, a.member, a.member);
  }

  // ---- The sorted view -------------------------------------------------------------------

  predicate Sorted(nodes: seq<Node>) {
    forall i, j :: 0 <= i < j < |nodes| ==> Before(nodes[i], nodes[j])
  }

  /** nodes lists exactly the members of scores with their scores. */
  ghost predicate Holds(nodes: seq<Node>, scores: map<string, Score>) {
    && (forall i :: 0 <= i < |nodes| ==> nodes[i].member in scores && nodes[i].score == scores[nodes[i].member])
    && (forall m :: m in scores ==> Node(m, scores[m]) in nodes)
  }

  predicate Distinct(nodes: seq<Node>) {
    forall i, j :: 0 <= i < j < |nodes| ==> nodes[i].member != nodes[j].member
  }

  /** The members once each, in strictly rising order. */
  ghost predicate IsView(nodes: seq<Node>, scores: map<string, Score>) { Sorted(nodes) && Holds(nodes, scores) }

  /** The node of a member is at one place only. */
  lemma ViewDistinct(nodes: seq<Node>, scores: map<string, Score>)
    requires IsView(nodes, scores)
    ensures Distinct(nodes)
  {
    forall i, j | 0 <= i < j < |nodes| ensures nodes[i].member != nodes[j].member { NotBeforeItself(nodes[i]); }
  }

  lemma ViewTail(nodes: seq<Node>, scores: map<string, Score>)
    requires IsView(nodes, scores) && nodes != []
    ensures IsView(nodes[1..], scores - {nodes[0].member})
  {
    var left := scores - {nodes[0].member};
    ViewDistinct(nodes, scores);
    forall m | m in left ensures Node(m, left[m]) in nodes[1..] {
      assert Node(m, scores[m]) in nodes;
      assert nodes == [nodes[0]] + nodes[1..];
    }
  }

  lemma ViewEmpty(nodes: seq<Node>, scores: map<string, Score>)
    requires IsView(nodes, scores)
    ensures nodes == [] <==> scores == map[]
  {
    if nodes != [] { assert nodes[0].member in scores; }
    if scores != map[] {
      var m :| m in scores;
      assert Node(m, scores[m]) in nodes;
    }
  }

  /** There is one sorted view at most: any two agree, so the map iteration order and the sorting
      algorithm do not matter. */
  lemma {:induction false} ViewUnique(a: seq<Node>, b: seq<Node>, scores: map<string, Score>)
    requires IsView(a, scores) && IsView(b, scores)
    ensures a == b
    decreases |a|
  {
    assert a == [] <==> b == [] by {
      ViewEmpty(a, scores);
      ViewEmpty(b, scores);
    }
    if a != [] {
      assert a[0] == b[0] by { SameHead(a, b, scores); }
      assert a[1..] == b[1..] by {
        ViewTail(a, scores);
        ViewTail(b, scores);
        ViewUnique(a[1..], b[1..], scores - {a[0].member});
      }
      HeadAndTail(a, b);
    }
  }

  lemma HeadAndTail(a: seq<Node>, b: seq<Node>)
    requires a != [] && b != [] && a[0] == b[0] && a[1..] == b[1..]
    ensures a == b
  {
    assert a == [a[0]] + a[1..] && b == [b[0]] + b[1..];
  }

  /** Before never holds both ways round. */
  lemma OneWay(a: Node, b: Node)
    ensures !(Before(a, b) && Before(b, a))
  {
    StringOrder(a.member, b.member, a.member);
  }

  /** Both views start with the least node. */
  lemma SameHead(a: seq<Node>, b: seq<Node>, scores: map<string, Score>)
    requires IsView(a, scores) && IsView(b, scores) && a != [] && b != []
    ensures a[0] == b[0]
  {
    assert a[0].member in scores && a[0] in b;
    assert b[0].member in scores && b[0] in a;
    var i :| 0 <= i < |b| && b[i] == a[0];
    var j :| 0 <= j < |a| && a[j] == b[0];
    OneWay(a[0], b[0]);
  }

  // ---- When there is one ------------------------------------------------------------------------

  /** No score is NaN, or there is nothing to compare. */
  predicate Rankable(scores: map<string, Score>) { Comparable(scores) || |scores| <= 1 }

  /** NaN comes neither before nor after anything. */
  lemma Compared(nodes: seq<Node>, i: nat)
    requires Sorted(nodes) && |nodes| > 1 && i < |nodes|
    ensures !nodes[i].score.NaN?
  {
    assert if i == 0 then Before(nodes[0], nodes[1]) else Before(nodes[0], nodes[i]);
  }

  lemma ViewRankable(nodes: seq<Node>, scores: map<string, Score>)
    requires IsView(nodes, scores)
    ensures Rankable(scores)
  {
    ViewDistinct(nodes, scores);
    PlacesFit(nodes, scores);
    if |scores| > 1 {
      forall m | m in scores ensures !scores[m].NaN? {
        var i :| 0 <= i < |nodes| && nodes[i] == Node(m, scores[m]);
        Compared(nodes, i);
      }
    }
  }

  /** Where a new node goes: after the nodes before it. */
  function Place(nodes: seq<Node>, n: Node): (i: nat)
    ensures i <= |nodes| && forall j :: 0 <= j < i ==> Before(nodes[j], n)
    ensures i < |nodes| ==> !Before(nodes[i], n)
  {
    if nodes == [] || !Before(nodes[0], n) then 0 else 1 + Place(nodes[1..], n)
  }

  lemma {:induction false} ViewExists(scores: map<string, Score>) returns (nodes: seq<Node>)
    requires Comparable(scores)
    ensures IsView(nodes, scores)
    decreases |scores|
  {
    if scores == map[] {
      nodes := [];
    } else {
      var m :| m in scores;
      var n, rest := Node(m, scores[m]), scores - {m};
      assert rest[m := scores[m]] == scores;
      nodes := ViewExists(rest);
      InsertSorted(nodes, n, rest, Place(nodes, n));
      InsertMembers(nodes, n, rest, Place(nodes, n));
      nodes := nodes[..Place(nodes, n)] + [n] + nodes[Place(nodes, n)..];
    }
  }

  lemma SingleView(scores: map<string, Score>) returns (nodes: seq<Node>)
    requires |scores| <= 1
    ensures IsView(nodes, scores)
  {
    nodes := [];
    if scores != map[] {
      var m :| m in scores;
      nodes := [Node(m, scores[m])];
      forall k | k in scores ensures k == m { if k != m { TwoMembers(scores, k, m); } }
    }
  }

  lemma TwoMembers(scores: map<string, Score>, k: string, m: string)
    requires k in scores && m in scores && k != m
    ensures |scores| > 1
  {
    assert {k, m} <= scores.Keys;
    var more := scores.Keys - {k, m};
    assert scores.Keys == {k, m} + more && |scores.Keys| == |{k, m}| + |more|;
  }

  /** A sorted set has a sorted view, and then just one, if and only if no score is NaN or it has
      no two members. */
  lemma ViewExactly(scores: map<string, Score>)
    ensures (exists nodes :: IsView(nodes, scores)) <==> Rankable(scores)
  {
    if nodes :| IsView(nodes, scores) { ViewRankable(nodes, scores); }
    if Rankable(scores) {
      var nodes;
      if Comparable(scores) { nodes := ViewExists(scores); } else { nodes := SingleView(scores); }
      assert IsView(nodes, scores);
    }
  }

  // ---- Sorting ------------------------------------------------------------------------------------

  /** One insertion of the sort that stands for sort.Slice: it sorts what can be compared, and
      loses nothing of the rest. */
  method Insert(nodes: seq<Node>, n: Node, ghost scores: map<string, Score>) returns (r: seq<Node>)
    requires Holds(nodes, scores) && Distinct(nodes) && n.member !in scores
    ensures Holds(r, scores[n.member := n.score]) && Distinct(r)
    ensures Comparable(scores[n.member := n.score]) && Sorted(nodes) ==> Sorted(r)
  {
    var i := 0;
    while i < |nodes| && Before(nodes[i], n)
      invariant 0 <= i <= |nodes|
      invariant forall j :: 0 <= j < i ==> Before(nodes[j], n)
    {
      i := i + 1;
    }
    r := nodes[..i] + [n] + nodes[i..];
    if Comparable(scores[n.member := n.score]) && Sorted(nodes) {
      SubComparable(scores, n);
      InsertSorted(nodes, n, scores, i);
    }
    InsertMembers(nodes, n, scores, i);
    InsertDistinct(nodes, n, scores, i);
  }

  lemma SubComparable(scores: map<string, Score>, n: Node)
    requires n.member !in scores && Comparable(scores[n.member := n.score])
    ensures Comparable(scores) && !n.score.NaN?
  {
    var more := scores[n.member := n.score];
    assert more[n.member] == n.score;
    forall m | m in scores ensures !scores[m].NaN? { assert more[m] == scores[m]; }
  }

  lemma InsertDistinct(nodes: seq<Node>, n: Node, scores: map<string, Score>, i: nat)
    requires Holds(nodes, scores) && Distinct(nodes) && n.member !in scores && i <= |nodes|
    ensures Distinct(nodes[..i] + [n] + nodes[i..])
  {
  }

  lemma InsertSorted(nodes: seq<Node>, n: Node, scores: map<string, Score>, i: nat)
    requires IsView(nodes, scores) && Comparable(scores) && !n.score.NaN? && n.member !in scores
    requires i <= |nodes| && (forall j :: 0 <= j < i ==> Before(nodes[j], n))
    requires i < |nodes| ==> !Before(nodes[i], n)
    ensures Sorted(nodes[..i] + [n] + nodes[i..])
  {
    forall j | i <= j < |nodes| ensures Before(n, nodes[j]) {
      assert nodes[i].member in scores && nodes[j].member in scores;
      NodeOrder(n, nodes[i], nodes[j]);
    }
    assert nodes[..i] + nodes[i..] == nodes;
    SortedJoin(nodes[..i], n, nodes[i..]);
  }

  lemma SortedJoin(a: seq<Node>, n: Node, b: seq<Node>)
    requires Sorted(a + b)
    requires forall i :: 0 <= i < |a| ==> Before(a[i], n)
    requires forall i :: 0 <= i < |b| ==> Before(n, b[i])
    ensures Sorted(a + [n] + b)
  {
    var s, r := a + b, a + [n] + b;
    forall i, j | 0 <= i < j < |r| ensures Before(r[i], r[j]) {
      if j < |a| {
        assert Before(s[i], s[j]);
      } else if i < |a| < j {
        assert Before(s[i], s[j - 1]);
      } else if |a| < i {
        assert Before(s[i - 1], s[j - 1]);
      }
    }
  }

  lemma InsertMembers(nodes: seq<Node>, n: Node, scores: map<string, Score>, i: nat)
    requires Holds(nodes, scores) && i <= |nodes| && n.member !in scores
    ensures Holds(nodes[..i] + [n] + nodes[i..], scores[n.member := n.score])
  {
    var r, more := nodes[..i] + [n] + nodes[i..], scores[n.member := n.score];
    assert nodes == nodes[..i] + nodes[i..];
    assert forall x :: x in r <==> x in nodes || x == n;
    forall m | m in more ensures Node(m, more[m]) in r {
      if m != n.member { assert Node(m, scores[m]) in nodes; }
    }
  }

  function ScoresAt(d: State, key: string): map<string, Score> {
    if key in d.cache && d.cache[key].ZSet? then d.cache[key].scores else map[]
  }

  /** getSortedZSetNodes: the map is walked in an arbitrary order. The members come once each, and
      sorted whenever they can be. */
  method GetSortedZSetNodes(s: Store, key: string) returns (nodes: seq<Node>)
    ensures Holds(nodes, ScoresAt(s.Model(), key)) && Distinct(nodes)
    ensures Rankable(ScoresAt(s.Model(), key)) ==> IsView(nodes, ScoresAt(s.Model(), key))
  {
    nodes := [];
    if key !in s.cache || !s.cache[key].ZSet? { return; }
    var zset := s.cache[key].scores;
    var todo := zset.Keys;
    while todo != {}
      invariant todo <= zset.Keys
      invariant Holds(nodes, zset - todo) && Distinct(nodes)
      invariant Comparable(zset) ==> Sorted(nodes)
      decreases |todo|
    {
      var member :| member in todo;
      assert (zset - todo)[member := zset[member]] == zset - (todo - {member});
      nodes := Insert(nodes, Node(member, zset[member]), zset - todo);
      todo := todo - {member};
    }
    assert zset - todo == zset;
    if |zset| <= 1 { SingleSorted(nodes, zset); }
  }

  lemma SingleSorted(nodes: seq<Node>, scores: map<string, Score>)
    requires Holds(nodes, scores) && Distinct(nodes) && |scores| <= 1
    ensures Sorted(nodes)
  {
    if |nodes| > 1 { TwoMembers(scores, nodes[0].member, nodes[1].member); }
  }

  // ---- ZRANK and ZRANGE ----------------------------------------------------------------------

  /** The members that come strictly before a member. */
  ghost function Smaller(scores: map<string, Score>, member: string): set<string>
    requires member in scores
  {
    set m | m in scores && Before(Node(m, scores[m]), Node(member, scores[member]))
  }

  lemma {:induction false} CountMembers(nodes: seq<Node>, n: nat)
    requires n <= |nodes| && Distinct(nodes)
    ensures |set i | 0 <= i < n :: nodes[i].member| == n
  {
    var s := set i | 0 <= i < n :: nodes[i].member;
    if n > 0 {
      var before := set i | 0 <= i < n - 1 :: nodes[i].member;
      CountMembers(nodes, n - 1);
      assert s == before + {nodes[n - 1].member};
      assert nodes[n - 1].member !in before;
    }
  }

  /** A member's place in the view is the number of members before it. */
  lemma PlaceIsRank(nodes: seq<Node>, scores: map<string, Score>, i: nat)
    requires IsView(nodes, scores) && i < |nodes|
    ensures i == |Smaller(scores, nodes[i].member)|
  {
    var before := set j | 0 <= j < i :: nodes[j].member;
    ViewDistinct(nodes, scores);
    CountMembers(nodes, i);
    forall m ensures m in before <==> m in Smaller(scores, nodes[i].member) {
      if m in before {
        var j :| 0 <= j < i && nodes[j].member == m;
        assert nodes[j] == Node(m, scores[m]) && Before(nodes[j], nodes[i]);
      }
      if m in Smaller(scores, nodes[i].member) {
        var j :| 0 <= j < |nodes| && nodes[j] == Node(m, scores[m]);
        OneWay(nodes[i], nodes[j]);
        NotBeforeItself(nodes[i]);
        assert j < i;
      }
    }
    assert before == Smaller(scores, nodes[i].member);
  }

  /** The rank where the members can be ranked; otherwise some place, and none for a stranger. */
  method ZRank(s: Store, key: string, member: string) returns (rank: int)
    ensures var scores := ScoresAt(s.Model(), key);
            && (member !in scores ==> rank == -1)
            && (member in scores ==> 0 <= rank < |scores|)
            && (member in scores && Rankable(scores) ==> rank == |Smaller(scores, member)|)
  {
    var nodes := GetSortedZSetNodes(s, key);
    ghost var scores := ScoresAt(s.Model(), key);
    PlacesFit(nodes, scores);
    var i := 0;
    while i < |nodes|
      invariant 0 <= i <= |nodes|
      invariant forall j :: 0 <= j < i ==> nodes[j].member != member
    {
      if nodes[i].member == member {
        if Rankable(scores) { PlaceIsRank(nodes, scores, i); }
        return i;
      }
      i := i + 1;
    }
    assert forall m :: m in scores ==> Node(m, scores[m]) in nodes;
    return -1;
  }

  lemma PlacesFit(nodes: seq<Node>, scores: map<string, Score>)
    requires Holds(nodes, scores) && Distinct(nodes)
    ensures |nodes| == |scores|
  {
    CountMembers(nodes, |nodes|);
    var listed := set i | 0 <= i < |nodes| :: nodes[i].member;
    forall m ensures m in listed <==> m in scores.Keys {
      if m in scores { assert Node(m, scores[m]) in nodes; }
    }
    assert listed == scores.Keys;
  }

  /** Negative indices count from the end. */
  function Position(index: int, length: nat): int { if index < 0 then length + index else index }

  /** The places an index pair denotes: those between the two positions that exist. */
  predicate InInterval(p: int, start: int, stop: int, length: nat) {
    0 <= p < length && Position(start, length) <= p <= Position(stop, length)
  }

  /** ZRange returns the members at exactly the places of the interval, in order: of the sorted
      view where there is one, and of some list of the members in any case. */
  method ZRange(s: Store, key: string, start: int, stop: int) returns (result: seq<string>)
    ensures forall nodes :: IsView(nodes, ScoresAt(s.Model(), key)) ==>
              exists first: nat :: IsInterval(result, first, nodes, start, stop)
    ensures exists nodes, first: nat :: Holds(nodes, ScoresAt(s.Model(), key)) && Distinct(nodes)
                                        && IsInterval(result, first, nodes, start, stop)
  {
    ghost var scores := ScoresAt(s.Model(), key);
    var nodes := GetSortedZSetNodes(s, key);
    result := RangeOfNodes(nodes, start, stop);
    forall other | IsView(other, scores) ensures exists first: nat :: IsInterval(result, first, other, start, stop) {
      ViewRankable(other, scores);
      ViewUnique(nodes, other, scores);
    }
  }

  ghost predicate IsInterval(result: seq<string>, first: nat, nodes: seq<Node>, start: int, stop: int) {
    && (forall p :: InInterval(p, start, stop, |nodes|) <==> first <= p < first + |result|)
    && first + |result| <= |nodes|
    && (forall i :: 0 <= i < |result| ==> result[i] == nodes[first + i].member)
  }

  method RangeOfNodes(nodes: seq<Node>, start: int, stop: int) returns (result: seq<string>)
    ensures exists first: nat :: IsInterval(result, first, nodes, start, stop)
  {
    result := [];
    var length := |nodes|;
    if length == 0 { assert IsInterval(result, 0, nodes, start, stop); return; }
    var from, to := start, stop;
    if from < 0 { from := length + from; }
    if to < 0 { to := length + to; }
    if from < 0 { from := 0; }
    if to >= length { to := length - 1; }
    if from > to || from >= length { assert IsInterval(result, 0, nodes, start, stop); return; }
    var i := from;
    while i <= to
      invariant from <= i <= to + 1 && |result| == i - from
      invariant forall j :: 0 <= j < |result| ==> result[j] == nodes[from + j].member
    {
      result := result + [nodes[i].member];
      i := i + 1;
    }
    assert IsInterval(result, from, nodes, start, stop);
  }

  /** ZRANGE r r returns m exactly when ZRANK m is r. */
  lemma RangeOfRank(nodes: seq<Node>, scores: map<string, Score>, result: seq<string>, first: nat, r: nat, m: string)
    requires IsView(nodes, scores) && IsInterval(result, first, nodes, r, r)
    ensures result == [m] <==> m in scores && |Smaller(scores, m)| == r
  {
    assert InInterval(r, r, r, |nodes|) <==> first <= r < first + |result|;
    assert InInterval(first, r, r, |nodes|) <==> 0 < |result|;
    assert InInterval(first + 1, r, r, |nodes|) <==> 1 < |result|;
    if r < |nodes| {
      assert first == r && result == [nodes[r].member];
      PlaceIsRank(nodes, scores, r);
    }
    if m in scores && |Smaller(scores, m)| == r {
      var i :| 0 <= i < |nodes| && nodes[i] == Node(m, scores[m]);
      PlaceIsRank(nodes, scores, i);
    }
  }
}
