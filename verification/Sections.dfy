/** Any interleaving of clients and goroutines at the granularity of the store's lock: runs of
    single critical sections. */
module Sections {
  import opened Resp
  import opened StoreModel

  datatype Section =
    | DoSet(key: string, value: Datum)
    | DoSetExpiry(key: string, deadline: int)
    | DoClean(key: string, now: int)
    | DoLazyDelete(key: string)
    | DoIncr(key: string)
    | DoLPush(key: string, values: seq<string>)
    | DoRPush(key: string, values: seq<string>)
    | DoHandOff(key: string, values: seq<string>)
    | DoBLPop(key: string, ch: Chan)
    | DoCleanUpWaiter(key: string, ch: Chan)
    | DoZAdd(key: string, score: Score, member: string)
    | DoZRem(key: string, members: seq<string>)
    | DoXAdd(key: string, id: string, fields: seq<string>, nowMs: int)
    | DoRegister(key: string, ch: Chan)
    | DoStartTx(c: Conn)
    | DoQueue(c: Conn, arr: seq<Value>)
    | DoClearTx(c: Conn)
    | DoWatch(c: Conn, keys: seq<string>)
    | DoUnwatch(c: Conn)

  function Apply(d: State, s: Section): State {
    match s
    case DoSet(key, value) => SetValue(d, key, value)
    case DoSetExpiry(key, deadline) => SetExpiry(d, key, deadline)
    case DoClean(key, now) => Clean(d, key, now)
    case DoLazyDelete(key) => DropKey(d, key)
    case DoIncr(key) => Incr(d, key).0
    case DoLPush(key, values) => LPush(d, key, values)
    case DoRPush(key, values) => RPush(d, key, values)
    case DoHandOff(key, values) => HandOff(d, key, values, []).0
    case DoBLPop(key, ch) => BLPop(d, key, ch).0
    case DoCleanUpWaiter(key, ch) => CleanUpWaiter(d, key, ch)
    case DoZAdd(key, score, member) => ZAdd(d, key, score, member).0
    case DoZRem(key, members) => ZRem(d, key, members).0
    case DoXAdd(key, id, fields, nowMs) => XAdd(d, key, id, fields, nowMs).0
    case DoRegister(key, ch) => Register(d, key, ch).0
    case DoStartTx(c) => StartTx(d, c).0
    case DoQueue(c, arr) => QueueCommand(d, c, arr)
    case DoClearTx(c) => ClearTx(d, c)
    case DoWatch(c, keys) => Watch(d, c, keys)
    case DoUnwatch(c) => Unwatch(d, c)
  }

  function Run(d: State, run: seq<Section>): State
    decreases |run|
  {
    if run == [] then d else Run(Apply(d, run[0]), run[1..])
  }

  lemma {:induction false} RunAppend(d: State, a: seq<Section>, b: seq<Section>)
    ensures Run(d, a + b) == Run(Run(d, a), b)
    decreases |a|
  {
    if a == [] {
      assert a + b == b;
    } else {
      assert (a + b)[1..] == a[1..] + b;
      RunAppend(Apply(d, a[0]), a[1..], b);
    }
  }

  /** The state before section i. */
  function At(d: State, run: seq<Section>, i: nat): State
    requires i <= |run|
  {
    Run(d, run[..i])
  }

  lemma AtStep(d: State, run: seq<Section>, i: nat)
    requires i < |run|
    ensures At(d, run, i + 1) == Apply(At(d, run, i), run[i])
  {
    assert run[..i + 1] == run[..i] + [run[i]];
    RunAppend(d, run[..i], [run[i]]);
    assert Run(At(d, run, i), [run[i]]) == Apply(At(d, run, i), run[i]);
  }
}
