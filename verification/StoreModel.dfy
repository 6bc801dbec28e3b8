/** The data of the server (app/storage.go `Store`) as a value, and every critical section of
    its lock as a function from state to state. Store.dfy proves the methods of the class
    against these functions; the theorems are about runs of them. */
module StoreModel {
  import opened Strconv
  import opened Resp
  import opened StreamIds

  type Conn = nat
  type Chan = nat

  /** float64 scores; rounding is not modelled. */
  datatype Score = NaN | NegInf | Finite(r: real) | PosInf

  datatype Entry = Entry(id: string, fields: seq<string>)

  datatype Datum =
    | Text(text: string)
    | List(items: seq<string>)
    | ZSet(scores: map<string, Score>)
    | Stream(entries: seq<Entry>)

  /** `mail` holds, for every wake-up channel, the values sent and not yet received: buffered
      in the channel or held by a sending goroutine. */
  datatype State = State(
    cache: map<string, Datum>,
    expiry: map<string, int>,
    waiters: map<string, seq<Chan>>,
    mail: map<Chan, seq<string>>,
    transactions: map<Conn, seq<seq<Value>>>,
    watchedKeys: map<string, set<Conn>>,
    dirtyClients: set<Conn>)

  const EMPTY: State := State(map[], map[], map[], map[], map[], map[], {})

  function Lookup<K, V>(m: map<K, V>, k: K): Option<V> { if k in m then Some(m[k]) else None }
  function Waiters(d: State, key: string): seq<Chan> { if key in d.waiters then d.waiters[key] else [] }
  function Mail(d: State, ch: Chan): seq<string> { if ch in d.mail then d.mail[ch] else [] }
  function Watchers(d: State, key: string): set<Conn> { if key in d.watchedKeys then d.watchedKeys[key] else {} }

  // ---- Plain values and expiry ---------------------------------------------------

  function MarkDirty(d: State, key: string): State {
    d.(dirtyClients := d.dirtyClients + Watchers(d, key))
  }

  function SetValue(d: State, key: string, value: Datum): State {
    MarkDirty(d.(cache := d.cache[key := value], expiry := d.expiry - {key}), key)
  }

  /** Store a value without touching its expiry, as every command but SET does. */
  function Put(d: State, key: string, value: Datum): State {
    MarkDirty(d.(cache := d.cache[key := value]), key)
  }

  /** The second section of SetWithTTL. */
  function SetExpiry(d: State, key: string, deadline: int): State {
    d.(expiry := d.expiry[key := deadline])
  }

  function DropKey(d: State, key: string): State {
    d.(cache := d.cache - {key}, expiry := d.expiry - {key})
  }

  /** The section a cleanup goroutine runs when its sleep ends. */
  function Clean(d: State, key: string, now: int): State {
    if key in d.expiry && now >= d.expiry[key] then DropKey(d, key) else d
  }

  predicate Expired(d: State, key: string, now: int) {
    key in d.cache && key in d.expiry && now > d.expiry[key]
  }

  /** Get: an expired key is deleted and missed. */
  function Get(d: State, key: string, now: int): (State, Option<Datum>) {
    if Expired(d, key, now) then (DropKey(d, key), None) else (d, Lookup(d.cache, key))
  }

  /** The number INCR stores, if the key holds none or a number. */
  function Incremented(cache: map<string, Datum>, key: string): Option<int> {
    if key !in cache then Some(1)
    else if !cache[key].Text? then None
    else
      var n := Atoi(cache[key].text);
      if n.Parsed? then Some(Wrap64(n.value + 1)) else None
  }

  function Incr(d: State, key: string): (State, Option<int>) {
    var n := Incremented(d.cache, key);
    (if n.Some? then Put(d, key, Text(FormatInt(n.value))) else d, n)
  }

  // ---- Lists and their waiters -----------------------------------------------------

  function ListAt(d: State, key: string): seq<string> {
    if key in d.cache && d.cache[key].List? then d.cache[key].items else []
  }

  function Reverse(s: seq<string>): (r: seq<string>)
    ensures |r| == |s|
  {
    if s == [] then [] else Reverse(s[1..]) + [s[0]]
  }

  function LPush(d: State, key: string, values: seq<string>): State {
    Put(d, key, List(Reverse(values) + ListAt(d, key)))
  }

  function RPush(d: State, key: string, values: seq<string>): State {
    Put(d, key, List(ListAt(d, key) + values))
  }

  function SetWaiters(d: State, key: string, queue: seq<Chan>): State {
    d.(waiters := if queue == [] then d.waiters - {key} else d.waiters[key := queue])
  }

  function Send(d: State, ch: Chan, value: string): State {
    d.(mail := d.mail[ch := Mail(d, ch) + [value]])
  }

  /** A receive from a wake-up channel. */
  function ReceiveValue(d: State, ch: Chan): State {
    if Mail(d, ch) == [] then d else d.(mail := d.mail[ch := Mail(d, ch)[1..]])
  }

  /** The first section of LPUSH / RPUSH: each value goes to the first waiter while there is
      one; the others are collected in order. */
  function HandOff(d: State, key: string, values: seq<string>, remaining: seq<string>): (State, seq<string>)
    decreases |values|
  {
    if values == [] then (d, remaining)
    else
      var queue := Waiters(d, key);
      if queue == [] then HandOff(d, key, values[1..], remaining + [values[0]])
      else HandOff(Send(SetWaiters(d, key, queue[1..]), queue[0], values[0]), key, values[1..], remaining)
  }

  /** The section of BLPOP: pop the head, or join the waiters of the key. */
  function BLPop(d: State, key: string, ch: Chan): (State, Option<string>) {
    var items := ListAt(d, key);
    if items != [] then
      var popped :=
        if |items| == 1 then d.(cache := d.cache - {key}) else d.(cache := d.cache[key := List(items[1..])]);
      (MarkDirty(popped, key), Some(items[0]))
    else
      (SetWaiters(d, key, Waiters(d, key) + [ch]), None)
  }

  function RemoveFirst(queue: seq<Chan>, ch: Chan): seq<Chan> {
    if queue == [] then [] else if queue[0] == ch then queue[1..] else [queue[0]] + RemoveFirst(queue[1..], ch)
  }

  function CleanUpWaiter(d: State, key: string, ch: Chan): State {
    if key in d.waiters then SetWaiters(d, key, RemoveFirst(d.waiters[key], ch)) else d
  }

  // ---- Sorted sets -------------------------------------------------------------------

  function ZAdd(d: State, key: string, score: Score, member: string): (State, int) {
    if key in d.cache && !d.cache[key].ZSet? then (d, 0)
    else
      var scores := if key in d.cache then d.cache[key].scores else map[];
      (Put(d, key, ZSet(scores[member := score])), if member in scores then 0 else 1)
  }

  function Removed(scores: map<string, Score>, members: seq<string>): set<string> {
    set m | m in members && m in scores
  }

  function ZRem(d: State, key: string, members: seq<string>): (State, int) {
    if key !in d.cache || !d.cache[key].ZSet? then (d, 0)
    else
      var scores := d.cache[key].scores;
      var gone := Removed(scores, members);
      var left := scores - gone;
      var d' := d.(cache := if left == map[] then d.cache - {key} else d.cache[key := ZSet(left)]);
      (if gone == {} then d' else MarkDirty(d', key), |gone|)
  }

  // ---- Transactions and watches ------------------------------------------------------

  function StartTx(d: State, c: Conn): (State, bool) {
    if c in d.transactions then (d, false) else (d.(transactions := d.transactions[c := []]), true)
  }

  function QueueCommand(d: State, c: Conn, arr: seq<Value>): State {
    if c in d.transactions then d.(transactions := d.transactions[c := d.transactions[c] + [arr]]) else d
  }

  function ClearTx(d: State, c: Conn): State { d.(transactions := d.transactions - {c}) }

  function Watch(d: State, c: Conn, keys: seq<string>): State
    decreases |keys|
  {
    if keys == [] then d
    else Watch(d.(watchedKeys := d.watchedKeys[keys[0] := Watchers(d, keys[0]) + {c}]), c, keys[1..])
  }

  /** A watched key nobody watches any more is forgotten. */
  function Unwatch(d: State, c: Conn): State {
    d.(watchedKeys := map k | k in d.watchedKeys && d.watchedKeys[k] - {c} != {} :: d.watchedKeys[k] - {c},
       dirtyClients := d.dirtyClients - {c})
  }

  // ---- Streams -----------------------------------------------------------------------

  datatype XAddResult = Added(id: string) | BadID | WrongType | NotAboveZero | NotAboveTop

  function LastID(entries: seq<Entry>): ID {
    if entries == [] then ZERO
    else
      var last := ParseStreamID(entries[|entries| - 1].id);
      if last.Some? then last.value else ZERO
  }

  /** The ID XADD stores for a request, given the top of the stream. */
  function NextID(request: ID, auto: bool, top: ID): Option<ID> {
    if auto then
      if request.ms < top.ms then None
      else Some(ID(request.ms, if request.ms == top.ms then Wrap64(top.seqNo + 1) else 0))
    else if request == ZERO || !top.Less(request) then None
    else Some(request)
  }

  function Requested(id: string, nowMs: int): Option<(ID, bool)> {
    if id == "*" then Some((ID(nowMs, 0), true)) else ParseMaybeStarID(id)
  }

  function StreamAt(d: State, key: string): seq<Entry> {
    if key in d.cache && d.cache[key].Stream? then d.cache[key].entries else []
  }

  /** Every waiter of the key gets the new ID, each from a goroutine of its own. */
  function Notify(d: State, queue: seq<Chan>, id: string): State
    decreases |queue|
  {
    if queue == [] then d else Notify(Send(d, queue[0], id), queue[1..], id)
  }

  /** The ID XADD would store, or why it refuses. */
  function ChooseID(d: State, key: string, id: string, nowMs: int): XAddResult {
    var request := Requested(id, nowMs);
    if request.None? then BadID
    else if key in d.cache && !d.cache[key].Stream? then WrongType
    else
      var next := NextID(request.value.0, request.value.1, LastID(StreamAt(d, key)));
      if next.Some? then Added(FormatID(next.value))
      else if !request.value.1 && request.value.0 == ZERO then NotAboveZero
      else NotAboveTop
  }

  function NotifyKey(d: State, key: string, id: string): State {
    var queue := Waiters(d, key);
    if queue == [] then d else SetWaiters(Notify(d, queue, id), key, [])
  }

  function XAdd(d: State, key: string, id: string, fields: seq<string>, nowMs: int): (State, XAddResult) {
    match ChooseID(d, key, id, nowMs)
    case Added(text) =>
      (NotifyKey(Put(d, key, Stream(StreamAt(d, key) + [Entry(text, fields)])), key, text), Added(text))
    case refused => (d, refused)
  }

  datatype ReadResult<T> = Entries(found: T) | WrongTypeError | BadIDError

  predicate IDWithin(e: Entry, low: ID, high: ID) {
    var id := ParseStreamID(e.id);
    id.Some? && !id.value.Less(low) && !high.Less(id.value)
  }

  predicate IDAbove(e: Entry, low: ID) {
    var id := ParseStreamID(e.id);
    id.Some? && low.Less(id.value)
  }

  function EntriesWithin(entries: seq<Entry>, low: ID, high: ID): seq<Entry> {
    if entries == [] then []
    else (if IDWithin(entries[0], low, high) then [entries[0]] else []) + EntriesWithin(entries[1..], low, high)
  }

  function EntriesAbove(entries: seq<Entry>, low: ID): seq<Entry> {
    if entries == [] then []
    else (if IDAbove(entries[0], low) then [entries[0]] else []) + EntriesAbove(entries[1..], low)
  }

  function XRange(d: State, key: string, startID: string, endID: string): ReadResult<seq<Entry>> {
    if key !in d.cache then Entries([])
    else if !d.cache[key].Stream? then WrongTypeError
    else
      var low, high := ParseIDOptionalSeq(startID, true), ParseIDOptionalSeq(endID, false);
      if low.None? || high.None? then BadIDError
      else Entries(EntriesWithin(d.cache[key].entries, low.value, high.value))
  }

  /** XREAD of one key. */
  function ReadKey(d: State, key: string, id: string): ReadResult<seq<Entry>> {
    var low := ParseIDOptionalSeq(id, true);
    if low.None? then BadIDError
    else if key !in d.cache then Entries([])
    else if !d.cache[key].Stream? then WrongTypeError
    else Entries(EntriesAbove(d.cache[key].entries, low.value))
  }

  /** XREAD of several keys: the first error, or the entries of every key; a key given twice
      keeps its last ID. */
  function XRead(d: State, keys: seq<string>, ids: seq<string>): ReadResult<map<string, seq<Entry>>>
    requires |keys| == |ids|
  {
    if keys == [] then Entries(map[])
    else
      var n := |keys| - 1;
      match XRead(d, keys[..n], ids[..n])
      case WrongTypeError => WrongTypeError
      case BadIDError => BadIDError
      case Entries(found) =>
        match ReadKey(d, keys[n], ids[n])
        case WrongTypeError => WrongTypeError
        case BadIDError => BadIDError
        case Entries(entries) => Entries(found[keys[n] := entries])
  }

  /** One registration section of a blocking XREAD: join the waiters, note the top ID. */
  function Register(d: State, key: string, ch: Chan): (State, string) {
    var entries := StreamAt(d, key);
    (SetWaiters(d, key, Waiters(d, key) + [ch]), if entries == [] then "0-0" else entries[|entries| - 1].id)
  }
}
