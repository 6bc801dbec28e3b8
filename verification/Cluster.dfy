/** The replication protocol as a state machine: the master writes commands and GETACKs to its
    replicas' connections, each a FIFO of bytes; every replica parses, executes, counts and
    acknowledges; acknowledgements come back in order. */
module Cluster {
  import opened Strconv
  import opened Resp
  import opened RespStream
  import opened StreamIds
  import opened StoreModel
  import opened Commands
  import opened Replication

  /** One replica and its connection. `history`, `done`, `first`, `envs` and `base` record, for
      the proof, the commands written to it since it attached, how many it has processed, its
      store when it attached, its clock readings, and the master's offset when it attached. */
  datatype Link = Link(
    open: bool,          // the master still counts it as a replica
    read: nat,           // bytes taken off the connection
    offset: int,         // replicaOffset
    store: State,
    acks: seq<int>,      // acknowledgements on their way back
    got: seq<int>,       // acknowledgements the master has received
    history: seq<Command>,
    done: nat,
    first: State,
    envs: seq<Env>,
    base: int)

  datatype World = World(m: Repl, links: map<Conn, Link>)

  datatype Event =
    | Attach(c: Conn, store: State)   // PSYNC; a connection attaches once
    | Write(arr: Command)             // a command is propagated
    | AskAck(c: Conn)                 // WAIT writes a GETACK to one connection
    | Replica(c: Conn, env: Env)      // a replica takes one value off its connection
    | ReceiveAck(c: Conn)             // the master handles the next acknowledgement
    | Detach(c: Conn)                 // the connection's handler ends

  predicate IsGetAck(arr: Command) {
    ToUpper(Arg(arr, 0)) == "REPLCONF" && |arr| >= 3 && ToUpper(Arg(arr, 1)) == "GETACK"
  }

  /** What handlers propagate: a named command other than REPLCONF. */
  predicate IsWrite(arr: Command) {
    arr != [] && arr[0].Str? && ToUpper(arr[0].s) != "REPLCONF" && Fits(Arr(arr))
  }

  type Executor = (State, Command, Env) -> State

  /** The replica executes what it receives without a client. */
  function Execute(d: State, arr: Command, env: Env): State { Handle(d, None, arr, env).d }

  function ReplicaCommand(exec: Executor, l: Link, items: Command, env: Env): Link {
    var cmdBytes := |EncodeArray(items)|;
    if IsGetAck(items) then l.(acks := l.acks + [l.offset], offset := l.offset + cmdBytes)
    else l.(store := exec(l.store, items, env), envs := l.envs + [env], offset := l.offset + cmdBytes)
  }

  /** One round of the replica's loop on the bytes written so far. */
  function ReplicaStep(exec: Executor, l: Link, out: string, env: Env): Link {
    if l.read > |out| then l
    else match Parse(out[l.read..])
      case Failed(_) => l
      case Parsed(v, rest) =>
        var l1 := l.(read := |out| - |rest|);
        if v.Arr? && v.items != [] then ReplicaCommand(exec, l1.(done := l.done + 1), v.items, env) else l1
  }

  function Noted(l: Link, arr: Command): Link { l.(history := l.history + [arr]) }

  predicate Permitted(w: World, e: Event) {
    match e
    case Attach(c, _) => c !in w.links
    case Write(arr) => IsWrite(arr)
    case AskAck(c) => c in w.links
    case Replica(c, _) => c in w.links
    case ReceiveAck(c) => c in w.links && w.links[c].open && w.links[c].acks != []
    case Detach(c) => c in w.links && w.links[c].open
  }

  function Step(w: World, e: Event): World
    requires Permitted(w, e)
  {
    StepWith(Execute, w, e)
  }

  function StepWith(exec: Executor, w: World, e: Event): World
    requires Permitted(w, e)
  {
    var m, links := w.m, w.links;
    match e
    case Attach(c, store) =>
      World(AddReplica(m, c), links[c := NewLink(store, m.masterOffset)])
    case Write(arr) =>
      World(Propagate(m, arr), map c | c in links :: AfterWrite(m, c, links[c], arr))
    case AskAck(c) =>
      World(WriteTo(m, c, EncodeArray(GETACK)), links[c := Noted(links[c], GETACK)])
    case Replica(c, env) =>
      World(m, links[c := ReplicaStep(exec, links[c], Out(m, c), env)])
    case ReceiveAck(c) =>
      World(RecordAck(m, c, links[c].acks[0]), links[c := Received(links[c])])
    case Detach(c) =>
      World(RemoveReplica(m, c), links[c := links[c].(open := false)])
  }

  predicate AllPermitted(w: World, events: seq<Event>)
    decreases |events|
  {
    events == [] || (Permitted(w, events[0]) && AllPermitted(Step(w, events[0]), events[1..]))
  }

  function Run(w: World, events: seq<Event>): World
    requires AllPermitted(w, events)
    decreases |events|
  {
    if events == [] then w else Run(Step(w, events[0]), events[1..])
  }

  // ---- Histories --------------------------------------------------------------------------

  /** What the master writes to a replica. */
  predicate Sent(arr: Command) { arr == GETACK || IsWrite(arr) }

  predicate HistoryOk(history: seq<Command>) {
    forall i {:trigger Sent(history[i])} :: 0 <= i < |history| ==> Sent(history[i])
  }

  /** The bytes of the first n commands. */
  function Bytes(history: seq<Command>, n: nat): (b: nat)
    requires n <= |history|
  {
    if n == 0 then 0 else Bytes(history, n - 1) + |EncodeArray(history[n - 1])|
  }

  /** The first n commands without the GETACKs. */
  function Writes(history: seq<Command>, n: nat): (w: seq<Command>)
    requires n <= |history|
    ensures |w| <= n
  {
    if n == 0 then []
    else Writes(history, n - 1) + (if IsGetAck(history[n - 1]) then [] else [history[n - 1]])
  }

  function GetAcks(history: seq<Command>, n: nat): nat
    requires n <= |history|
  {
    n - |Writes(history, n)|
  }

  function WriteBytes(history: seq<Command>, n: nat): nat
    requires n <= |history|
  {
    |EncodeAll(Writes(history, n))|
  }

  /** What a replica answers to the GETACKs among the first n: its byte count before each. */
  function AcksOf(history: seq<Command>, n: nat): (acks: seq<int>)
    requires n <= |history|
    ensures |acks| == GetAcks(history, n)
  {
    if n == 0 then []
    else AcksOf(history, n - 1) + (if IsGetAck(history[n - 1]) then [Bytes(history, n - 1)] else [])
  }

  lemma {:induction false} PrefixStable(history: seq<Command>, arr: Command, n: nat)
    requires n <= |history|
    ensures Bytes(history + [arr], n) == Bytes(history, n)
    ensures Writes(history + [arr], n) == Writes(history, n)
    ensures AcksOf(history + [arr], n) == AcksOf(history, n)
  {
    if n > 0 {
      assert (history + [arr])[n - 1] == history[n - 1];
      PrefixStable(history, arr, n - 1);
    }
  }

  lemma EncodeSnoc(history: seq<Command>, arr: Command)
    ensures EncodeAll(history + [arr]) == EncodeAll(history) + EncodeArray(arr)
  {
    EncodeAllAppend(history, [arr]);
    EncodeAllOne(arr);
  }

  lemma {:induction false} BytesEncoded(history: seq<Command>, n: nat)
    requires n <= |history|
    ensures |EncodeAll(history[..n])| == Bytes(history, n)
  {
    if n > 0 {
      var before, arr := history[..n - 1], history[n - 1];
      BytesEncoded(history, n - 1);
      EncodeSnoc(before, arr);
      TakeSnoc(history, n);
    }
  }

  lemma TakeSnoc(history: seq<Command>, n: nat)
    requires 0 < n <= |history|
    ensures history[..n] == history[..n - 1] + [history[n - 1]]
  {
  }

  lemma GetAckIs()
    ensures IsGetAck(GETACK) && Fits(Arr(GETACK)) && NormalizeAll(GETACK) == GETACK
  {
    assert ToUpper("REPLCONF") == "REPLCONF" && ToUpper("GETACK") == "GETACK";
    assert Textual(Arr(GETACK));
    NormalizeAllTextual(GETACK);
  }

  lemma WriteBytesStep(history: seq<Command>, n: nat)
    requires 0 < n <= |history|
    ensures WriteBytes(history, n) == WriteBytes(history, n - 1)
                                      + if IsGetAck(history[n - 1]) then 0 else |EncodeArray(history[n - 1])|
  {
    var before, arr := Writes(history, n - 1), history[n - 1];
    if IsGetAck(arr) { assert before + [] == before; } else { EncodeSnoc(before, arr); }
  }

  /** Every byte written is a byte of a write or of a GETACK, which has 37. */
  lemma {:induction false} BytesSplit(history: seq<Command>, n: nat)
    requires HistoryOk(history) && n <= |history|
    ensures Bytes(history, n) == WriteBytes(history, n) + 37 * GetAcks(history, n)
  {
    if n > 0 {
      BytesSplit(history, n - 1);
      WriteBytesStep(history, n);
      assert Sent(history[n - 1]);
      if IsGetAck(history[n - 1]) { GetAckLength(); } else { GetAckIs(); }
    }
  }

  // ---- The invariant of a link --------------------------------------------------------------

  /** The bytes written are the history's; the replica has taken off, and counted, exactly the
      bytes of what it has processed. */
  predicate WireInv(out: string, history: seq<Command>, done: nat, read: nat, offset: int) {
    && out == EncodeAll(history) && done <= |history|
    && read == offset == Bytes(history, done)
  }

  predicate AckInv(history: seq<Command>, done: nat, got: seq<int>, acks: seq<int>) {
    done <= |history| && got + acks == AcksOf(history, done)
  }

  /** The store after executing commands as they are read back. */
  function Executed(exec: Executor, first: State, cmds: seq<Command>, envs: seq<Env>): State
    requires |envs| == |cmds|
  {
    if cmds == [] then first
    else
      var n := |cmds| - 1;
      exec(Executed(exec, first, cmds[..n], envs[..n]), NormalizeAll(cmds[n]), envs[n])
  }

  ghost predicate StoreInv(exec: Executor, history: seq<Command>, done: nat, first: State, envs: seq<Env>,
                           store: State) {
    && done <= |history| && |envs| == |Writes(history, done)|
    && store == Executed(exec, first, Writes(history, done), envs)
  }

  ghost predicate LinkInv(exec: Executor, out: string, l: Link) {
    && WireInv(out, l.history, l.done, l.read, l.offset)
    && AckInv(l.history, l.done, l.got, l.acks)
    && StoreInv(exec, l.history, l.done, l.first, l.envs, l.store)
  }

  lemma NoteKeeps(exec: Executor, out: string, l: Link, arr: Command)
    requires LinkInv(exec, out, l)
    ensures LinkInv(exec, out + EncodeArray(arr), Noted(l, arr))
  {
    EncodeSnoc(l.history, arr);
    PrefixStable(l.history, arr, l.done);
  }

  /** What is in flight: the encoding of the commands not yet processed. */
  lemma InFlight(history: seq<Command>, n: nat)
    requires n <= |history|
    ensures Bytes(history, n) <= |EncodeAll(history)|
    ensures EncodeAll(history)[Bytes(history, n)..] == EncodeAll(history[n..])
  {
    var a, b := history[..n], history[n..];
    EncodeAllAppend(a, b);
    assert a + b == history;
    BytesEncoded(history, n);
    assert (EncodeAll(a) + EncodeAll(b))[|EncodeAll(a)|..] == EncodeAll(b);
  }

  lemma NormalizedKind(arr: Command)
    requires Sent(arr)
    ensures NormalizeAll(arr) != [] && IsGetAck(NormalizeAll(arr)) == IsGetAck(arr)
    ensures |EncodeArray(NormalizeAll(arr))| == |EncodeArray(arr)| && Fits(Arr(arr))
  {
    EncodeNormalizeAll(arr);
    GetAckIs();
    if arr != GETACK { assert NormalizeAll(arr)[0] == arr[0]; }
  }

  /** The next value on the connection is the next command of the history. */
  lemma NextOnWire(history: seq<Command>, done: nat) returns (rest: string)
    requires done < |history| && Sent(history[done])
    ensures var (arr, out, read) := (history[done], EncodeAll(history), Bytes(history, done));
            && read <= |out| && Parse(out[read..]) == ParseResult.Parsed(Arr(NormalizeAll(arr)), rest)
            && |out| - |rest| == read + |EncodeArray(arr)| && NormalizeAll(arr) != []
  {
    var arr := history[done];
    rest := EncodeAll(history[done + 1..]);
    InFlight(history, done);
    assert history[done..][0] == arr && history[done..][1..] == history[done + 1..];
    NormalizedKind(arr);
    ArrayRoundTrip(arr, rest);
  }

  /** The link after its replica has processed the next command. */
  function Processed(exec: Executor, l: Link, env: Env): Link
    requires l.done < |l.history|
  {
    var arr := l.history[l.done];
    ReplicaCommand(exec, l.(read := l.read + |EncodeArray(arr)|, done := l.done + 1), NormalizeAll(arr), env)
  }

  lemma StepParses(exec: Executor, l: Link, out: string, env: Env, items: Command, rest: string)
    requires l.read <= |out| && Parse(out[l.read..]) == ParseResult.Parsed(Arr(items), rest) && items != []
    ensures ReplicaStep(exec, l, out, env)
         == ReplicaCommand(exec, l.(read := |out| - |rest|, done := l.done + 1), items, env)
  {
  }

  lemma NothingOnWire(exec: Executor, l: Link, out: string, env: Env)
    requires l.read <= |out| && out[l.read..] == []
    ensures ReplicaStep(exec, l, out, env) == l
  {
  }

  /** A replica's step processes the next command, if there is one. */
  lemma StepIsProcessed(exec: Executor, out: string, l: Link, env: Env)
    requires WireInv(out, l.history, l.done, l.read, l.offset) && HistoryOk(l.history)
    ensures ReplicaStep(exec, l, out, env) == if l.done < |l.history| then Processed(exec, l, env) else l
  {
    if l.done < |l.history| {
      assert Sent(l.history[l.done]);
      var rest := NextOnWire(l.history, l.done);
      StepParses(exec, l, out, env, NormalizeAll(l.history[l.done]), rest);
    } else {
      InFlight(l.history, l.done);
      assert EncodeAll([]) == [] && l.history[l.done..] == [];
      NothingOnWire(exec, l, out, env);
    }
  }

  predicate SameHistory(l: Link, l': Link) {
    l'.history == l.history && l'.base == l.base && l'.open == l.open && l'.got == l.got && l'.first == l.first
  }

  /** The link after a command of n bytes, a GETACK or not. */
  ghost predicate Moved(exec: Executor, l: Link, l': Link, env: Env, n: nat, ask: bool)
    requires l.done < |l.history|
  {
    && SameHistory(l, l') && l'.read == l.read + n && l'.offset == l.offset + n && l'.done == l.done + 1
    && l'.acks == (if ask then l.acks + [l.offset] else l.acks)
    && l'.envs == (if ask then l.envs else l.envs + [env])
    && l'.store == (if ask then l.store else exec(l.store, NormalizeAll(l.history[l.done]), env))
  }

  lemma ProcessedIs(exec: Executor, l: Link, env: Env)
    requires l.done < |l.history| && Sent(l.history[l.done])
    ensures var arr := l.history[l.done];
            Moved(exec, l, Processed(exec, l, env), env, |EncodeArray(arr)|, IsGetAck(arr))
  {
    NormalizedKind(l.history[l.done]);
  }

  lemma StoreStep(exec: Executor, history: seq<Command>, done: nat, first: State, envs: seq<Env>, store: State,
                  env: Env, ask: bool)
    requires StoreInv(exec, history, done, first, envs, store) && done < |history| && ask == IsGetAck(history[done])
    ensures StoreInv(exec, history, done + 1, first, if ask then envs else envs + [env],
                     if ask then store else exec(store, NormalizeAll(history[done]), env))
  {
    var before, arr := Writes(history, done), history[done];
    if ask {
      assert before + [] == before;
    } else {
      assert (before + [arr])[..|envs|] == before && (envs + [env])[..|envs|] == envs;
    }
  }

  lemma AckStep(history: seq<Command>, done: nat, got: seq<int>, acks: seq<int>, ask: bool)
    requires AckInv(history, done, got, acks) && done < |history| && ask == IsGetAck(history[done])
    ensures AckInv(history, done + 1, got, if ask then acks + [Bytes(history, done)] else acks)
  {
    var offset := Bytes(history, done);
    assert got + (acks + [offset]) == got + acks + [offset];
  }

  lemma MovedKeeps(exec: Executor, out: string, l: Link, l': Link, env: Env, n: nat, ask: bool)
    requires LinkInv(exec, out, l) && l.done < |l.history| && Moved(exec, l, l', env, n, ask)
    requires n == |EncodeArray(l.history[l.done])| && ask == IsGetAck(l.history[l.done])
    ensures LinkInv(exec, out, l')
  {
    AckStep(l.history, l.done, l.got, l.acks, ask);
    StoreStep(exec, l.history, l.done, l.first, l.envs, l.store, env, ask);
  }

  lemma ReplicaKeeps(exec: Executor, out: string, l: Link, env: Env)
    requires LinkInv(exec, out, l) && HistoryOk(l.history)
    ensures LinkInv(exec, out, ReplicaStep(exec, l, out, env)) && SameHistory(l, ReplicaStep(exec, l, out, env))
    ensures ReplicaStep(exec, l, out, env).done == if l.done < |l.history| then l.done + 1 else l.done
  {
    StepIsProcessed(exec, out, l, env);
    if l.done < |l.history| {
      var arr := l.history[l.done];
      assert Sent(arr);
      ProcessedIs(exec, l, env);
      MovedKeeps(exec, out, l, Processed(exec, l, env), env, |EncodeArray(arr)|, IsGetAck(arr));
    }
  }

  // ---- The invariant of the whole -------------------------------------------------------------

  predicate Distinct(conns: seq<Conn>) { forall i, j :: 0 <= i < j < |conns| ==> conns[i] != conns[j] }

  ghost predicate LinkAt(exec: Executor, m: Repl, c: Conn, l: Link) {
    && HistoryOk(l.history) && LinkInv(exec, Out(m, c), l)
    && (l.open <==> c in m.replicas)
    && (c in m.replicaOffsets <==> l.open && l.got != [])
    && (c in m.replicaOffsets ==> m.replicaOffsets[c] == l.got[|l.got| - 1])
  }

  /** An open link has been written all bytes the master has counted since it attached. */
  predicate Counted(m: Repl, l: Link) { l.open ==> WriteBytes(l.history, |l.history|) == m.masterOffset - l.base }

  type Check = (Repl, Conn, Link) -> bool

  /** What holds of a link, as a function to be handed to the lemmas about all links. */
  ghost function Good(exec: Executor): Check {
    (m: Repl, c: Conn, l: Link) => LinkAt(exec, m, c, l) && Counted(m, l)
  }

  ghost predicate LinksOk(good: Check, m: Repl, links: map<Conn, Link>) {
    forall c :: c in links ==> good(m, c, links[c])
  }

  predicate Known(m: Repl, links: map<Conn, Link>) {
    && Distinct(m.replicas) && (forall c :: c in m.replicas ==> c in links)
    && m.out.Keys <= links.Keys && m.replicaOffsets.Keys <= links.Keys
  }

  ghost predicate Inv(w: World) { LinksOk(Good(Execute), w.m, w.links) && Known(w.m, w.links) }

  lemma HistoryOkSnoc(history: seq<Command>, arr: Command)
    requires HistoryOk(history) && Sent(arr)
    ensures HistoryOk(history + [arr])
  {
    forall i | 0 <= i < |history| + 1 ensures Sent((history + [arr])[i]) {
      if i < |history| { assert Sent(history[i]); }
    }
  }

  /** The master's state as one link sees it. */
  predicate SameFor(m: Repl, m': Repl, c: Conn) {
    && Out(m', c) == Out(m, c) && (c in m'.replicas <==> c in m.replicas)
    && Lookup(m'.replicaOffsets, c) == Lookup(m.replicaOffsets, c)
  }

  lemma LinkUntouched(exec: Executor, m: Repl, m': Repl, c: Conn, l: Link)
    requires LinkAt(exec, m, c, l) && SameFor(m, m', c)
    ensures LinkAt(exec, m', c, l)
  {
  }

  lemma {:induction false} WriteAllOut(m: Repl, conns: seq<Conn>, bytes: string, c: Conn)
    requires Distinct(conns)
    ensures var m' := WriteAll(m, conns, bytes);
            && m' == m.(out := m'.out) && Out(m', c) == Out(m, c) + (if c in conns then bytes else "")
            && (c in m'.out <==> c in m.out || c in conns)
    decreases |conns|
  {
    if conns == [] {
      assert Out(m, c) + "" == Out(m, c);
    } else {
      var rest := conns[1..];
      assert forall i, j :: 0 <= i < j < |rest| ==> rest[i] == conns[i + 1] && rest[j] == conns[j + 1];
      WriteAllOut(WriteTo(m, conns[0], bytes), rest, bytes, c);
      assert c in conns <==> c == conns[0] || c in rest;
      if c == conns[0] {
        assert c !in rest;
        assert Out(m, c) + bytes + "" == Out(m, c) + bytes;
      }
    }
  }

  lemma PropagateFor(m: Repl, arr: Command, c: Conn)
    requires Distinct(m.replicas)
    ensures var m' := Propagate(m, arr);
            && m' == m.(out := m'.out, masterOffset := m.masterOffset + |EncodeArray(arr)|)
            && Out(m', c) == Out(m, c) + (if c in m.replicas then EncodeArray(arr) else "")
            && (c in m'.out <==> c in m.out || c in m.replicas)
  {
    WriteAllOut(m.(masterOffset := m.masterOffset + |EncodeArray(arr)|), m.replicas, EncodeArray(arr), c);
  }

  lemma WriteBytesSnoc(history: seq<Command>, arr: Command)
    ensures WriteBytes(history + [arr], |history| + 1)
         == WriteBytes(history, |history|) + if IsGetAck(arr) then 0 else |EncodeArray(arr)|
  {
    WriteBytesStep(history + [arr], |history| + 1);
    PrefixStable(history, arr, |history|);
  }

  lemma NotedLink(exec: Executor, m: Repl, m': Repl, c: Conn, l: Link, arr: Command)
    requires LinkAt(exec, m, c, l) && HistoryOk(l.history + [arr])
    requires m'.replicas == m.replicas && m'.replicaOffsets == m.replicaOffsets
    requires Out(m', c) == Out(m, c) + EncodeArray(arr)
    ensures LinkAt(exec, m', c, Noted(l, arr))
  {
    assert LinkInv(exec, Out(m', c), Noted(l, arr)) by { NoteKeeps(exec, Out(m, c), l, arr); }
  }

  /** A write reaches the links that are open and counts for the master. */
  lemma WrittenCounts(m: Repl, m': Repl, l: Link, arr: Command)
    requires Counted(m, l) && !IsGetAck(arr) && m'.masterOffset == m.masterOffset + |EncodeArray(arr)|
    ensures Counted(m', Noted(l, arr))
  {
    WriteBytesSnoc(l.history, arr);
  }

  /** A GETACK reaches one link and does not count for the master. */
  lemma AskedCounts(m: Repl, m': Repl, l: Link)
    requires Counted(m, l) && m'.masterOffset == m.masterOffset
    ensures Counted(m', Noted(l, GETACK))
  {
    GetAckIs();
    WriteBytesSnoc(l.history, GETACK);
  }

  // ---- Every event keeps the invariant ----------------------------------------------------------

  /** A step of the master that leaves the other links' views of it alone. */
  ghost predicate KeepsOthers(good: Check, m: Repl, m': Repl, c: Conn) {
    forall other, l :: other != c && good(m, other, l) ==> good(m', other, l)
  }

  lemma OthersKept(exec: Executor, m: Repl, m': Repl, c: Conn)
    requires SameForOthers(m, m', c)
    ensures KeepsOthers(Good(exec), m, m', c)
  {
    forall other, l | other != c && Good(exec)(m, other, l) ensures Good(exec)(m', other, l) {
      LinkUntouched(exec, m, m', other, l);
    }
  }

  lemma OneLink(good: Check, m: Repl, m': Repl, links: map<Conn, Link>, c: Conn, l': Link)
    requires LinksOk(good, m, links) && good(m', c, l') && KeepsOthers(good, m, m', c)
    ensures LinksOk(good, m', links[c := l'])
  {
  }

  lemma ChangeLink(exec: Executor, m: Repl, m': Repl, links: map<Conn, Link>, c: Conn, l': Link)
    requires LinksOk(Good(exec), m, links) && Good(exec)(m', c, l')
    requires SameForOthers(m, m', c)
    ensures LinksOk(Good(exec), m', links[c := l'])
  {
    OthersKept(exec, m, m', c);
    OneLink(Good(exec), m, m', links, c, l');
  }

  function NewLink(store: State, base: int): Link { Link(true, 0, 0, store, [], [], [], 0, store, [], base) }

  lemma NewLinkOk(exec: Executor, m: Repl, c: Conn, store: State)
    requires c !in m.out && c !in m.replicaOffsets
    ensures Good(exec)(AddReplica(m, c), c, NewLink(store, m.masterOffset))
  {
    var m', l := AddReplica(m, c), NewLink(store, m.masterOffset);
    assert LinkInv(exec, Out(m', c), l) && LinkAt(exec, m', c, l);
    assert Counted(m', l);
  }

  function AfterWrite(m: Repl, c: Conn, l: Link, arr: Command): Link {
    if c in m.replicas then Noted(l, arr) else l
  }

  lemma WriteKeepsLink(exec: Executor, m: Repl, c: Conn, l: Link, arr: Command)
    requires LinkAt(exec, m, c, l) && Counted(m, l) && Distinct(m.replicas) && Sent(arr) && !IsGetAck(arr)
    ensures LinkAt(exec, Propagate(m, arr), c, AfterWrite(m, c, l, arr))
    ensures Counted(Propagate(m, arr), AfterWrite(m, c, l, arr))
  {
    var m' := Propagate(m, arr);
    PropagateFor(m, arr, c);
    if c in m.replicas {
      assert HistoryOk(l.history + [arr]) by { HistoryOkSnoc(l.history, arr); }
      NotedLink(exec, m, m', c, l, arr);
      WrittenCounts(m, m', l, arr);
    } else {
      assert Out(m, c) + "" == Out(m, c);
      LinkUntouched(exec, m, m', c, l);
    }
  }

  lemma WriteKeepsAll(exec: Executor, m: Repl, arr: Command)
    requires Distinct(m.replicas) && Sent(arr) && !IsGetAck(arr)
    ensures forall c, l :: Good(exec)(m, c, l) ==> Good(exec)(Propagate(m, arr), c, AfterWrite(m, c, l, arr))
  {
    forall c, l | Good(exec)(m, c, l) ensures Good(exec)(Propagate(m, arr), c, AfterWrite(m, c, l, arr)) {
      WriteKeepsLink(exec, m, c, l, arr);
    }
  }

  lemma EachLink(good: Check, m: Repl, m': Repl, links: map<Conn, Link>, links': map<Conn, Link>, arr: Command)
    requires LinksOk(good, m, links) && links'.Keys == links.Keys
    requires forall c :: c in links ==> links'[c] == AfterWrite(m, c, links[c], arr)
    requires forall c, l :: good(m, c, l) ==> good(m', c, AfterWrite(m, c, l, arr))
    ensures LinksOk(good, m', links')
  {
  }

  lemma WriteKeeps(exec: Executor, m: Repl, m': Repl, links: map<Conn, Link>, links': map<Conn, Link>, arr: Command)
    requires LinksOk(Good(exec), m, links) && Distinct(m.replicas) && Sent(arr) && !IsGetAck(arr)
    requires links'.Keys == links.Keys && m' == Propagate(m, arr)
    requires forall c :: c in links ==> links'[c] == AfterWrite(m, c, links[c], arr)
    ensures LinksOk(Good(exec), m', links')
  {
    WriteKeepsAll(exec, m, arr);
    EachLink(Good(exec), m, m', links, links', arr);
  }

  lemma AskedLink(exec: Executor, m: Repl, c: Conn, l: Link)
    requires Good(exec)(m, c, l)
    ensures Good(exec)(WriteTo(m, c, EncodeArray(GETACK)), c, Noted(l, GETACK))
  {
    var m' := WriteTo(m, c, EncodeArray(GETACK));
    assert HistoryOk(l.history + [GETACK]) by {
      assert Sent(GETACK);
      HistoryOkSnoc(l.history, GETACK);
    }
    NotedLink(exec, m, m', c, l, GETACK);
    AskedCounts(m, m', l);
  }

  lemma SteppedLink(exec: Executor, m: Repl, c: Conn, l: Link, env: Env)
    requires Good(exec)(m, c, l)
    ensures Good(exec)(m, c, ReplicaStep(exec, l, Out(m, c), env))
  {
    ReplicaKeeps(exec, Out(m, c), l, env);
    var l' := ReplicaStep(exec, l, Out(m, c), env);
    assert LinkAt(exec, m, c, l') && Counted(m, l');
  }

  function Received(l: Link): Link
    requires l.acks != []
  {
    l.(got := l.got + [l.acks[0]], acks := l.acks[1..])
  }

  lemma Rejoined(got: seq<int>, acks: seq<int>)
    requires acks != []
    ensures got + [acks[0]] + acks[1..] == got + acks
  {
  }

  lemma ReceivedLink(exec: Executor, m: Repl, c: Conn, l: Link)
    requires Good(exec)(m, c, l) && l.open && l.acks != []
    ensures Good(exec)(RecordAck(m, c, l.acks[0]), c, Received(l))
  {
    Rejoined(l.got, l.acks);
    var m', l' := RecordAck(m, c, l.acks[0]), Received(l);
    assert LinkAt(exec, m', c, l') && Counted(m', l');
  }

  lemma {:induction false} WithoutFirstIs(conns: seq<Conn>, c: Conn)
    requires Distinct(conns)
    ensures Distinct(WithoutFirst(conns, c))
    ensures forall other :: other in WithoutFirst(conns, c) <==> other in conns && other != c
  {
    if conns != [] {
      var first, rest := conns[0], conns[1..];
      assert conns == [first] + rest;
      assert Distinct(rest) by {
        forall i, j | 0 <= i < j < |rest| ensures rest[i] != rest[j] { assert conns[i + 1] != conns[j + 1]; }
      }
      WithoutFirstIs(rest, c);
      if first != c { DistinctCons(first, WithoutFirst(rest, c)); }
    }
  }

  lemma DistinctCons(first: Conn, rest: seq<Conn>)
    requires Distinct(rest) && first !in rest
    ensures Distinct([first] + rest)
  {
  }

  lemma ClosedLink(exec: Executor, m: Repl, c: Conn, l: Link)
    requires Good(exec)(m, c, l) && Distinct(m.replicas)
    ensures Good(exec)(RemoveReplica(m, c), c, l.(open := false))
  {
    WithoutFirstIs(m.replicas, c);
    var m', l' := RemoveReplica(m, c), l.(open := false);
    assert LinkInv(exec, Out(m', c), l');
  }

  lemma PropagateKnown(m: Repl, arr: Command, links: map<Conn, Link>, links': map<Conn, Link>)
    requires Known(m, links) && links'.Keys == links.Keys
    ensures Known(Propagate(m, arr), links')
  {
    forall c | c in Propagate(m, arr).out ensures c in links { PropagateFor(m, arr, c); }
    PropagateFor(m, arr, 0);
  }

  lemma KnownKeeps(w: World, e: Event)
    requires Known(w.m, w.links) && Permitted(w, e)
    ensures Known(Step(w, e).m, Step(w, e).links)
  {
    match e
    case Write(arr) => PropagateKnown(w.m, arr, w.links, Step(w, e).links);
    case Detach(c) => WithoutFirstIs(w.m.replicas, c);
    case _ =>
  }

  ghost predicate SameForOthers(m: Repl, m': Repl, c: Conn) {
    m'.masterOffset == m.masterOffset && forall other :: other != c ==> SameFor(m, m', other)
  }

  lemma MasterSteps(m: Repl, c: Conn, bytes: string, offset: int)
    requires Distinct(m.replicas)
    ensures SameForOthers(m, AddReplica(m, c), c)
    ensures SameForOthers(m, WriteTo(m, c, bytes), c)
    ensures SameForOthers(m, RecordAck(m, c, offset), c)
    ensures SameForOthers(m, RemoveReplica(m, c), c)
    ensures SameForOthers(m, m, c)
  {
    WithoutFirstIs(m.replicas, c);
  }

  lemma AttachKeeps(exec: Executor, m: Repl, links: map<Conn, Link>, c: Conn, store: State)
    requires LinksOk(Good(exec), m, links) && Known(m, links) && c !in links
    requires SameForOthers(m, AddReplica(m, c), c)
    ensures LinksOk(Good(exec), AddReplica(m, c), links[c := NewLink(store, m.masterOffset)])
  {
    assert c !in m.out && c !in m.replicaOffsets;
    NewLinkOk(exec, m, c, store);
    ChangeLink(exec, m, AddReplica(m, c), links, c, NewLink(store, m.masterOffset));
  }

  lemma AskKeeps(exec: Executor, m: Repl, m': Repl, links: map<Conn, Link>, c: Conn)
    requires LinksOk(Good(exec), m, links) && c in links && m' == WriteTo(m, c, EncodeArray(GETACK))
    requires SameForOthers(m, m', c)
    ensures LinksOk(Good(exec), m', links[c := Noted(links[c], GETACK)])
  {
    AskedLink(exec, m, c, links[c]);
    ChangeLink(exec, m, m', links, c, Noted(links[c], GETACK));
  }

  lemma ReplicaStepKeeps(exec: Executor, m: Repl, links: map<Conn, Link>, c: Conn, env: Env)
    requires LinksOk(Good(exec), m, links) && c in links && SameForOthers(m, m, c)
    ensures LinksOk(Good(exec), m, links[c := ReplicaStep(exec, links[c], Out(m, c), env)])
  {
    SteppedLink(exec, m, c, links[c], env);
    ChangeLink(exec, m, m, links, c, ReplicaStep(exec, links[c], Out(m, c), env));
  }

  lemma ReceiveKeeps(exec: Executor, m: Repl, m': Repl, links: map<Conn, Link>, c: Conn)
    requires LinksOk(Good(exec), m, links) && c in links && links[c].open && links[c].acks != []
    requires m' == RecordAck(m, c, links[c].acks[0]) && SameForOthers(m, m', c)
    ensures LinksOk(Good(exec), m', links[c := Received(links[c])])
  {
    ReceivedLink(exec, m, c, links[c]);
    ChangeLink(exec, m, m', links, c, Received(links[c]));
  }

  lemma DetachKeeps(exec: Executor, m: Repl, m': Repl, links: map<Conn, Link>, c: Conn)
    requires LinksOk(Good(exec), m, links) && c in links && Distinct(m.replicas)
    requires m' == RemoveReplica(m, c) && SameForOthers(m, m', c)
    ensures LinksOk(Good(exec), m', links[c := links[c].(open := false)])
  {
    ClosedLink(exec, m, c, links[c]);
    ChangeLink(exec, m, m', links, c, links[c].(open := false));
  }

  lemma LinksKeep(exec: Executor, w: World, e: Event)
    requires LinksOk(Good(exec), w.m, w.links) && Known(w.m, w.links) && Permitted(w, e) && !e.Write?
    ensures LinksOk(Good(exec), StepWith(exec, w, e).m, StepWith(exec, w, e).links)
  {
    var m, links, c := w.m, w.links, e.c;
    match e
    case Attach(_, store) =>
      MasterSteps(m, c, "", 0);
      AttachKeeps(exec, m, links, c, store);
    case AskAck(_) =>
      MasterSteps(m, c, EncodeArray(GETACK), 0);
      AskKeeps(exec, m, WriteTo(m, c, EncodeArray(GETACK)), links, c);
    case Replica(_, env) =>
      MasterSteps(m, c, "", 0);
      ReplicaStepKeeps(exec, m, links, c, env);
    case ReceiveAck(_) =>
      MasterSteps(m, c, "", links[c].acks[0]);
      ReceiveKeeps(exec, m, RecordAck(m, c, links[c].acks[0]), links, c);
    case Detach(_) =>
      MasterSteps(m, c, "", 0);
      DetachKeeps(exec, m, RemoveReplica(m, c), links, c);
  }

  lemma WriteStepKeeps(exec: Executor, w: World, arr: Command)
    requires LinksOk(Good(exec), w.m, w.links) && Known(w.m, w.links) && IsWrite(arr)
    ensures LinksOk(Good(exec), StepWith(exec, w, Write(arr)).m, StepWith(exec, w, Write(arr)).links)
  {
    GetAckIs();
    assert Sent(arr) && !IsGetAck(arr);
    WriteKeeps(exec, w.m, Propagate(w.m, arr), w.links, StepWith(exec, w, Write(arr)).links, arr);
  }

  lemma StepKeeps(w: World, e: Event)
    requires Inv(w) && Permitted(w, e)
    ensures Inv(Step(w, e))
  {
    KnownKeeps(w, e);
    if e.Write? { WriteStepKeeps(Execute, w, e.arr); } else { LinksKeep(Execute, w, e); }
  }

  lemma {:induction false} RunKeeps(w: World, events: seq<Event>)
    requires Inv(w) && AllPermitted(w, events)
    ensures Inv(Run(w, events))
    decreases |events|
  {
    if events != [] {
      StepKeeps(w, events[0]);
      RunKeeps(Step(w, events[0]), events[1..]);
    }
  }

  // ---- Conservation -----------------------------------------------------------------------------

  const NOBODY: World := World(Repl([], 0, map[], map[]), map[])

  /** What some run of events from a master without replicas leads to. */
  ghost predicate Reachable(w: World) {
    exists events :: AllPermitted(NOBODY, events) && Run(NOBODY, events) == w
  }

  lemma ReachableInv(w: World)
    requires Reachable(w)
    ensures Inv(w)
  {
    var events :| AllPermitted(NOBODY, events) && Run(NOBODY, events) == w;
    assert Inv(NOBODY);
    RunKeeps(NOBODY, events);
  }

  lemma LinkOf(w: World, c: Conn)
    requires Inv(w) && c in w.links
    ensures LinkAt(Execute, w.m, c, w.links[c]) && Counted(w.m, w.links[c])
  {
    assert Good(Execute)(w.m, c, w.links[c]);
  }

  /** The bytes on their way to a replica. */
  function Wire(w: World, c: Conn): string
    requires c in w.links
  {
    if w.links[c].read <= |Out(w.m, c)| then Out(w.m, c)[w.links[c].read..] else ""
  }

  /** In every reachable state a replica's count is the bytes it has taken off the connection,
      and its count plus the bytes in flight is what the master has counted since the replica
      attached, plus 37 for every GETACK written to it. */
  lemma BytesConserved(w: World, c: Conn)
    requires Reachable(w) && c in w.links
    ensures var l := w.links[c];
            && l.offset == l.read
            && (l.open ==> l.offset + |Wire(w, c)| == w.m.masterOffset - l.base + 37 * GetAcks(l.history, |l.history|))
  {
    ReachableInv(w);
    LinkOf(w, c);
    LinkConserves(Execute, w.m, c, w.links[c]);
  }

  lemma WholeBytes(history: seq<Command>)
    ensures |EncodeAll(history)| == Bytes(history, |history|)
  {
    BytesEncoded(history, |history|);
    assert history[..|history|] == history;
  }

  lemma LinkConserves(exec: Executor, m: Repl, c: Conn, l: Link)
    requires LinkAt(exec, m, c, l) && Counted(m, l)
    ensures l.offset == l.read <= |Out(m, c)|
    ensures l.open ==> |Out(m, c)| == m.masterOffset - l.base + 37 * GetAcks(l.history, |l.history|)
  {
    var n := |l.history|;
    InFlight(l.history, l.done);
    BytesSplit(l.history, n);
    WholeBytes(l.history);
  }

  // ---- Histories grow -----------------------------------------------------------------------

  lemma {:induction false} PrefixAgrees(h: seq<Command>, h': seq<Command>, n: nat)
    requires h <= h' && n <= |h|
    ensures Writes(h', n) == Writes(h, n)
  {
    if n > 0 { PrefixAgrees(h, h', n - 1); }
  }

  lemma {:induction false} WritesGrow(h: seq<Command>, a: nat, b: nat)
    requires a <= b <= |h|
    ensures Writes(h, a) <= Writes(h, b) && GetAcks(h, a) <= GetAcks(h, b)
  {
    if a < b { WritesGrow(h, a, b - 1); }
  }

  lemma EncodeGrows(a: seq<Command>, b: seq<Command>)
    requires a <= b
    ensures |EncodeAll(a)| <= |EncodeAll(b)|
    ensures |EncodeAll(a)| == |EncodeAll(b)| ==> a == b
  {
    assert b == a + b[|a|..];
    EncodeAllAppend(a, b[|a|..]);
    if b[|a|..] != [] { assert |EncodeArray(b[|a|..][0])| > 0; }
  }

  /** Links stay, and what is written to them only grows. */
  ghost predicate Later(w: World, v: World, c: Conn) {
    && c in w.links && c in v.links
    && w.links[c].history <= v.links[c].history && v.links[c].base == w.links[c].base
    && v.links[c].first == w.links[c].first
  }

  lemma ReplicaGrows(w: World, c: Conn, other: Conn, l': Link)
    requires c in w.links && other in w.links && SameHistory(w.links[c], l')
    ensures Later(w, World(w.m, w.links[c := l']), other)
  {
  }

  lemma StepSame(w: World, c: Conn, env: Env)
    requires Inv(w) && c in w.links
    ensures SameHistory(w.links[c], ReplicaStep(Execute, w.links[c], Out(w.m, c), env))
  {
    LinkOf(w, c);
    ReplicaKeeps(Execute, Out(w.m, c), w.links[c], env);
  }

  lemma OtherGrows(exec: Executor, w: World, e: Event, c: Conn)
    requires Permitted(w, e) && c in w.links && !e.Replica?
    ensures Later(w, StepWith(exec, w, e), c)
  {
  }

  lemma StepGrows(w: World, e: Event, c: Conn)
    requires Inv(w) && Permitted(w, e) && c in w.links
    ensures Later(w, Step(w, e), c)
  {
    if e.Replica? {
      StepSame(w, e.c, e.env);
      ReplicaGrows(w, e.c, c, ReplicaStep(Execute, w.links[e.c], Out(w.m, e.c), e.env));
    } else {
      OtherGrows(Execute, w, e, c);
    }
  }

  lemma {:induction false} RunGrows(w: World, events: seq<Event>, c: Conn)
    requires Inv(w) && AllPermitted(w, events) && c in w.links
    ensures Later(w, Run(w, events), c) && Inv(Run(w, events))
    decreases |events|
  {
    if events != [] {
      StepKeeps(w, events[0]);
      StepGrows(w, events[0], c);
      RunGrows(Step(w, events[0]), events[1..], c);
    }
  }
}
