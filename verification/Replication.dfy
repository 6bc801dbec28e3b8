/** Replication (ReplicationManager of app/server.go, handleWAIT and handleREPLCONF of
    app/commands.go, the replica's loop): the master's state and the protocol between it and
    its replicas. Manager.dfy proves the class against the state functions. */
module Replication {
  import opened Strconv
  import opened Resp
  import opened RespStream
  import opened StoreModel
  import opened Commands

  /** `out` holds, for each connection, all bytes the manager and WAIT have written to it. */
  datatype Repl = Repl(
    replicas: seq<Conn>,
    masterOffset: int,
    replicaOffsets: map<Conn, int>,
    out: map<Conn, string>)

  function Out(m: Repl, c: Conn): string { if c in m.out then m.out[c] else "" }

  function WriteTo(m: Repl, c: Conn, bytes: string): Repl { m.(out := m.out[c := Out(m, c) + bytes]) }

  function WriteAll(m: Repl, conns: seq<Conn>, bytes: string): Repl
    decreases |conns|
  {
    if conns == [] then m else WriteAll(WriteTo(m, conns[0], bytes), conns[1..], bytes)
  }

  function AddReplica(m: Repl, c: Conn): Repl { m.(replicas := m.replicas + [c]) }

  function WithoutFirst(conns: seq<Conn>, c: Conn): seq<Conn> {
    if conns == [] then [] else if conns[0] == c then conns[1..] else [conns[0]] + WithoutFirst(conns[1..], c)
  }

  function RemoveReplica(m: Repl, c: Conn): Repl {
    m.(replicas := WithoutFirst(m.replicas, c), replicaOffsets := m.replicaOffsets - {c})
  }

  function Propagate(m: Repl, arr: Command): Repl {
    WriteAll(m.(masterOffset := m.masterOffset + |EncodeArray(arr)|), m.replicas, EncodeArray(arr))
  }

  function PropagateAll(m: Repl, cmds: seq<Command>): Repl
    decreases |cmds|
  {
    if cmds == [] then m else PropagateAll(Propagate(m, cmds[0]), cmds[1..])
  }

  function RecordAck(m: Repl, c: Conn, offset: int): Repl { m.(replicaOffsets := m.replicaOffsets[c := offset]) }

  /** handleREPLCONF: an ACK is recorded and not answered. */
  function Replconf(m: Repl, c: Conn, arr: Command): (Repl, seq<Reply>) {
    if |arr| >= 3 && ToUpper(Arg(arr, 1)) == "ACK" then
      (RecordAck(m, c, Atoi(Arg(arr, 2)).ValueIgnoringError()), [])
    else (m, [OK])
  }

  const GETACK: Command := [Str("REPLCONF"), Str("GETACK"), Str("*")]

  predicate Acknowledged(m: Repl, c: Conn, offset: int) {
    c in m.replicaOffsets && m.replicaOffsets[c] >= offset
  }

  /** The count of one poll of WAIT over the connections of its snapshot. */
  function AckCount(m: Repl, conns: seq<Conn>, offset: int): (n: nat)
    ensures n <= |conns|
  {
    if conns == [] then 0
    else (if Acknowledged(m, conns[0], offset) then 1 else 0) + AckCount(m, conns[1..], offset)
  }

  // ---- Lengths ---------------------------------------------------------------------------

  lemma BulkLength(text: string, digits: nat)
    requires |FormatInt(|text|)| == digits
    ensures |EncodeItem(Str(text))| == digits + 5 + |text|
  {
  }

  lemma OneDigit(n: nat)
    requires n < 10
    ensures |FormatInt(n)| == 1
  {
  }

  lemma GetAckLength()
    ensures |EncodeArray(GETACK)| == 37
  {
    OneDigit(8);
    OneDigit(6);
    OneDigit(1);
    OneDigit(3);
    assert GETACK[1..] == [Str("GETACK"), Str("*")] && GETACK[1..][1..] == [Str("*")] && GETACK[1..][1..][1..] == [];
    assert EncodeItems(GETACK[1..][1..]) == EncodeItem(Str("*")) + EncodeItems(GETACK[1..][1..][1..]);
    assert EncodeItems(GETACK[1..]) == EncodeItem(Str("GETACK")) + EncodeItems(GETACK[1..][1..]);
    assert EncodeItems(GETACK) == EncodeItem(Str("REPLCONF")) + EncodeItems(GETACK[1..]);
    BulkLength("REPLCONF", 1);
    BulkLength("GETACK", 1);
    BulkLength("*", 1);
  }

  function AckCommand(offset: int): Command { [Str("REPLCONF"), Str("ACK"), Str(FormatInt(offset))] }

  /** The replica's answer to a GETACK, read by the master's parser, records its offset. */
  lemma AckArrives(m: Repl, c: Conn, offset: int, tail: string)
    requires IsInt64(offset)
    ensures var items := AckCommand(offset);
            && Parse(EncodeArray(items) + tail) == ParseResult.Parsed(Arr(items), tail)
            && Replconf(m, c, items) == (RecordAck(m, c, offset), [])
  {
    var items := AckCommand(offset);
    FormatShort(offset);
    assert Textual(Arr(items)) && Fits(Arr(items));
    NormalizeAllTextual(items);
    ArrayRoundTrip(items, tail);
    AtoiFormat(offset);
    assert ToUpper("ACK") == "ACK";
  }
}
