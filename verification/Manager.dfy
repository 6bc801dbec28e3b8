/** The `ReplicationManager` of app/server.go and the parts of handleWAIT and handleREPLCONF that
    work on it, proved against the state functions of module Replication. */
module Manager {
  import opened Strconv
  import opened Resp
  import opened RespStream
  import opened RespReader
  import opened StreamIds
  import opened StoreModel
  import opened Commands
  import R = Replication
  import opened Replication

  class ReplicationManager {
    var replicas: seq<Conn>
    var masterOffset: int
    var replicaOffsets: map<Conn, int>
    var out: map<Conn, string>

    function Model(): Repl
      reads this
    {
      Repl(replicas, masterOffset, replicaOffsets, out)
    }

    constructor ()
      ensures Model() == Repl([], 0, map[], map[])
    {
      replicas, masterOffset, replicaOffsets, out := [], 0, map[], map[];
    }

    method AddReplica(conn: Conn)
      modifies this
      ensures Model() == R.AddReplica(old(Model()), conn)
    {
      replicas := replicas + [conn];
    }

    method RemoveReplica(conn: Conn)
      modifies this
      ensures Model() == R.RemoveReplica(old(Model()), conn)
    {
      var i := 0;
      while i < |replicas| && replicas[i] != conn
        invariant 0 <= i <= |replicas|
        invariant WithoutFirst(replicas, conn) == replicas[..i] + WithoutFirst(replicas[i..], conn)
      {
        assert replicas[i..][1..] == replicas[i + 1..];
        i := i + 1;
      }
      if i < |replicas| {
        assert replicas[i..][1..] == replicas[i + 1..];
        replicas := replicas[..i] + replicas[i + 1..];
      }
      replicaOffsets := replicaOffsets - {conn};
    }

    /** conn.Write(bytes) */
    method Write(conn: Conn, bytes: string)
      modifies this
      ensures Model() == WriteTo(old(Model()), conn, bytes)
    {
      out := out[conn := (if conn in out then out[conn] else "") + bytes];
    }

    /** Write the same bytes to each connection in turn. */
    method WriteEach(conns: seq<Conn>, bytes: string)
      modifies this
      ensures Model() == WriteAll(old(Model()), conns, bytes)
    {
      var i := 0;
      assert conns[0..] == conns;
      while i < |conns|
        invariant 0 <= i <= |conns|
        invariant WriteAll(old(Model()), conns, bytes) == WriteAll(Model(), conns[i..], bytes)
      {
        assert conns[i..][1..] == conns[i + 1..];
        Write(conns[i], bytes);
        i := i + 1;
      }
    }

    method Propagate(arr: Command)
      modifies this
      ensures Model() == R.Propagate(old(Model()), arr)
    {
      var payload := EncodeRESPArray(arr);
      masterOffset := masterOffset + |payload|;
      WriteEach(replicas, payload);
    }

    method HandleREPLCONF(conn: Conn, arr: Command) returns (replies: seq<Reply>)
      modifies this
      ensures (Model(), replies) == Replconf(old(Model()), conn, arr)
    {
      if |arr| >= 3 {
        var arg1 := Arg(arr, 1);
        if ToUpper(arg1) == "ACK" {
          var offset := Atoi(Arg(arr, 2)).ValueIgnoringError();
          replicaOffsets := replicaOffsets[conn := offset];
          return [];
        }
      }
      replies := [OK];
    }

    /** handleWAIT up to its polling: an immediate answer, or the snapshot it polls for, with a
        GETACK written to every replica of the snapshot. */
    method BeginWait(arr: Command) returns (answer: Option<Reply>, offset: int, active: seq<Conn>)
      modifies this
      ensures offset == old(masterOffset) && active == old(replicas)
      ensures |arr| < 3 ==> answer == Some(Error("wrong number of arguments for 'WAIT' command"))
      ensures |arr| >= 3 ==>
                (answer.None? <==> Atoi(Arg(arr, 1)).ValueIgnoringError() != 0 && old(masterOffset) != 0)
                && (answer.Some? ==> answer == Some(Integer(|old(replicas)|)))
      ensures Model()
           == if answer.Some? then old(Model()) else WriteAll(old(Model()), old(replicas), EncodeArray(GETACK))
    {
      offset, active := masterOffset, replicas;
      if |arr| < 3 { return Some(Error("wrong number of arguments for 'WAIT' command")), offset, active; }
      var expectedReplicas := Atoi(Arg(arr, 1)).ValueIgnoringError();
      if expectedReplicas == 0 || masterOffset == 0 { return Some(Integer(|active|)), offset, active; }
      var getAckPayload := EncodeRESPArray(GETACK);
      WriteEach(active, getAckPayload);
      answer := None;
    }

    /** One poll of handleWAIT: it answers when enough replicas of the snapshot have acknowledged
        its offset, or when its time is over. */
    method PollWait(active: seq<Conn>, offset: int, expected: int, timeout: int, elapsedMs: int)
      returns (answer: Option<Reply>)
      ensures var n := AckCount(Model(), active, offset);
              answer == if n >= expected || (timeout > 0 && elapsedMs >= timeout) then Some(Integer(n)) else None
    {
      var ackCount := 0;
      var i := 0;
      while i < |active|
        invariant 0 <= i <= |active|
        invariant AckCount(Model(), active, offset) == ackCount + AckCount(Model(), active[i..], offset)
      {
        assert active[i..][1..] == active[i + 1..];
        if active[i] in replicaOffsets && replicaOffsets[active[i]] >= offset { ackCount := ackCount + 1; }
        i := i + 1;
      }
      answer := if ackCount >= expected || (timeout > 0 && elapsedMs >= timeout) then Some(Integer(ackCount)) else None;
    }
  }
}
