/** The loop of app/server.go in which a replica takes commands off the connection to its master,
    proved against the replica's step of the protocol. */
module ReplicaLoop {
  import opened Strconv
  import opened Resp
  import opened RespReader
  import opened Commands
  import opened Cluster
  import opened ServerClass

  class Replica {
    const server: Server
    const reader: Reader
    var replicaOffset: int
    var acks: seq<int>   // the offsets answered to GETACKs, in order

    constructor (server: Server, reader: Reader)
      ensures this.server == server && this.reader == reader && replicaOffset == 0 && acks == []
    {
      this.server, this.reader, replicaOffset, acks := server, reader, 0, [];
    }

    /** The replica as its link of the protocol. */
    ghost function AsLink(): Link
      reads this, reader, server.store
    {
      Link(true, reader.pos, replicaOffset, server.store.Model(), acks, [], [], 0, server.store.Model(), [], 0)
    }

    /** One round: false when the connection ends or does not parse. */
    method Round(env: Env) returns (goOn: bool)
      requires reader.Valid()
      modifies this, reader, server, server.store, server.repl
      ensures reader.Valid()
      ensures goOn <==> Parse(old(reader.Left())).Parsed?
      ensures var l := ReplicaStep(Execute, old(AsLink()), reader.data, env);
              replicaOffset == l.offset && acks == l.acks && server.store.Model() == l.store
              && (goOn ==> reader.pos == l.read)
    {
      var o := ParseRESP(reader);
      if o.Failure? { return false; }
      goOn := true;
      if o.value.Arr? && o.value.items != [] {
        var items := o.value.items;
        var encoded := EncodeRESPArray(items);
        var cmdBytes := |encoded|;
        if ToUpper(Arg(items, 0)) == "REPLCONF" && |items| >= 3 && ToUpper(Arg(items, 1)) == "GETACK" {
          acks := acks + [replicaOffset];
          replicaOffset := replicaOffset + cmdBytes;
        } else {
          var _ := server.HandleWithoutClient(items, env);
          replicaOffset := replicaOffset + cmdBytes;
        }
      }
    }
  }
}
