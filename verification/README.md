# Verification of the Redis server in Go

A Dafny model of the server's store, command handlers, replication, RESP codec, append-only log,
streams and geohash code, with proofs of the properties they are there for. `dafny verify
dfyconfig.toml` checks everything.

The store's maps, the replication manager and the server are classes whose methods follow the
code and are proved against functions on values (`StoreModel`, `Commands`, `Replication`, `Resp`).
The theorems are about these functions: runs of single critical sections (`Sections`), runs of
whole commands (`Commands.RunWith`), and the replication protocol (`Cluster`). What each command
answers and leaves is stated once more in terms of its arguments and the data alone.

| part | modules |
|---|---|
| codec | `Strconv`, `Resp`, `RespStream`, `RespReader` |
| what commands do, in plain terms | `CommandNames`, `TextCommands`, `ListCommands`, `SetCommands`, `StreamCommands`, `TransactionCommands`, `Wire` |
| store | `StreamIds`, `StoreModel`, `StoreClass`, `Sections` |
| optimistic locking | `Watching`, `CheckAndSet` |
| blocking clients | `BlockingLists`, `Deliveries`, `PushWindow`, `PopWindow`, `Departure`, `BlockingRead`, `LeavingQueues`, `RepeatedKeys`, `WokenClients` |
| time to live | `Expiry` |
| commands, transactions, log | `Commands`, `ServerClass`, `Transactions`, `Aof`, `LogOrder`, `Restart` |
| replication | `Replication`, `Manager`, `Cluster`, `Acknowledgements`, `Convergence`, `Propagation`, `ReplicaLoop` |
| streams, sorted sets, geohash | `Streams`, `SortedSets`, `Geohash`, `GeohashOrder` |

Hypotheses the theorems state, because the code decides them:

- WATCH and blocking XREAD are proved at the granularity of single critical sections; every
  command is the run of its sections (`CheckAndSet.CallIsRun`). Blocking lists, transactions, log
  and convergence take each command as one step, while the code takes several sections. Of what can
  fall in between these are exactly stated: between IsDirty and the queue of EXEC
  (`Watching.ExecWindow`), between the sections of GET and of SET with a time to live
  (`Expiry.SplitRunsRefine`), of a push (`PushWindow.WaitsBesideExactly`), of a pop
  (`PopWindow.SplitPopExactly`), and between storing and logging SETs
  (`LogOrder.ReplayFollowsOrder`).
- An expiring key marks nobody (`Watching.UnchangedUnlessExpired`); the handlers store only strings
  and lists by SET (`Watching.Allowed`).
- A GETACK is counted by the replica and not by the master, and a replica that attaches late counts
  from 0; what a WAIT certifies is stated with both terms.
- Replay and convergence cover SET without a time to live, INCR, LPOP, RPOP and ZADD whose scores
  parse, sent without integers, alone or in a transaction, from any initial store, among calls that
  log and change nothing; a pop must meet a key without a deadline, because it deletes an expired
  key, which is not logged. ZREM, XADD and GEOADD are not logged by the code; LPUSH and RPUSH panic
  without a client; SET with a time to live starts it anew at replay.
- A key whose waiters are streams' readers is not used as a list.
- A stream's order needs the last sequence number below the largest int64 before an automatic one.

Where code and documentation differ the code is modelled; in particular the comment on BLPOP says
its timeout is always 0, while the code honours a positive one.

## Model

| member | source | states |
|---|---|---|
| `CheckAndSet.CheckAndSet` | app/commands.go:1085-1159 | WATCH k, then any commands of anybody and any single sections that do not give up the watch, then EXEC: if it does not answer null it runs its queue, from a store in which k holds the value it had at the WATCH if and only if k did not expire in between |
| `CheckAndSet.ExecNullExactly` | app/commands.go:1099-1107 | over such runs EXEC answers null if and only if some section wrote a key after a WATCH of it by the client that was still in force |
| `CheckAndSet.CallIsRun` | app/commands.go:161-309 | every command does to the store what its critical sections do in order |
| `CheckAndSet.ActsAreRun` | app/commands.go:161-309 | the same of whole runs, which contain an UNWATCH of a client exactly where a command of it gives up its watches |
| `Watching.CleanMeansUnchanged` | app/commands.go:1099-1107 | over every interleaving of critical sections in which the client does not UNWATCH and the key is not removed by its time to live: a client that is clean at the end sees the value the key had at the start, and dirtiness never goes away |
| `Watching.UnchangedUnlessExpired` | app/storage.go:156-188 | for a client that is clean at the end the value is the one at the start if and only if no cleanup or lazy delete removed the key while it was there |
| `Watching.DirtyExactly` | app/storage.go:649-665 | IsDirty is true if and only if some section wrote a key after the client's WATCH of it, with no UNWATCH since |
| `Watching.WatchedExactly` | app/storage.go:620-647 | a client is among the watchers of a key exactly if it named the key in a WATCH since its last UNWATCH |
| `Watching.NoEmptyZSetStep` | app/storage.go:416-447 | no section stores an empty sorted set, which is why ZRem may delete one without marking the key |
| `Watching.WatchersStep` | app/storage.go:620-647 | only WATCH and UNWATCH of that client change whether it watches a key |
| `Watching.DirtyStep` | app/storage.go:649-657 | a section makes exactly the watchers of the key it writes dirty; UNWATCH clears its own client |
| `Watching.ValueStep` | app/storage.go:136-142 | a section that neither writes nor expires a key leaves its value alone |
| `Watching.ExecWindow` | app/commands.go:1099-1118 | EXEC asks IsDirty some sections before its queue starts: if it found the client clean, the watched key holds at the start of the queue what it held after the last section in between that wrote or dropped it, and what it held at the WATCH when there is none |
| `Watching.ExecMissesWrite` | app/commands.go:1099-1118 | when that last section is a SET, the queue runs on the watched value if and only if the SET stored that value again |
| `Transactions.TransactionIsDeferred` | app/commands.go:1085-1119 | MULTI, any calls of anybody up to the EXEC of this client, EXEC: state, log and propagation are those of a run in which the client is silent until the EXEC and then, unless dirty, issues its queued commands one by one, each at its own time; a command whose handler is left out may take any critical sections of the store and give any answer |
| `Transactions.DiscardIsForgotten` | app/commands.go:1121-1137 | MULTI, any calls up to the DISCARD of this client, DISCARD: the state and the log of a run without the client, but for its cleared watches and dirty flag |
| `Transactions.Deferred` | app/commands.go:205-218 | while a transaction is open nothing of its client takes effect, whatever it sends short of ending it, and the queue is exactly its commands that can be queued, in order |
| `Transactions.ExecCommits` | app/commands.go:1090-1118 | EXEC of a pending queue: null array when dirty, else header and the replies, state and log of the commands in order, each with its own reading of the clock |
| `Transactions.DataUnseen` | app/commands.go:220-309 | no data command reads or writes the transaction queues |
| `Transactions.OthersApart` | app/commands.go:205-309 | a call of another client behaves the same whether or not the transaction is open, and leaves its queue alone |
| `Transactions.UnwatchClears` | app/storage.go:634-647 | UNWATCH removes the client from every key and from the dirty clients and changes nothing else |
| `BlockingLists.RunsAreFifo` | app/commands.go:560-611 | every run of RPUSH, LPOP, BLPOP with and without timeout and receives: consumed values followed by the list are the values pushed, waiters only while the list is empty, clients served in registration order, no waiter has ever been sent anything |
| `Deliveries.RunsDeliverOnce` | app/commands.go:585-600 | in every such run, timeouts included, a client that was handed a value has received exactly that value or finds it alone in its channel, is served once and waits at no key; a client that waits has received nothing |
| `Deliveries.RegisteredOnce` | app/commands.go:761-782 | the clients served and those waiting are all different |
| `BlockingLists.EachGetsOne` | app/commands.go:585-600 | one push serves the first waiters, one value each in order; their buffers were empty, so the send does not block; they wait no more |
| `PushWindow.WaitsBesideExactly` | app/commands.go:585-604 | with any sections between the two of a push that stores something: a client waits beside a list with values if and only if one joined the queue in between and is still there |
| `PushWindow.BlockedBesideValue` | app/commands.go:585-604 | it happens: RPUSH of one value with a BLPOP in between |
| `PopWindow.SplitPopExactly` | app/commands.go:685-741 | LPOP and RPOP as two sections, among anything else: the pop answers and leaves what one at its second section would, if and only if the key holds then the value it read |
| `PopWindow.UndisturbedPop` | app/commands.go:685-741 | so it does when nothing in between writes or drops the key |
| `PopWindow.PushIsLost` | app/commands.go:685-741 | a push as the last touch in between is lost: the list left is without its values |
| `PushWindow.OnlyJoins` | app/commands.go:761-782 | a channel joins a queue only by BLPOP of a key without values or by the registration of XREAD |
| `BlockingLists.HandOffInOrder` | app/commands.go:587-599 | the loop gives the first values to the first waiters and keeps the rest, whatever their numbers |
| `BlockingLists.BlockStep` | app/commands.go:761-782 | BLPOP pops the head or joins the queue of waiters, keeping the FIFO invariant |
| `BlockingLists.PopStep` | app/commands.go:686-700 | LPOP takes from the front, keeping the FIFO invariant |
| `BlockingLists.PushIsRPUSH` | app/commands.go:560-604 | the push of the FIFO runs is the one of the RPUSH handler on a key without a deadline |
| `BlockingLists.PopIsLPOP` | app/commands.go:676-714 | the pop of the FIFO runs is the one of the LPOP handler on a key without a deadline |
| `BlockingRead.NoLostWakeUp` | app/commands.go:1394-1469 | in every reachable state: a client that waits without a token has nothing above the ID it gave last for each of its keys |
| `BlockingRead.WokenClientGetsNew` | app/commands.go:1453-1469 | a client that asked for `$` everywhere and was woken by a token answers, for every key, exactly the entries added since it registered there last; at least one in all if no key is named twice |
| `WokenClients.WokenExactly` | app/commands.go:1394-1469 | over all stores and runs: such a client always gets an entry if and only if its request names no key twice |
| `WokenClients.WokenForNothing` | app/commands.go:1398-1444 | for every request that names a key twice: an XADD between two registrations of the key wakes the client, and its answer has nothing |
| `RepeatedKeys.WakeUpsExactly` | app/commands.go:1394-1469 | over all requests, stores and runs: a wake-up for the ID given at a place is never lost if and only if that place is the last of its key |
| `RepeatedKeys.RepeatedKeyWaits` | app/commands.go:1412-1444 | for every request and every place that is not the last of its key: with `-` there and `$` elsewhere the client waits without a token although the stream has entries above that ID |
| `BlockingRead.StepKeeps` | app/commands.go:1394-1469 | every section of others and every step of the client keeps: each key watched and unchanged, or a token there |
| `BlockingRead.SectionRespects` | app/storage.go:751-760 | a channel is sent a token exactly by an XADD at a key where it waits, and is then in no queue of that key |
| `BlockingRead.XReadAt` | app/storage.go:844-872 | XREAD answers a key with what lies above the last ID given for it |
| `Streams.XAddKeepsOrder` | app/storage.go:694-749 | one XADD on an ordered stream under any clock keeps every ID canonical, above 0-0 and increasing if and only if the sequence number does not overflow |
| `Streams.RunKeepsOrder` | app/storage.go:669-749 | over every run the stream stays ordered and only grows at its end |
| `Streams.ReadsPartition` | app/storage.go:767-805 | XRANGE - x followed by XREAD x is the whole stream, for every full ID x |
| `Streams.WithinIsBlock` | app/storage.go:789-804 | XRANGE returns one contiguous block of an ordered stream |
| `Streams.AboveIsSuffix` | app/storage.go:861-871 | XREAD returns exactly the tail after the entries up to its ID |
| `Streams.FollowsExactly` | app/storage.go:835-874 | a consumer that reads from its last received ID sees every entry once and in order, across interleaved XADDs |
| `Streams.PollCatchesUp` | app/storage.go:835-874 | one such read completes a prefix of the stream to the whole stream |
| `StreamIds.ParseFormat` | app/storage.go:41-56 | a formatted ID reparses to the ID it was formatted from |
| `StreamIds.ParsedIsValid` | app/storage.go:58-77 | no part of a parsed ID is negative: the dash always separates |
| `Expiry.GetIsTimedRead` | app/storage.go:144-196 | for every run with a clock that does not go back and any number of cleanup goroutines, GET returns the last write before its deadline and nothing after it |
| `Expiry.CleanerSparesLiveValues` | app/storage.go:156-169 | a cleanup goroutine never removes a value that is still alive |
| `Expiry.RunRefines` | app/storage.go:144-196 | the stored key is its last write, or was removed after that write's deadline |
| `Expiry.DeadlineExact` | app/commands.go:133-157 | an EX time puts the deadline exactly that many seconds ahead if and only if its nanoseconds fit int64 |
| `Expiry.DeadlineExactMillis` | app/commands.go:133-157 | a PX time does so if and only if its nanoseconds fit |
| `Expiry.DeadlineWraps` | app/commands.go:153-155 | a witness of the other case: an EX time whose deadline lies in the past |
| `Expiry.LiveOnlyIfWritten` | app/storage.go:173-196 | GET as two sections, a look and a later delete, among anything else: the delete removes a live value if and only if the key was written, or given a deadline, after the look and is alive |
| `Expiry.SplitRunsRefine` | app/storage.go:144-196 | GET and SET with a time to live both as two sections, among anything else: the store agrees with the timed map at every moment if and only if no delete removes a live value and no setter gives another deadline to a key written since it stored |
| `Expiry.LateDeleteLosesWrite` | app/storage.go:173-188 | a run in which a GET deletes a value set after its look |
| `Expiry.LateDeadlineArmsAnother` | app/storage.go:145-154 | a run in which a SET gets the deadline of another |
| `SortedSets.GetSortedZSetNodes` | app/storage.go:307-336 | the nodes are every member once with its score, in whatever order the map is iterated, and sorted unless a NaN score stands beside another member |
| `SortedSets.ViewUnique` | app/storage.go:307-336 | there is at most one sorted list of the members |
| `SortedSets.ViewExactly` | app/storage.go:326-333 | there is one if and only if no score is NaN or there are no two members |
| `SortedSets.ZRank` | app/storage.go:371-381 | -1 for no member, and otherwise the number of strictly smaller members; with a NaN score beside another, some place of the set |
| `SortedSets.PlaceIsRank` | app/storage.go:371-381 | a member's index in the sorted view is the number of strictly smaller members |
| `SortedSets.ZRange` | app/storage.go:338-369 | the result is exactly the clamped interval, for negative and out-of-range indices too: of the sorted list where there is one, of some list of the members otherwise |
| `SortedSets.RangeOfRank` | app/storage.go:338-381 | the one-element range at r returns m if and only if r is the rank of m |
| `Geohash.InterleaveIsMorton` | app/geo-coordinate-helper.go:22-37 | the masks and shifts compute the recursive one-bit-at-a-time Morton code, for all pairs of words |
| `Geohash.CompactSpread` | app/geo-coordinate-helper.go:22-57 | compacting a spread word gives it back |
| `Geohash.CompactInterleave` | app/geo-coordinate-helper.go:32-57 | both words come back from their code |
| `Geohash.InterleaveCompact` | app/geo-coordinate-helper.go:32-79 | every 64-bit code is the interleaving of its two compacted words: with the previous row, a bijection |
| `GeohashOrder.InterleaveMonotone` | app/geo-coordinate-helper.go:22-37 | the interleaved 64-bit code is strictly increasing in each word |
| `GeohashOrder.InterleaveShifts` | app/geo-coordinate-helper.go:22-37 | interleaving two words shifted right by j gives their code shifted right by 2j, for every j |
| `GeohashOrder.ShiftedCode` | app/geo-coordinate-helper.go:22-37 | in numbers: dropping the j low bits of both words drops the 2j low bits of the code |
| `GeohashOrder.ShiftedValue` | app/geo-coordinate-helper.go:22-37 | a word shifted right by j is its number without the j low bits |
| `Geohash.DecodeEncode` | app/geo-coordinate-helper.go:39-79 | over real coordinates decoding is within half a cell and encodes to the same cell |
| `Geohash.ScoreFitsFloat64` | app/geo-coordinate-helper.go:39-47 | for in-range cells the code is below 2^53 if and only if the longitude cell is below 2^26, and a float64 holds it exactly if and only if that, or the latitude cell is even |
| `Geohash.AcceptedScoreExact` | app/commands.go:1513-1520 | of any pair GEOADD accepts, NaN among them, over real arithmetic and whatever cell of the grid NaN is converted to: a float64 holds the score exactly if and only if the longitude cell is not the extra one at 180 degrees or the latitude cell is even |
| `Geohash.StoredScoreExact` | app/commands.go:1513-1520 | of a pair of numbers in range: exactly if and only if the longitude is below 180 or the latitude cell is even |
| `Geohash.ExactIff` | app/commands.go:1518-1520 | below 2^54 the integers a float64 holds exactly are those below 2^53 and the even ones |
| `Resp.RoundTrip` | app/aof.go:194-221 | parsing a printed value followed by any bytes gives the value with scalars as strings and leaves exactly those bytes: any nesting, CRLF in strings, nulls |
| `RespStream.EncodeNormalize` | app/aof.go:194-221 | printing what was read gives the same bytes |
| `RespStream.NormalizeTextual` | app/aof.go:199-218 | a value is read back unchanged if and only if it holds no integer |
| `RespStream.ParseExtends` | app/resp.go:13-128 | for arbitrary bytes more input changes only the two end-of-file errors |
| `RespStream.TruncatedValue` | app/resp.go:13-68 | a proper prefix of a printed value never parses |
| `RespStream.DecodePrefix` | app/resp.go:13-128 | a byte prefix of a stream decodes to exactly the commands complete in it |
| `RespStream.EncodeAllInjective` | app/aof.go:194-221 | equal streams come from commands that read the same |
| `RespStream.ParseFits` | app/resp.go:107-128 | what the parser returns has lengths the printer can print |
| `RespReader.ParseRESP` | app/resp.go:107-128 | the reader-based parser terminates and agrees with the parser function on value, error and position |
| `RespReader.HandleRESPArray` | app/resp.go:13-44 | the same for arrays, with the loop over its items |
| `RespReader.HandleRESPBulkString` | app/resp.go:46-71 | the same for bulk strings: null, short input, bad and negative lengths |
| `RespReader.HandleRESPLine` | app/resp.go:73-105 | the same for simple strings, errors and integers |
| `RespReader.EncodeRESPArray` | app/aof.go:194-221 | the builder loop writes the bytes of the printer function |
| `Strconv.AtoiFormat` | app/resp.go:13-24 | every int64 survives formatting and parsing |
| `Aof.DurableReplay` | app/aof.go:11-46 | from any initial store and for every run of durable commands, alone or run by an EXEC, among calls that log and change nothing: replaying the bytes of the log on the initial data gives the final data, without error; only a pop must meet a key without a deadline |
| `Aof.CrashGivesEarlierData` | app/aof.go:27-43 | of such a run, replaying the log cut at any byte gives the data the server had after some of the calls and, within an EXEC, some of its commands |
| `Aof.HalfTransaction` | app/aof.go:27-43 | an EXEC is not atomic across a crash: cut after the first of two SETs of different keys the log gives the data before it, or after it, if and only if the first, or the second, stores what is there |
| `Aof.LooksAreQuiet` | app/commands.go:205-309 | queued commands, MULTI, DISCARD, WATCH, UNWATCH, an EXEC that is refused or aborted, a GET of a key that is not expired and unknown commands log nothing and change no data |
| `LogOrder.ReplayFollowsOrder` | app/commands.go:469-489 | SETs whose store and log sections interleave in any way: replaying the log gives the data of the store if and only if for every key the last value stored is the last one logged |
| `LogOrder.CrossedDiffer` | app/commands.go:469-489 | two SETs of one key, stored in one order and logged in the other, replay to the data of the store if and only if they store the same value |
| `Aof.CrashRecovery` | app/aof.go:27-43 | such a replay executes exactly the commands complete before the cut, each as logged |
| `Aof.DataLogged` | app/commands.go:115-129 | a durable command is logged and its replay gives the data it gave, or is not logged and changes no data |
| `Aof.ZADDLoggedExactly` | app/commands.go:876-902 | a well-formed ZADD is logged if and only if all its scores parse |
| `Aof.UnloggedZADDChanges` | app/commands.go:885-897 | a ZADD that is not logged changes the data if and only if its first score parses and its key is absent, or holds a sorted set that the pairs before the first bad score change |
| `Aof.ArgumentsSurvive` | app/aof.go:199-218 | every argument is replayed as it was executed if and only if none of the elements is an integer |
| `Aof.IntegerArgument` | app/aof.go:211-217 | a witness of the other case: a SET whose integer argument is stored empty and replayed as its digits |
| `Cluster.BytesConserved` | app/server.go:339-352 | in every reachable state a replica's offset is what it took off its connection, and with the bytes in flight equals the master's offset since it attached plus 37 per GETACK |
| `Cluster.StepKeeps` | app/server.go:47-82 | every event of the protocol keeps the invariant |
| `Cluster.ReplicaKeeps` | app/server.go:321-353 | the replica's parse-execute-count step processes exactly the next command of its history |
| `Cluster.NextOnWire` | app/server.go:324-336 | the next value on a connection is the next command written, and its re-encoding is as long as the bytes read |
| `Acknowledgements.AckMeans` | app/server.go:339-347 | an ACK of a for the j-th GETACK means exactly a - 37 (j - 1) bytes of writes processed |
| `Acknowledgements.AckFollowsWrites` | app/commands.go:398-415 | an ACK of a GETACK sent after some moment follows the processing of everything sent before it |
| `Acknowledgements.WaitIsSound` | app/commands.go:398-432 | any WAIT: a counted replica with j ACKs, attached at an offset of at least 37 (j - 1), has processed every write sent to it before the snapshot |
| `Acknowledgements.CountedExactly` | app/commands.go:417-427 | a replica with j ACKs is counted against the present offset if and only if the writes after its last acknowledged GETACK have at most 37 (j - 1) bytes less its offset at attaching |
| `Acknowledgements.CountedHasProcessed` | app/commands.go:417-427 | any WAIT: a counted replica with j ACKs has processed the snapshot's bytes less 37 (j - 1) |
| `Acknowledgements.AckCountIsSet` | app/commands.go:420-427 | the count is the number of different replicas of the snapshot that have acknowledged |
| `Acknowledgements.StaleAckIsCounted` | app/commands.go:411-427 | a replica that has just acknowledged, and has not processed the next write, is counted for it if and only if that write has at most 37 (j - 1) bytes less its offset at attaching |
| `Acknowledgements.ThirdWaitMiscounts` | app/commands.go:386-432 | a reachable state in which that happens |
| `Acknowledgements.LateJoinerUncounted` | app/server.go:316-317 | a replica that attached at a positive offset is counted only after enough GETACKs |
| `Convergence.ReplicaConverges` | app/server.go:321-353 | a replica with the master's initial data has its data after some of the calls and, within an EXEC, some of its commands, and after all of them once its connection is drained; the calls are those of a durable run |
| `Convergence.ExecutedIsReplay` | app/server.go:350-352 | a replica executes what a replay of the same commands does |
| `Propagation.HandlerSendsWrites` | app/commands.go:115-120 | what handlers propagate is a named command other than REPLCONF |
| `Replication.AckArrives` | app/commands.go:366-384 | the replica's answer, parsed by the master, records its offset |
| `Replication.GetAckLength` | app/commands.go:411-412 | a GETACK has 37 bytes |
| `TextCommands.SetEX` | app/commands.go:133-157 | SET k v EX n outside a transaction: the deadline of k is the present plus n times 10^9 nanoseconds if and only if that product fits int64 |
| `TextCommands.SetPX` | app/commands.go:133-157 | the same of PX n and n times 10^6 |
| `TextCommands.SetDeadline` | app/commands.go:469-489 | after a SET its key has a deadline if and only if the fourth argument is EX or PX in any case and the fifth is a number; a SET of three has none |
| `TextCommands.SetElsewhere` | app/commands.go:469-489 | a SET changes no other key and no other deadline |
| `TextCommands.GetAnswers` | app/commands.go:492-505 | GET answers the stored text, null for a missing key and for one whose deadline has passed, which it removes |
| `TextCommands.SetThenGet` | app/commands.go:469-505 | SET k v EX n, then GET k by anybody outside a transaction: v up to n seconds later and null after them |
| `TextCommands.CleanFrom` | app/storage.go:156-169 | a cleanup removes a key from its deadline on and not before |
| `TextCommands.IncrCounts` | app/storage.go:529-560 | INCR answers and stores one more than the number the key held, 1 for a missing key, the smallest int64 after the largest; its deadline stays; what is no number is refused and left |
| `TextCommands.IncrRun` | app/storage.go:529-560 | n INCRs of one key by anybody count from the number it held, each answering the next, up to the largest int64 |
| `TextCommands.WrapIsModular` | app/storage.go:548-552 | int64 addition differs from the sum by a multiple of 2^64 |
| `ListCommands.RPushAppends` | app/commands.go:560-611 | RPUSH on a key nobody waits for: the list followed by the values in order |
| `ListCommands.LPushPrepends` | app/commands.go:507-558 | LPUSH: the values in reverse order followed by the list |
| `ListCommands.PushAnswers` | app/commands.go:507-611 | a push answers the length of the list before it plus the number of values, those handed to waiters among them, and is logged |
| `ListCommands.PushServesFirst` | app/commands.go:507-611 | while clients wait, LPUSH and RPUSH send the first values to them in order, one each, and push the others alone |
| `ListCommands.LPopTakes` | app/commands.go:676-715 | LPOP with a positive count: what is answered followed by what stays is the list, and the smaller of count and length is answered |
| `ListCommands.RPopTakes` | app/commands.go:717-741 | RPOP: what stays followed by the answered value is the list |
| `ListCommands.PopsNothing` | app/commands.go:676-741 | LPOP and RPOP of a missing, expired or empty key answer null, of another type or with a count below one an error; nothing is stored or logged |
| `ListCommands.RPushThenRPop` | app/commands.go:560-741 | RPUSH of one value and then RPOP answers the value and gives the list back |
| `ListCommands.BLPopTakes` | app/commands.go:761-782 | BLPOP on a list with values takes the first and removes an emptied key; otherwise its channel is last in the queue |
| `SetCommands.ZAddUpdates` | app/commands.go:876-902 | ZADD of pairs that parse: a member has the score of its last pair, or the one it had; the answer is the growth of the set |
| `SetCommands.ZAddOtherType` | app/storage.go:280-305 | ZADD on another type changes nothing and answers 0 |
| `SetCommands.ZRemTakesOut` | app/commands.go:970-989 | ZREM: exactly the named members go, an emptied set goes, the answer is the number gone |
| `SetCommands.StringLessIs` | app/storage.go:326-333 | the order of members is that of the first byte in which they differ, a prefix first |
| `SetCommands.BeforeIs` | app/storage.go:326-333 | nodes are ordered by score, infinities at the ends, and by member between equal scores |
| `SetCommands.RangeIs` | app/storage.go:338-369 | indices from the front or from the back, within the set: the members between them, both included |
| `SetCommands.RangeClamps` | app/storage.go:338-369 | indices beyond both ends give every member, a start behind the end nothing |
| `StreamCommands.RangeWhole` | app/storage.go:810-834 | XRANGE - + of an ordered stream is the whole stream |
| `StreamCommands.RangeOfMillis` | app/storage.go:810-834 | XRANGE a b with milliseconds only: exactly the entries with a <= ms <= b, in order |
| `StreamCommands.RangeOfIDs` | app/storage.go:767-805 | XRANGE between full IDs: exactly the entries from the one to the other, both included |
| `StreamCommands.ReadFromMillis` | app/storage.go:810-874 | XREAD from milliseconds a: exactly the entries above a-0 |
| `StreamCommands.ReadFromID` | app/storage.go:837-874 | XREAD from a full ID: exactly the entries after it |
| `StreamCommands.ReadErrors` | app/storage.go:767-874 | when each of the two answers which error: XRANGE looks at the key first, XREAD at the ID |
| `StreamCommands.XReadAnswers` | app/storage.go:837-874 | XREAD of several keys answers if and only if every one of them does, each key as named last |
| `StreamCommands.XReadFirstError` | app/storage.go:837-874 | otherwise it gives the error of the first that does not |
| `StreamCommands.XAddGenerates` | app/storage.go:694-738 | XADD with `*` or `ms-*`: the clock's or the given milliseconds, with the next sequence number of the top's milliseconds or 0; refused below the top |
| `StreamCommands.XAddTakes` | app/storage.go:717-738 | XADD of a full ID stores it if and only if it is above the top and not 0-0, and says which of the two it is not |
| `StreamCommands.XAddThenRange` | app/commands.go:1200-1242 | XADD of a full ID and then XRANGE id id answers exactly that entry with its fields |
| `StreamCommands.IDText` | app/storage.go:41-56 | an ID is its milliseconds, a dash and its sequence number, and is read as these |
| `CommandNames.SameUpToCase` | app/commands.go:161-172 | command names that agree letter by letter up to case are the same command |
| `CommandNames.TooShort` | app/commands.go:469-1242 | a command too short for its kind is refused with one error; nothing changes, nothing is logged |
| `CommandNames.OutOfPlace` | app/commands.go:1066-1159 | EXEC and DISCARD outside a transaction, MULTI and WATCH inside one: one error, nothing changes |
| `CommandNames.OnlyBLPOPLogs` | app/commands.go:744-782 | of the commands whose handlers are left out BLPOP alone is logged |
| `CommandNames.MomentIs` | app/commands.go:1111-1116 | the i-th command that an EXEC runs reads the clock i readings later and finds nothing else different |
| `TransactionCommands.MultiOpens` | app/commands.go:1066-1083 | MULTI opens an empty queue and changes nothing else |
| `TransactionCommands.QueuesOthers` | app/commands.go:205-218 | in a transaction every named command but MULTI, EXEC, DISCARD, WATCH and QUIT joins the end of the queue, is answered QUEUED and changes nothing else |
| `TransactionCommands.WatchNames` | app/commands.go:1139-1159 | WATCH adds the client to the watchers of exactly the keys it names |
| `TransactionCommands.ExecRefuses` | app/commands.go:1099-1107 | EXEC of a client with a conflict answers null, drops queue, watches and flag, and runs nothing |
| `TransactionCommands.DiscardDrops` | app/commands.go:1121-1137 | DISCARD drops the same and answers OK |
| `Departure.RemovesOne` | app/storage.go:244-261 | leaving a queue takes exactly one occurrence of the channel out of it |
| `Departure.KeepsOrder` | app/storage.go:248-254 | it is the first one, wherever it stands, and the others keep their order |
| `BlockingLists.LeavesForGood` | app/commands.go:785-797 | a BLPOP whose time is over is in the queue of its key no more |
| `Deliveries.LeftForGood` | app/commands.go:785-797 | a client that left the only key it waited at waits nowhere in any later state of any run: nothing is handed to it |
| `Deliveries.TimeoutLosesValue` | app/commands.go:784-797 | a value handed over between the timeout and the leaving is lost: it stays in the channel of a client that has answered null |
| `LeavingQueues.LeavesNothingBehind` | app/commands.go:1446-1469 | over every run: a blocking XREAD that was woken, timed out or failed and then answered waits in no queue, however its keys repeat |
| `LeavingQueues.AnswersAndStays` | app/commands.go:1425-1444 | one whose first read finds something answers at once and leaves no queue: at every key it still waits or its channel holds a token |
| `LeavingQueues.BlockZeroWaits` | app/commands.go:1446-1469 | BLOCK 0 never answers null |
| `LeavingQueues.TimesOut` | app/commands.go:1446-1469 | another timeout answers null once the client has left its keys |
| `Restart.ServeRun` | app/commands.go:115-129 | after any run of client calls the file has grown by the encoded persisted commands of the run if it is kept and not at all otherwise; the master's offset has grown by their bytes, and each replica was sent exactly them |
| `Restart.RunAndRestart` | app/aof.go:11-46 | a run of a server with an empty file, and a new server with the same data that replays this file: both hold the same data, and the replay ends cleanly |
| `Restart.RunAndCrash` | app/aof.go:27-43 | the same with the file cut at any byte: the new server holds the data the old one had at some moment of the run |
| `Restart.SetsAreLogged` | app/commands.go:115-129 | a run of plain SETs logs exactly its commands, in order |
| `Restart.SetsAreDurable` | app/aof.go:11-46 | and is a durable run |
| `Restart.PropagatesAll` | app/server.go:70-82 | propagating commands adds their bytes to the offset and to the stream of every replica, and nothing to anybody else |
| `Wire.SetBytes` | app/aof.go:194-221 | the bytes of SET k v in the file, literally |
| `Wire.GetAckBytes` | app/commands.go:411-412 | the bytes of a GETACK, literally |
| `Wire.BulkHeader` | app/resp.go:46-71 | for every length: null, the panic below -1, the end-of-file errors, or the bytes it says, with any two bytes skipped |
| `Wire.ArrayHeader` | app/resp.go:13-44 | for every count: null, nothing for 0 and other negative counts, or that many values |
| `Wire.LineHeaders` | app/resp.go:73-105 | simple strings, errors and integers with any text after them |
| `Wire.BadHeader` | app/resp.go:13-105 | a header that is no number is an error |
| `Wire.OtherHeaders` | app/resp.go:107-128 | every other first byte is an error, a header without an end of line an end of file |
| `Wire.AtoiExactly` | app/resp.go:19-24 | a number is an optional sign and digits whose weighed sum fits int64, and nothing else is |
| `Wire.FormatDigits` | app/aof.go:196-198 | a number is printed digit after digit |
| `Wire.TrimSpaceIs` | app/resp.go:19-20 | trimming takes the white space at both ends and nothing else |
| `Wire.SplitJoins` | app/storage.go:42-46 | splitting is undone by joining and no part holds the separator |
| `Wire.CompleteIs` | app/aof.go:27-43 | the complete commands of a cut file are the longest prefix whose bytes fit |
| `Wire.EndsWhere` | app/aof.go:27-34 | replay ends cleanly at an end of file and at the error line EOF only |
| `Wire.ReplicaLeaves` | app/server.go:53-67 | a replica that leaves is forgotten once, with its acknowledgement; nothing else changes |
| `Wire.ReplconfIs` | app/commands.go:366-384 | an ACK records its number for its connection alone and is not answered; any other REPLCONF is answered OK |
| `Geohash.KnownCells` | app/geo-coordinate-helper.go:39-47 | which way both axes run, at three points |
| `Manager.ReplicationManager.RemoveReplica` | app/server.go:53-67 | removes its first occurrence and its offset, and nothing else |
| `Manager.ReplicationManager.Propagate` | app/server.go:70-82 | counts the payload once and writes it to every replica, and nothing else |
| `Manager.ReplicationManager.BeginWait` | app/commands.go:386-415 | answers at once or takes the snapshot and writes one GETACK to each of its replicas, without counting it |
| `Manager.ReplicationManager.PollWait` | app/commands.go:419-437 | answers when enough replicas of the snapshot have acknowledged or time is over |
| `StoreClass.Store.LPush` | app/storage.go:199-223 | prepends the values reversed |
| `StoreClass.Store.CleanUpExpiredKeyWaiter` | app/storage.go:244-261 | removes the first occurrence of the channel |
| `StoreClass.Store.ZRem` | app/storage.go:416-447 | removes exactly the named members, counts each once, deletes an emptied set |
| `StoreClass.Store.Watch` | app/storage.go:621-632 | adds the client to the watchers of every key |
| `StoreClass.Store.Unwatch` | app/storage.go:635-647 | removes the client everywhere and drops keys nobody watches |
| `StoreClass.Store.XAdd` | app/storage.go:669-763 | chooses the ID, appends, marks and notifies |
| `StoreClass.Store.NewEntryID` | app/storage.go:679-738 | which ID is stored for a request, or which error |
| `StoreClass.Store.NotifyWaiters` | app/storage.go:751-760 | every waiter gets the ID and none stays |
| `StoreClass.Store.XRange` | app/storage.go:767-805 | entries between the two IDs, or the error |
| `StoreClass.Store.XRead` | app/storage.go:837-874 | the first error, or the entries of every key |
| `StoreClass.Store.HandOff` | app/commands.go:586-599 | the locked loop that serves waiters and keeps the rest |
| `ServerClass.Server.HandleZADD` | app/commands.go:876-902 | all pairs, or those before the first bad score; state, log, propagation and replies as specified |
| `ServerClass.Server.HandlePush` | app/commands.go:507-611 | LPUSH and RPUSH: waiters first, then the list; state, log, propagation and replies as specified |
| `ServerClass.Server.HandleLPOP` | app/commands.go:676-715 | counts, missing keys, other types; state, log, propagation and replies as specified |
| `ServerClass.Server.HandleXADD` | app/commands.go:1200-1242 | argument checks, type check, append; state, log, propagation and replies as specified |
| `ServerClass.Server.HandleEXEC` | app/commands.go:1085-1119 | abort, empty queue, or the queued commands in order; state, log, propagation and replies as specified |
| `ServerClass.Server.HandleData` | app/commands.go:220-309 | the dispatch of data commands; what a handler that is left out does to the store, whether BLPOP is logged and propagated, and the answer are a parameter; state, log, propagation and replies as specified |
| `ServerClass.Server.HandleCommand` | app/commands.go:161-309 | the transaction gate and the dispatch, for a client; state, log, propagation and replies as specified |
| `ServerClass.Server.HandleWithoutClient` | app/commands.go:161-309 | the same without a client: the log stays as it is |
| `ServerClass.Server.ReplayAOF` | app/aof.go:11-46 | replays what the reader gives until its first error, clean if that is an end of file or an error line that reads EOF; the log stays as it is |
| `ServerClass.Server.CloseConnection` | app/conn.go:27-34 | the end of a connection clears its transaction, watches and replica entry |
| `ReplicaLoop.Replica.Round` | app/server.go:321-353 | one round of the replica's loop is one replica step of the protocol |

## Left out

- Connections, buffering, file creation, fsync, manifests, logging, flags and configuration: a connection and the log are byte sequences.
- Failing writes, among them the early return of BLPOP that keeps the lock: writes succeed.
- AUTH, ACL, CONFIG, INFO, KEYS, TYPE, ECHO, PING, LRANGE, LLEN, ZCARD, ZSCORE and the handlers of the read commands: short bodies over modelled operations. In `Commands` they are of kind `Outside`: `Env.leftOut` says which critical sections they take and what they answer, and the theorems hold whatever it says.
- Publish and subscribe: two set indexes, delivery is input and output.
- The RDB loader: the repository has no writer to relate it to.
- GEODIST, GEOSEARCH and the haversine formula: library trigonometry.
- IEEE rounding: coordinates and scores are reals with infinities and NaN; only the 2^53 bound is a float64 fact. strconv.ParseFloat is a parameter.
- BLPOP in a transaction or replay. Of its timeout the model has the leaving of the queue, at any moment, and not the clock.
- The text of errors of strconv and of the writer's prefixes (`-ERR`); non-ASCII case mapping and white space; memory exhaustion by a huge bulk length.
- Slices that share memory after LPOP, RPOP and append: lists are values.
- A second PSYNC on one connection, and ACKs that do not come from a replica's loop.
- What the process would do after a panic: a reply `Crash` ends it, and runs do not stop there.
- Commands.ExecGET: one step for the lookup and the delete, which the code does in two critical sections; `Expiry.SplitRunsRefine` is about the two.
- Transactions.TransactionIsDeferred: a command of `Commands.OUTSIDE` is any run of critical sections of the store in one step, without transaction or watch; of BLPOP only what it does at once, not its wait.
- ServerClass.Server.HandleData: of a handler that is left out, its parameter covers the store, the log and the answer, not the replication manager.
- Expiry.GetIsTimedRead: at the very instant of the deadline either answer is allowed, because GET deletes strictly after it and the cleanup goroutine at it.
- SortedSets.GetSortedZSetNodes: sort.Slice is modelled by insertion in an arbitrary iteration order; where the scores can be compared the result is the only sorted one, and with a NaN score beside another only that every member is there once.
- SortedSets.ZRank: with a NaN score beside another member only that the result is some place.
- SortedSets.ZRange: with a NaN score beside another member the list the interval is of is not determined.
- Geohash.StoredScoreExact: a pair of numbers; `AcceptedScoreExact` adds NaN, whose conversion to uint32 the language leaves open.
- Geohash.DecodeEncode: a pair of numbers, over real arithmetic.
- Aof.CrashGivesEarlierData: the data is that of a moment of the run, which may lie within an EXEC; `HalfTransaction` shows that it does.
- LogOrder.ReplayFollowsOrder: SET without a time to live only.
- PopWindow.PushIsLost: an RPUSH as the last touch.
- GeohashOrder.InterleaveShifts: a shift by j is j shifts by one bit.
- Acknowledgements.WaitIsSound: only under its bound on the acknowledgements; `CountedExactly` and `StaleAckIsCounted` say exactly what is counted beyond it, `ThirdWaitMiscounts` reaches such a state.
- BlockingRead.NoLostWakeUp: for the last occurrence of a repeated key only; `RepeatedKeys.WakeUpsExactly` shows that no other has the property.
- Watching.CleanMeansUnchanged: one direction, because a write may store the same value again; `DirtyExactly` is the exact statement about marking.
