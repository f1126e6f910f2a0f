# Verification of the DHT node

A Dafny model of a ring DHT. Every node owns an interval of the 256-value hash space, stores the entries
that hash into it, and forwards everything else to its successor. Nodes join by circulating a `NET_JOIN`
token that finds the largest range, and leave by handing their range to a neighbour. The node exists
twice, in C and in Rust; both are modelled. `dafny verify dfyconfig.toml` checks everything.

The repository's README promises that no data is lost as nodes join and leave, and that the load is
balanced. Here the first is a theorem about keys in every guarded run, whatever overlaps
(`NetTheorems.NoDataLoss`, `NetSafety.NothingLost`); about values it holds exactly as long as no request overtakes a transfer of its
key (`NetAnswers.MapIffNotOvertaken`). The second is a theorem about serial runs of joins and requests
without leaves (`NetRounds.LoadBalance`).

## How the model is built

| layer | files | form |
|---|---|---|
| hash, ranges, stores as values | `Base` `Hash` `Ranges` `StoreSpec` | functions; `digest` and `hash_ssn` are the loops of the source, in 32-bit words |
| one node's storage | `HashTable` `Storage` | classes on the heap: 256 buckets of linked nodes, and the parallel `ssns[]` array |
| one node | `NodeSpec` `CNode` `RustNode` | each handler as a function from node and message to node and effects; classes whose methods are proved to do the same, or exactly when they do |
| the ring | `Ring` `RingWalk` | shapes of rings, insertion and removal, routing, the walk of the token, balance |
| the network | `Network` `NetViews` | a step system: nodes, FIFO streams per TCP link, listening backlogs, a bag of UDP packets, a scheduler that picks any enabled event |
| from sockets to steps | `NetLog` | the log of a node's socket operations, played on the network, is the step of the system |
| whole runs | `NetInv` ... `NetRoundTrip`, `NetGuard` | the inductive invariant, what it means to an observer, the theorems about runs, and the exact condition for them |
| sums over what is in flight | `NetSum` `NetLoad` `NetDistance` | what each event does to a weighted sum over all messages on their way, and how far each still has to go |
| answers while joins are in progress | `NetBooks` `NetHand` `NetAsk` `NetAnswers` `NetOvertake` | each entry is stored once or on its way once; the answers are those of a map; the exact condition, and a run that breaks it |
| outcomes | `NetOutcome` | what a join and a leave come to, in the fields of the nodes |
| ends of runs | `NetDrainLeave` `NetDrainJoin` `NetDrain` `NetShrink` `NetEnds` | how many events a join or a leave takes, whatever the schedule, and that everything ends when joins overlap |
| which runs there are | `NetReach` `NetOverlap` | every join and leave can be run to its end, rings of every size come about, and overlapping joins break the guard |
| the wire | `Pdu` `Utf8` `PduReader` `Codec` `Layout` `Stream` `Dispatch` `Wire` | the PDU formats by number, the Rust parser and its reassembly buffer, the C dispatch loop, and the messages of the network model as bytes |

`Network.Do` runs the functions of `NodeSpec`; `CNode.SelfData` has the fields of `struct self_data`, and
each of its methods is proved to leave the node, and to write to the sockets in order, exactly what the
function of `NodeSpec` says (`Does`); `NetLog.StepIsLog` proves that those writes, one after the other, are the
step of the network. So the theorems about runs are about the handlers as they update
their fields, their table and their key array in place, for as long as no node has to hold more than the 256
keys its array has room for; the step system does not bound that number. A handler's `accept` is a separate
event: the node is blocked (`AwaitPred`, `Joining`) until a connection waits in its backlog.

The invariant of normal operation (`NetInv.Normal`) says, for some ring shape: every member has the range
the shape gives it, or finds that range first in its stream as the answer to its join; every stored key is
in its holder's range; what a member can still read from its predecessor side is a pipe of distinct
connections of requests, entries and tokens, each ending in `NET_CLOSE_CONNECTION` but the one its ring
predecessor still writes to, which is last; and every unanswered joiner has at most one `NET_JOIN`, at a
known place. A leave is three further phases: the range offered, the answer in flight, and a tail in which
entries, `NET_CLOSE_CONNECTION` and `NET_LEAVING` are read in any order.

## Scope

- Node identities are unique, and 0 is nobody's (a joiner's token carries 0 as the largest node).
- TCP links are FIFO and lossless; UDP packets are delivered in any order, at any time, once.
- Any number of joins and client requests may overlap, as long as each split is of more than one value
  (`GuardedRun`). `NetRuns.OneJoinNeedsNoGuard` proves that with at most one join outstanding this holds
  by itself, `NetGuard.TiledIffGuarded` that it is exactly what tiling needs, and `NetOverlap.OverlappingJoins`
  gives a run of eight overlapping joins in a ring of two that breaks it.
- A leave starts in a quiet network, and requests and joins wait until it has drained: the leaver takes
  every PDU but the awaited answer for an error (src/c_node.c:643-668, resources/TestNode/src/bin/node.rs:457-460).
- Keys are 12 bytes without NUL, because `strncmp` stops at one; a node has room for 256 keys.
- Stored values follow the C node, where a duplicate insert overwrites.
- What a client sees while nodes join is a matter of order: a joiner takes requests from its UDP socket while
  entries shipped to it still wait on its predecessor socket. `NetOvertake.OldValueReturns` is a run in which
  an entry that was replaced, or removed, comes back. `NetAnswers.MapWhileJoining` says that the answers and
  the contents are those of a map if requests are sent one at a time, at any time and with any number of
  joins in progress, and none overtakes a transfer of its key; for each request this is exact.

Where the code differs from what is written about it, or from what a reader would expect, the model
follows the code:

- `check_range` is documented to return -1, 0 or 1 (src/hash_handling.h:74-77) and returns 0 or 1.
- The C node sends nothing for a lookup of an absent key; the Rust node answers with
  an empty record; `RustNode.Node.HandleValLookup` has the exact condition (resources/TestNode/src/bin/node.rs:885-925).
- `offset` in the dispatch loop is a `size_t`: the test `offset < 0` never holds, and `offset = -1` ends
  the loop only because the value exceeds `bytes_received` (src/c_node.c:334-409).
- Parsing a `VAL_LOOKUP_RESPONSE` rewrites its type byte to that of `VAL_LOOKUP`
  (resources/TestNode/src/pdu.rs:857-870).
- A record cut between name and e-mail length makes the Rust parser panic (resources/TestNode/src/pdu.rs:735);
  `Stream.Reassembly` says this happens exactly for such cuts. At the same cut the C node reads the e-mail
  length without a test, one byte past the buffer if `recv` has filled it (src/c_node.c:42-60);
  `Dispatch.HandleValInsert` has the exact condition. A completely full buffer makes `try_read` report a closed
  connection (resources/TestNode/src/socket_wrapper.rs:54-84).
- The two implementations differ on a split of the range [255, 255]. C wraps, answers with [0, 255] and keeps
  its entries. Rust panics in a build with overflow checks; the documented build has none
  (resources/TestNode/README.md:4), and there it wraps too and gives all entries away.
  `RustNode.Node.HandleNetJoin` has the exact condition for each build, and `NetGuard.LastRangeNotSplit` proves
  that no guarded run, and no event after one, makes a node split that range.
- `ValInsertPdu::new` truncates UTF-8 lengths to a byte, so names that are not ASCII, or are longer than 255,
  are not delimited correctly; `Codec.NewInsertIff` has the exact condition.

## Model

| member | source | states |
|---|---|---|
| NetTheorems.NoDataLoss | src/hash_handling.c:44-93 | No data loss over whole runs: after any interleaving of requests, joins and leaves, a key that was inserted and never targeted by a remove is stored at a node or carried by a `VAL_INSERT` |
| NetTheorems.OnlyInsertedData | src/hash_handling.c:264-297 | No data is made up: every value stored or in flight in a reachable state is one that a client inserted under that key |
| NetTheorems.InvData | src/c_node.c:119-262 | Every single step, of any kind, keeps every stored-or-in-flight key unless it hands a remove of it to a node, and creates no copy that was not there |
| NetData.PresentIff | src/hash_handling.c:328-369 | What "stored or in flight" means: in the table of a node, or in a `VAL_INSERT` on a link or in a UDP packet |
| NetData.SplitCopies | src/hash_handling.c:205-262 | A split moves copies and nothing else: a key-value pair is stored or in flight after it exactly if it was before |
| NetTheorems.InvStep | src/c_node.c:119-262 | The invariant (normal operation, or one of the three phases of a leave) is inductive, and no step takes an error exit or meets an unexpected PDU |
| NetTheorems.ReachableSafe | src/c_node.c:147-150 | In no reachable state can any next event, guarded or not, drive a node into `exit_with_error`; in particular the branch marked as impossible is never taken |
| NetCore.NormalStep | src/c_node.c:119-201 | Every event while nobody leaves takes a ring shape with its tokens to one, and the ring only grows by joiners |
| NetCore.HandlePlainOk | src/c_node.c:152-200 | A message taken by a running member is handled without fault; the ring changes exactly if it is a token that names the member, and then by the joiner directly behind it |
| NetSafety.ReachableTiled | src/hash_handling.c:183-217 | Range tiling in every reachable state: with an unread `NET_JOIN_RESPONSE` counted as the joiner's range and a departing range counted once, the ranges are non-empty, contiguous and cover 0..255 without overlap; and every key in a table is in the key array and hashes into its holder's range |
| NetSafety.NothingLost | src/hash_handling.c:44-93 | No data loss, once a run has drained: a key that was inserted and never targeted by a remove is stored at exactly one node, the one in whose range it hashes |
| NetSafety.TiledOwner | src/hash_handling.c:174-181 | What tiling is for: every hash value lies in the range of exactly one node |
| NetSafety.RangesTile | src/c_node.c:569-570 | The tiling, from the invariant, in each of its four phases |
| NetSafety.StoredAtHome | src/hash_handling.c:174-181 | In every state of the invariant keys are at home, tables and key arrays agree, and a node outside the ring stores nothing |
| NetSafety.DrainedLinks | src/c_node.c:124-176 | Whenever a run has drained, successor and predecessor sockets are inverse and form one cycle through all nodes in range order, and every stored successor address is that of the next range's owner |
| NetLeave.QuietIsClean | src/c_node.c:246-262 | In normal operation a quiet network is a clean ring: nobody waits in an accept, no connection is left over, all links are those of the ring |
| NetSafety.NeverStuck | src/c_node.c:246-262 | If nothing can be read and no accept can return, all streams are empty and every member is in its main loop |
| NetRuns.NoDeadlock | src/c_node.c:152-200 | After any run something can make progress or everything has drained, unanswered joiners included: their tokens are still travelling |
| NetEnds.EverythingEnds | src/c_node.c:152-200 | Nothing goes on for ever: from every reachable state with at most 256 nodes, joiners included, and with any number of joins and requests or a leave in progress, guarded runs in which nobody starts anything are bounded in length; and a state that cannot go on has drained, with every joiner in its place |
| NetEnds.ComesToRest | src/c_node.c:152-200 | So from each such state some such run leads to a drained network, or to a split of one value |
| NetEnds.FullRingGoesRound | src/c_node.c:177-200 | The bound of 256 is exact: a further join into a ring of 256 nodes has guarded runs of every length |
| NetEnds.ShrinkStep | src/c_node.c:119-262 | Every event that nobody from outside starts decreases one number: the ways that all messages in flight still have to go, the accepts and answers that are due, and what the splits to come can put on its way |
| NetDistance.TokenNearer | src/c_node.c:177-190 | A token that a node passes on is nearer to the node it names, or names a larger span, as long as some node can split |
| NetDistance.RequestNearer | src/hash_handling.c:31-38 | A request that a node does not own is nearer to the owner when it is forwarded |
| NetRuns.OneJoinNeedsNoGuard | src/c_node.c:152-176 | With at most one join outstanding no node is ever made to split a range of one value, whatever requests and leaves happen around it |
| NetTokens.NormalFlow | src/c_node.c:177-200 | No step loses or invents a `NET_JOIN`; one that is taken and not passed on is nowhere any more; and ranges change only in a split |
| NetTokens.OneTokenPerJoiner | src/c_node.c:536-551 | In normal operation no joiner has two different tokens in flight |
| NetTokens.TruthGuards | src/c_node.c:152-190 | A token that truthfully carries the span of the node it names is only answered by a node that can split |
| NetTokens.TruthStep | src/c_node.c:177-190 | With one join outstanding tokens stay truthful in every step |
| NetTokens.NoTokenAfterSplit | src/c_node.c:152-176 | Once the only outstanding join is answered, its token is gone |
| NetTokens.AliveStep | src/c_node.c:536-553 | Every unanswered joiner's token is somewhere in the network, in every step |
| NetGuard.TiledIffGuarded | src/hash_handling.c:210-217 | After any guarded run the next event, whichever it is, leaves ranges that tile the hash space if and only if it makes no node split a range of one value |
| NetGuard.LastRangeNotSplit | resources/TestNode/src/bin/node.rs:727-733 | No guarded run, and no event after one, makes a node split the range [255, 255], on which the two implementations differ |
| NetOverlap.OverlappingJoins | src/c_node.c:152-176 | In a ring of any two nodes eight overlapping joins come to a state in which the next event splits a range of one value, after which nothing tiles |
| Ring.SplitOkIff | src/hash_handling.c:210-217 | Inserting a joiner behind a node and halving that node's range gives a ring again if and only if the range held more than one value |
| RingWalk.AnswerIsUpperPartIff | src/c_node.c:152-176 | A node named by a token answers with a non-empty upper part of its range, adjacent to what it keeps, if and only if it has more than one value; from [255, 255] it answers with a range that starts at 0 |
| Ring.InsertionOk | src/hash_handling.c:205-217 | Splitting a range of more than one value keeps tiling, order and neighbour relations |
| Ring.RemovalOk | src/c_node.c:639-662 | Giving a leaver's range to its successor if it starts at 0, otherwise to its predecessor, keeps tiling, order and neighbour relations |
| Ring.JoinThenLeaveRestores | src/c_node.c:639-662 | If the newest joiner leaves at once, its heir is the node that split for it, and the shape of the ring is the old one |
| Ring.OwnerUnique | src/hash_handling.c:174-181 | On tiled ranges no hash value has two owners |
| Ring.AloneIff | src/c_node.c:255-256 | The test for being the last node is right: a member owns 0..255 if and only if it is the only one, and if and only if it is its own neighbour |
| RingWalk.Routing | src/hash_handling.c:31-38 | Exactly one node accepts a key; a request that enters anywhere is forwarded by every node before the owner and by no other, at most n - 1 times |
| RingWalk.TokenStops | src/c_node.c:152-200 | The token stops at the first node of maximal span in visit order, at ring distance j, after exactly n + j <= 2n - 1 forwards and at no earlier one |
| RingWalk.TokenStopsIff | resources/TestNode/src/bin/node.rs:464-566 | The token is answered some time if and only if some node can split; otherwise it goes round for ever |
| RingWalk.HandlerAgrees | src/c_node.c:152-200 | The walk is what the handler does: at each node it splits where the walk stops, and otherwise only forwards the walk's next token |
| RingWalk.RoomIff | src/hash_handling.c:210-217 | A tiled ring has at most 256 nodes, and one that can split if and only if it has fewer |
| RingWalk.SplitKeepsBalance | src/c_node.c:177-190 | Splitting a largest range keeps all sizes at 2^k or 2^(k+1) for some k |
| RingWalk.BalanceBounds | resources/TestNode/src/bin/node.rs:727-733 | In a balanced ring of n nodes the size of any range times n is below 512 |
| NetRounds.LoadBalance | src/c_node.c:177-190 | Load balance over whole runs: after any serial run of joins and requests all ranges hold 2^k or 2^(k+1) values, and the largest times the number of nodes is below 512 |
| NetRounds.StopIsFirst | src/c_node.c:152-176 | A token that is answered for the first time has been passed on n + d times, and the node that answers is the first maximum, at distance d |
| NetRoundTrip.RequestTravels | src/hash_handling.c:31-38 | Whatever the scheduler does, a request in a quiet ring is handled at its owner by the event after Hops <= n - 1 forwards, and answered from the map |
| NetRoundTrip.JoinDrained | src/c_node.c:119-201 | A join that has drained leaves a clean ring with the joiner directly behind the first node of maximal span |
| NetRoundTrip.LeaveDrained | src/c_node.c:621-697 | A leave that has drained leaves the clean ring without the leaver, its range at the heir |
| NetOutcome.JoinOutcome | src/c_node.c:152-200 | In the fields of the nodes: a node that had a largest range keeps its lower half, the joiner has the upper half and the place behind that node, and every other node has range and neighbours as before, but for the new predecessor of the old successor |
| NetOutcome.LeaveOutcome | src/c_node.c:639-689 | In the fields of the nodes: the leaver is gone, its range is an end of its heir's, its neighbours are linked to each other, the last two become one without links, and every other node is as before |
| NetRoundTrip.LeaveOrderIrrelevant | src/c_node.c:222-262 | After any drained serial run, `NET_CLOSE_CONNECTION` and `NET_LEAVING`, and the entries before them, may be read in any order: all drained ends of a leave have the same nodes with the same ranges, links and entries |
| NetRoundTrip.LastNodeAlone | src/c_node.c:222-262 | Two nodes shrinking to one leave a node with range 0..255 and no links |
| NetRoundTrip.JoinThenLeave | src/c_node.c:639-697 | Join and leave undo each other after any drained serial run: if the newest joiner is the next to leave, every node gets back its range, links, successor address and entries |
| NetTail.TailStep | src/c_node.c:222-262 | Every step of the end of a leave, in any order, stays in that phase or has drained it, without fault |
| NetDrainLeave.LeaveEnds | src/c_node.c:621-697 | Every leave drains: under every schedule it takes at most 6 events, one more per entry of the leaver and one more if at least two nodes remain, and it has drained exactly when that many have happened |
| NetDrainLeave.TailShrinks | src/c_node.c:222-262 | Every event of the end of a leave decreases what is left of it by exactly one |
| NetDrain.JoinEnds | src/c_node.c:119-201 | Every join into a ring of n < 256 nodes drains: under every schedule the token takes n + d + 1 deliveries, d being the distance of the first node of maximal span, the relinking one event per entry shipped and four more, and the network is quiet again exactly then; if the ring is one node, the token takes one delivery and the relinking three events besides the entries |
| NetDrain.JoinIsAnswered | src/c_node.c:536-575 | Each of the first 255 joins is answered, and exactly when: in a ring of n < 256 nodes the token is passed on n + d times (not at all if n = 1), and the next delivery makes the first node of maximal span behind the entry node split for the joiner |
| NetDrainJoin.RelinkStep | src/c_node.c:536-589 | While a ring relinks after a split, every event decreases what is left of it by exactly one |
| NetReach.JoinCanEnd | src/c_node.c:536-589 | Every join that starts in a quiet ring of fewer than 256 nodes has a run to its end |
| NetReach.LeaveCanEnd | src/c_node.c:621-697 | Every leave that starts in a quiet ring has a run to its end |
| NetReach.JoinAndLeave | src/c_node.c:517-697 | The premises of the theorems about rounds can always be met: after any drained serial run that left fewer than 256 nodes any other node can join through any node and leave again, in rounds that are serial, guarded and drain; then every node is as it was |
| NetReach.RequestCanEnd | src/hash_handling.c:31-38 | After any drained serial run any client can send any request to any node, and it has a run to its end, with the map's answer and the map's entries |
| NetReach.OpenDoors | src/c_node.c:246-262 | While nobody leaves, every node of the ring takes requests and joins, also one that waits in an accept |
| NetReach.RingOfAnySize | src/c_node.c:119-201 | Any 1 to 256 nodes form a ring by some serial run |
| NetMap.RingIsAMap | src/hash_handling.c:3-172 | The ring is a map: in every serial run of requests, joins and leaves the answers clients get are exactly those of one map under the same operations, and each node holds exactly the map's entries of its range |
| NetMap.SerialStep | src/c_node.c:119-262 | Each step keeps the stored-or-in-flight entries equal to the map, and answers given plus answers due equal those the map gives |
| NetMap.AskingStep | src/hash_handling.c:163-181 | A request on its way is forwarded to the ring successor by a node that does not own the key, and handled and answered from the map by the one that does |
| NetAnswers.MapWhileJoining | src/hash_handling.c:3-172 | The ring is a map while nodes join: in a guarded run with any number of joins at any time, and requests at any time, one when the one before has been handled, of which none overtakes a transfer of its key, the answers are those of one map, and in the end each node holds the map's entries of its range |
| NetAnswers.MapIffNotOvertaken | src/hash_handling.c:44-93 | The condition is exact: whenever a client's request is handled in such a run, its answer and the copies in the network are those of the map if and only if no `VAL_INSERT` of its key is in flight besides |
| NetAnswers.SerialIsAsking | src/c_node.c:119-201 | Serial runs are such runs, so that the theorem contains that of serial runs |
| NetAsk.NormalAskStep | src/c_node.c:119-262 | Each event keeps the books: every entry of the map of the handled requests is stored at exactly one node or in flight exactly once, besides at most one client request |
| NetBooks.SplitBooks | src/hash_handling.c:205-262 | A split takes each entry it ships from the table and puts it on its way exactly once |
| NetBooks.OneHome | src/hash_handling.c:174-181 | While joins are in progress no key is stored at two nodes |
| NetOvertake.OldValueReturns | src/hash_handling.c:44-93 | The condition is needed: a run of ten events with two requests for a key, one after the other, of which the second, an insert of another value or a remove, is undone by the transfer it overtakes |
| StoreSpec.StoreOpsKeepAgreement | src/hash_handling.c:63-84 | Insert, overwrite, remove and split keep the key array a duplicate-free enumeration of exactly the table's keys |
| StoreSpec.InsideMembers | src/hash_handling.c:228-261 | A range divides the key array, in order, into the keys that hash into it and those that do not |
| NodeSpec.InsertsMembers | src/hash_handling.c:264-288 | The records sent for a list of keys are exactly one per key that has a value, with that value |
| HashTable.Table.Insert | resources/Hashtable/hashtable.c:65-121 | The table as a map is updated at the key; `length` grows exactly for a new key; a new key's node goes to the end of its bucket's chain, and all else stays; chains stay acyclic, free of duplicates and in their hash bucket, and `num_entries` grows exactly if the bucket was empty |
| HashTable.Table.Lookup | resources/Hashtable/hashtable.c:123-150 | The value the map has for the key, or none |
| HashTable.Table.Remove | resources/Hashtable/hashtable.c:152-202 | The map loses exactly the key, `length` counts it, the key's node is taken out of its chain and all else stays; `num_entries` shrinks exactly if the bucket becomes empty |
| HashTable.Table.Destroy | resources/Hashtable/hashtable.c:204-224 | Empties every well-formed table and terminates, its bucket index staying below 256 although the loop only tests `length` |
| HashTable.Table.EmptyBucket | resources/Hashtable/hashtable.c:208-216 | The inner loop, which removes the node it has just stepped past, empties one chain and touches no other |
| HashTable.Table.SomeChain | resources/Hashtable/hashtable.c:206-218 | A table with a non-zero length and its first i chains empty has another bucket: i < 256 |
| HashTable.Table.constructor | resources/Hashtable/hashtable.c:45-63 | A new table is well-formed and the empty map |
| HashTable.CountersUpdate | resources/Hashtable/hashtable.c:80-103 | How replacing one chain changes the number of nodes and of non-empty buckets |
| Storage.Entries.Insert | src/hash_handling.c:44-93 | An insert updates the map; the key array grows at its end exactly for a new key, and still enumerates the table |
| Storage.Entries.Remove | src/hash_handling.c:3-30 | A remove deletes the key from the map and closes its gap in the array, or changes nothing if it is absent |
| Storage.Entries.CloseGap | src/hash_handling.c:21-25 | Shifting the array left drops one element, keeps the order of the others, clears the last slot and leaves the slots behind it alone |
| Storage.Entries.TransferOutside | src/hash_handling.c:224-262 | Deleting while scanning sends each out-of-range entry exactly once in array order, keeps exactly the in-range ones, leaves table and array in agreement, terminates, and never takes the branch for a key that should exist |
| Storage.Entries.SendAll | src/hash_handling.c:264-297 | Every entry is sent once in array order, none is missing, and the table ends up empty |
| Storage.ScannedNext | src/hash_handling.c:228-260 | One round of the scan on the store as a value: the next key of the original array is under the index, and is kept or sent and deleted |
| Storage.WithoutAt | src/hash_handling.c:21-26 | Closing the gap at a key's index is deleting the key from the enumeration |
| NodeSpec.FaultIff | src/c_node.c:119-262 | The error exits, all of them: exactly the PDUs that the loop does not read, a PDU without a link to send it on, a token at a node with one neighbour link, and an offer by which no end of the range grows |
| CNode.SelfData.HandleNetJoin | src/c_node.c:119-201 | Node, table, key array and socket writes in order are those of the step system's join: both splits, the error exit, and both ways of passing the token on |
| CNode.SelfData.SendNewRangeAndEntries | src/hash_handling.c:205-262 | The node keeps the lower half and its entries; the response with the upper half and the old successor goes out before the entries of the upper half |
| CNode.SelfData.HandleNetNewRange | src/hash_handling.c:183-204 | The range grows at one end and the response goes to that side, or to the error exit if neither end grows |
| CNode.SelfData.HandleNetLeaving | src/c_node.c:222-239 | The successor link is closed, and replaced unless the new address is the node's own |
| CNode.SelfData.HandleNetCloseConnection | src/c_node.c:246-262 | The predecessor link is closed, and a new one awaited unless the node has the whole range |
| CNode.SelfData.HandleHtInsert | src/hash_handling.c:44-93 | In range the table maps the key to the value and nothing is written; otherwise the store is unchanged and the request goes to the successor unchanged |
| CNode.SelfData.HandleHtRemove | src/hash_handling.c:3-42 | In range the table loses the key and nothing is written; otherwise the store is unchanged and the request goes to the successor unchanged |
| CNode.SelfData.HandleHtLookup | src/hash_handling.c:125-172 | In range the log grows by one answer to the client, with the value of the table, if there is one and by nothing otherwise; out of range the request goes to the successor unchanged |
| CNode.SelfData.AnswerLookup | src/hash_handling.c:142-160 | The answer carries client, key and the value in the table, and is written exactly if the key is there |
| CNode.SelfData.CheckRange | src/hash_handling.c:174-181 | A key is in range exactly if its djb2 polynomial modulo 256, over all twelve bytes, lies between the ends of the range |
| CNode.SelfData.HandlePdu | src/c_node.c:332-410 | Each of the seven PDUs goes to its own handler: node and socket writes in order are those of the step system |
| CNode.SelfData.HandleJoinAnswer | src/c_node.c:555-589 | A joiner takes range and successor from the answer, connects, and starts with an empty table; any other PDU is fatal |
| CNode.SelfData.StartShutdown | src/c_node.c:621-656 | A node without neighbours exits at once; any other offers its range to the successor if it starts at 0, otherwise to the predecessor |
| CNode.SelfData.FinishShutdown | src/c_node.c:646-697 | The leaver writes all entries to the heir, and its table is empty; then, only if the answer was of the right type, `NET_CLOSE_CONNECTION` and `NET_LEAVING` |
| CNode.SelfData.constructor | src/c_node.c:517-527 | The first node has the whole range, no links and an empty table |
| CNode.GoodbyeIsFarewell | src/c_node.c:664-689 | On each of its two links, what the leaver writes is, in order, what the step system puts there; both take the error exit for the same answers |
| NetLog.StepIsLog | src/c_node.c:119-262 | The socket operations a handler logs, played one by one on the network from the node's own sockets, give exactly the step of the network, and leave the sockets connected as the new node says |
| NetLog.LogIsEmit | src/c_node.c:119-262 | The same for any effects that keep the books of the two sockets |
| NetLog.AnswersAreReplies | src/hash_handling.c:147-157 | For every node and outcome without fault, the answers in the log are the reply of the outcome, once, and none if it has none |
| NetLog.FaultIsExit | src/c_node.c:119-262 | A fault in the network is an `exit_with_error` in the log of the node the PDU is handed to, and nothing else |
| NetLog.GoodbyeIsDepart | src/c_node.c:664-689 | What the leaver writes, played in its order, is the departure of the network model |
| Ranges.SplitIsLegalIff | src/hash_handling.c:210-217 | In uint8_t arithmetic both halves are non-empty and adjacent if and only if the range has more than one value; the lower is the larger by at most one |
| RustNode.MergesAgreeIff | resources/TestNode/src/bin/node.rs:568-592 | For arbitrary ranges the two merges agree if and only if the offer starts below the node's range or right behind it |
| RustNode.MergesAgreeOnRing | resources/TestNode/src/bin/node.rs:568-592 | For every leaver of a tiled ring both merges extend the same end of the heir's range to the leaver's far end, and answer the side the leaver is on |
| RustNode.FilterIsScan | resources/TestNode/src/bin/node.rs:759-778 | Filtering the upper half and retaining the rest gives the same records in the same order, and the same remaining keys, as the C scan |
| RustNode.RetainIsKeep | resources/TestNode/src/bin/node.rs:776-777 | The retained entries stand for the store the C node keeps |
| RustNode.Node.Transfer | resources/TestNode/src/bin/node.rs:759-778 | The two passes send the entries of the range in order and retain exactly the others |
| RustNode.WithinMembers | resources/TestNode/src/bin/node.rs:759-778 | Every entry is in exactly one of the two passes, by its hash, and together they are as many as the list |
| RustNode.Node.SplitRange | resources/TestNode/src/bin/node.rs:727-733 | The halves are those of the C node, wrapping included, unless the build checks overflows and the range is [255, 255]; then it panics |
| RustNode.Node.HandleNetJoin | resources/TestNode/src/bin/node.rs:464-566 | On a node of a ring, q12 with q5, q13 and q14 panics exactly if the build checks overflows and [255, 255] has to be split; otherwise it leaves the node and the socket writes of the C handler if and only if it does not have to split that range or stores nothing |
| RustNode.WrappedSplit | resources/TestNode/src/bin/node.rs:759-778 | Of the range [255, 255] a wrapped split sends everything and retains nothing, where the C scan sends nothing, so that the stores agree if and only if both are empty |
| RustNode.Node.HandleNewRange | resources/TestNode/src/bin/node.rs:568-592 | q15 leaves the node and the answer of the C handler if and only if the offer starts below the node's range or right behind it |
| RustNode.Node.InsertInRange | resources/TestNode/src/bin/node.rs:870-874 | Pushing without looking for the key: every entry stays, in order and in front, and there is one more; the search finds for every key what it found before, and for the new key the new value only if it found none; the list stands for the C store if and only if the key was absent |
| RustNode.Node.HandleValInsert | resources/TestNode/src/bin/node.rs:870-883 | Node and writes are those of the C handler if and only if the key is out of range or not there yet; a panic exactly if it has to be passed on without a successor |
| RustNode.Node.HandleValLookup | resources/TestNode/src/bin/node.rs:885-925 | The loop answers with the value stored, or with an empty record under a key of zeros; that is the C handler's behaviour if and only if the key is out of range or there |
| RustNode.Node.HandleValRemove | resources/TestNode/src/bin/node.rs:927-939 | Node and writes are those of the C handler |
| RustNode.Node.Retain | resources/TestNode/src/bin/node.rs:930 | After a remove the search finds nothing for the key, and what it found before for every other |
| RustNode.Node.InMyRange | resources/TestNode/src/bin/node.rs:941-945 | The same test as that of the C node, on the polynomial over the key's twelve bytes |
| RustNode.LookupFinds | resources/TestNode/src/bin/node.rs:887-902 | In a list without duplicates the first entry with a key has the value of the store, and there is one exactly if the store has the key |
| RustNode.OthersRepresent | resources/TestNode/src/bin/node.rs:930 | Retaining the other entries represents the C store after its delete |
| Hash.Digest | resources/Hashtable/hashtable.c:32-42 | The wrapping 32-bit loop, with char signed or not, gives the 8-bit recurrence and the unbounded polynomial modulo 256, on every byte string |
| Hash.HashSsn | resources/TestNode/src/bin/node.rs:174-185 | The Rust loop gives the same recurrence, over the low bytes of the code points |
| Hash.HashIsPolynomial | resources/Hashtable/hashtable.c:32-42 | The hash of a key, on which ranges, buckets and routing rest, is the djb2 polynomial modulo 256 of all its twelve bytes |
| Hash.KnownHash | resources/TestNode/src/bin/node.rs:188-192 | The repository's own example: "aaaaabbbbbcc" has the hash 26 |
| Hash.DigestOfKey | resources/Hashtable/hashtable.c:40-42 | `hash_ssn` in C returns it, computed by `digest` over twelve chars |
| Hash.HashSsnOfKey | resources/TestNode/src/bin/node.rs:174-185 | `Entry::hash_ssn` returns the same for every key |
| Hash.RecurrenceIsPolynomial | resources/Hashtable/hashtable.c:32-38 | The 8-bit recurrence h := 33h + c is the djb2 polynomial over the integers modulo 256 |
| Hash.RoundModulo | resources/Hashtable/hashtable.c:34-36 | A 32-bit round is a round of the recurrence modulo 256, whatever the upper bits and the sign extension hold |
| Codec.RoundTrip | resources/TestNode/src/pdu.rs:702-759 | The bytes of a well-formed PDU of any kind, followed by anything, parse to that PDU and its length (to a PDU with the rewritten type byte for a lookup response) |
| Codec.RoundTripIff | resources/TestNode/src/pdu.rs:342-374 | The PDUs the codec gives back are exactly the well-formed ones |
| Codec.Reserialize | resources/TestNode/src/pdu.rs:857-870 | Whatever parses was well-formed, and serializing it again gives exactly the bytes consumed |
| Codec.SelfDelimiting | resources/TestNode/src/socket_wrapper.rs:156-253 | Bytes behind a complete PDU do not change what is parsed |
| Codec.PrefixParse | resources/TestNode/src/pdu.rs:715-759 | Every proper part of a well-formed PDU is recognized as incomplete, except that the one ending between name and e-mail length panics |
| Codec.VerdictIff | resources/TestNode/src/socket_wrapper.rs:156-253 | The verdict on every buffer that does not start with a whole PDU: the parser waits if and only if it holds a proper part of some well-formed PDU not cut at the bad place, and panics if and only if it is cut there or starts with a byte that is no type |
| Codec.NewInsertIff | resources/TestNode/src/pdu.rs:689-699 | A constructed record is well-formed if and only if key and texts fit: 12 single-byte chars, ASCII names of less than 256 |
| Codec.NewInsertParses | resources/TestNode/src/pdu.rs:689-699 | The record that a transfer constructs for an entry parses back, whatever follows, to its key, its name and its e-mail, each in its place, with their lengths |
| Utf8.EncodeInverse | resources/TestNode/src/pdu.rs:689-699 | The encoding behind `String::len`: the bytes of a char tell it, and the first one how many there are |
| Layout.ByteLayout | resources/TestNode/src/pdu.rs:4-37 | The PDUs without address and key, byte for byte by number |
| Layout.AddressLayout | resources/TestNode/src/pdu.rs:4-37 | `NET_GET_NODE_RESPONSE` starts with 2 and `NET_LEAVING` with 7, then four bytes of address and two of port, the first byte the most significant |
| Layout.JoinLayout | resources/TestNode/src/pdu.rs:4-37 | `NET_JOIN`: type byte 3, and the offsets 1, 5, 7, 8 and 12 of its fields in 14 bytes |
| Layout.JoinResponseLayout | resources/TestNode/src/pdu.rs:4-37 | `NET_JOIN_RESPONSE`: type byte 4, and the offsets 1, 5, 7 and 8 of its fields in 9 bytes |
| Layout.StunLayout | resources/TestNode/src/pdu.rs:4-37 | `STUN_RESPONSE`: type byte 201, and the address at offset 1 |
| Layout.KeyLayout | resources/TestNode/src/pdu.rs:4-37 | `VAL_REMOVE` is 101 and the key; `VAL_LOOKUP` is 102, the key, and the client's address and port at 13 and 17 |
| Layout.RecordLayout | resources/TestNode/src/pdu.rs:702-713 | `VAL_INSERT` (100) and `VAL_LOOKUP_RESPONSE` (103): key at 1, length and name at 13, length and e-mail behind |
| Layout.RecordSize | resources/TestNode/src/pdu.rs:702-713 | Of any record, well-formed or not: of a longer key the first twelve chars are sent, of every char the low byte, and the length bytes as they are |
| Layout.Word32 | resources/TestNode/src/pdu.rs:342-353 | Four bytes in the order of the wire are the number, the first the most significant |
| PduReader.TryParseInsert | resources/TestNode/src/pdu.rs:715-759 | The moving cursor, its length checks and the unchecked read decide as the parser of the codec theorems does on every buffer |
| PduReader.TryParseJoin | resources/TestNode/src/pdu.rs:355-374 | The chain of big-endian reads finds the fields at their wire offsets, or is incomplete |
| PduReader.TryParseLookup | resources/TestNode/src/pdu.rs:796-814 | The same for a lookup |
| PduReader.InsertToVec | resources/TestNode/src/pdu.rs:702-713 | The bytes pushed parse back to the record if and only if it is well-formed |
| Stream.Reassembly | resources/TestNode/src/socket_wrapper.rs:54-84 | However a stream of well-formed PDUs is cut into reads, draining after each read panics if and only if some read ends between a name and its e-mail length; otherwise it yields the complete PDUs in order and keeps the unparsed bytes |
| Stream.DrainTwice | resources/TestNode/src/socket_wrapper.rs:76-81 | Parsing early makes no difference: draining a part, then the rest behind its residue, is draining the whole |
| Stream.DrainStream | resources/TestNode/src/socket_wrapper.rs:76-81 | Draining the first n bytes of a stream yields exactly the PDUs that are complete by then |
| Stream.ResidueIs | resources/TestNode/src/socket_wrapper.rs:79-80 | Complete PDUs and residue are together the bytes received, and the residue is less than a PDU |
| Stream.TcpWrapper.ParseAll | resources/TestNode/src/socket_wrapper.rs:76-81 | The loop over `buffer`, with `copy_within`, queues what draining yields and leaves its residue at the front |
| Stream.TcpWrapper.TryRead | resources/TestNode/src/socket_wrapper.rs:54-84 | For any split of the available bytes into reads: the queue grows by what draining yields; a connection is reported closed if and only if the peer closed it or the buffer ran full |
| Stream.Poll | resources/TestNode/src/bin/node.rs:307-327 | A connection of several polls that each fit the buffer, each followed by `next_pdu` until nothing is left: the node handles the PDUs of the reassembly theorem in order, and the buffer keeps its residue |
| Stream.TcpWrapper.TakeAll | resources/TestNode/src/socket_wrapper.rs:50-52 | Calling `next_pdu` until it returns nothing takes every queued PDU once, in order |
| Dispatch.DispatchLoop | src/c_node.c:332-410 | The loop dispatches every whole PDU of the received bytes once, in order. `offset` ends at `bytes_received` if these were all bytes, and beyond every buffer after a bad type or a bad `VAL_INSERT`; of a struct cut short the loop dispatches the received bytes together with older ones. It reads beyond the buffer exactly if such a struct does not fit into it, or a `VAL_INSERT` is cut directly behind its name at the end of a full buffer |
| Dispatch.HandleValInsert | src/c_node.c:23-84 | The cursor over the fields finds the PDU and its size, or -1, as the byte layout says; the only unchecked read, of the e-mail length, leaves the buffer exactly if the record ends behind the name and the buffer does too |
| Dispatch.ReadToTheEndIff | src/c_node.c:332-410 | The buffers read to their end are exactly the concatenations of whole PDUs of the seven types |
| Dispatch.SplitWhole | src/c_node.c:332-410 | On such a concatenation every PDU is dispatched exactly once, in order |
| Dispatch.SplitAllRead | src/c_node.c:332-410 | Conversely, a buffer read to its end is the concatenation of what was dispatched |
| Dispatch.ReadsBack | src/c_node.c:23-84 | Each PDU, whatever follows it, is read with its fields and its size |
| Dispatch.SendInsert | src/hash_handling.c:328-369 | The buffer filled through `send_offset` is decoded by `handle_val_insert` to the same fields and size |
| Dispatch.SameBytes | resources/TestNode/src/pdu.rs:702-713 | Each with its own type bytes, both implementations put the same bytes on the wire, so that each reads what the other writes |
| Dispatch.SameStops | src/c_node.c:332-410 | On every buffer of a type that C reads, both implementations find a whole PDU, a cut one, or the bad cut alike; C stops at exactly the other types |
| Dispatch.TypeBytesCoincide | resources/pdu.h:7-22 | The type bytes of the C header are those of the Rust constants |
| Wire.MessageBytes | src/c_node.c:332-410 | Type byte and fields of each message's PDU, by number and in order |
| Wire.MsgInverse | src/c_node.c:332-410 | A message of the network model is got back from its PDU |
| Wire.PduInverse | src/c_node.c:332-410 | And every PDU that the loop reads from its message |
| Wire.StreamArrives | src/c_node.c:332-410 | A stream of messages, as bytes, is read to its end by the C loop, which calls one handler for every message, in order, with that message |
| Wire.StreamsDiffer | src/c_node.c:332-410 | Two streams of messages have the same bytes if and only if they are the same |

## Left out

- Leaving as the only node: the process exits and its entries are gone (src/c_node.c:625-626); in the network model a leave needs a neighbour.
- The 300 ms poll in the shutdown, during which the range is the sentinel [255, 255]; the leaver is done once its entries are sent, with no request in flight.
- Requests and joins during a leave, and two leaves at once: the leaver would take their PDUs for a wrong answer.
- The check of the answer's type comes after the entries are sent (src/c_node.c:644-668); the model checks it first, and no run gets another type.
- Sockets, poll, timeouts, signals and printing: FIFO streams, a UDP bag and a scheduler instead.
- Tracker, client, STUN lookup and keep-alive: a joiner may enter at any live node, a client may ask any.
- malloc failures, `free` and leaks. A removed node of a chain stays in the set of cells of the ghost model.
- `exit_with_error` is a fault flag; `NetTheorems.ReachableSafe` proves that no run raises it.
- Addresses are opaque node ids; their byte order in C structs is the identity, in PDUs four bytes and two.
- The Rust node's deferred dispatch of control PDUs through `last_pdu`, where a later one overwrites an earlier one, and its q16, q17 and q18.
- Duplicate keys in the Rust node, beyond what `RustNode.Node.InsertInRange` and `RustNode.Node.Retain` say of the list.
- NetEnds.EverythingEnds: does not cover what happens after a split of one value, where the ranges tile no more.
- What the C node does with a PDU that was cut short by `recv`, beyond `Dispatch.DispatchLoop`: the network model delivers whole PDUs.
- CNode.SelfData.FinishShutdown: does not model the 300 ms poll between the entries and the goodbyes.
- RustNode.Node.HandleNetJoin: does not cover a node with one neighbour link only, or with duplicate keys, where the two implementations need not agree.
- Stream.Poll: does not cover reads that find the buffer full; what one `try_read` does then is in the contract of `Stream.TcpWrapper.TryRead`.
- NetAnswers.MapWhileJoining: does not cover requests that overlap each other, for which no order of the answers is promised; `NetTheorems.NoDataLoss` does.
- Codec.RoundTrip: does not recover the type byte of a lookup response, because the parser rewrites it; the payload fields are recovered.
