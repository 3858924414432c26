# A verified model of the replicated shopping lists

The repository is a distributed shopping list: clients keep lists in a local database and work
offline, storage nodes keep the lists of their shard, and both exchange whole lists that are merged
as conflict-free replicated data. Nodes find each other by gossiping tables of timestamps. This
project models the three coupled cores and proves what they promise:

1. **The replicated data** (`PNCounter.dfy`, `ShoppingItem.dfy`, `ORSet.dfy`, `ShoppingList.dfy`,
   `Lattice.dfy`). Classes whose methods change maps and sets in place, each method proved equal to a
   function on the value it holds. Up to names these values form a join semilattice, and the merge of
   the source is its least upper bound.
2. **Replication** (`Database.dfy`, `Node.dfy`, `Api.dfy`, `Replication.dfy`, `Convergence.dfy`,
   `Effects.dfy`, `Conservation.dfy`, `Retention.dfy`, `Dissemination.dfy`,
   `Delivery.dfy`). The node's message handling and the client's read-modify-send-merge-write operations as classes, and a transition system over any number of
   clients and nodes with a network that loses, repeats and reorders. The main theorems: every copy is
   the join of the deltas of the client events it has seen; replicas that have seen the same events
   agree; observed-remove semantics; conservation of counter deltas; dissemination along
   time-respecting paths; what one client writes, others read.
3. **Membership** (`Membership.dfy`, `Cluster.dfy`, `Departure.dfy`, `Liveness.dfy`). The table of known nodes merged by
   maximum timestamp, its windowed eviction, the connection sets that follow it, and a transition
   system over all nodes with a shared clock. The main theorems: the evicted table is exactly a window of
   the full history; connections mirror the table; a stopped node is forgotten for good, a live
   one is kept while its gossip is heard; lists stay
   within their shard.

`Util.dfy` holds the machine integers and the hash, `Maps.dfy` keyed joins and sums over maps,
`Message.dfy` the messages.

## How to read the model

- A class method is specified by a function of the same operation (`ORSet.Add` by `Added`,
  `Node.ApplyMessage` by `AppliedMessage`), and the transition systems use the same functions. What
  the system does is then proved about the functions, against definitions that do not mention
  them: sets of events (`Fold`, `Live`), sums of deltas (`Total`, `GrandTotal`), least upper bounds
  (`IsJoinOfReaching`), the history of timestamps (`ExactWindow`).
- Widths are explicit. `uint64_t` counter entries wrap at 2^64 (`Bump`), `value()` wraps to `int64_t`
  (`Wrap64`), the setters compute in `int32_t` (`Wrap32`), the getters convert to `uint32_t`. Signed
  overflow, undefined in the source, is taken as two's complement; the lemmas say exactly when it matters.
- Strings are byte strings; a byte above 127 is a negative `char` in the hash loop.
- Exceptions are values: `Err`, or `ok == false` for a throwing merge. An exception that leaves a node's
  handler ends that node in the source, and so it does in `Cluster.dfy`. `NoMergeThrows` proves that none occurs in a
  run of the replication protocol, `ClusterNeverFails` that none occurs in a cluster whose requests carry lists of such
  a run; other requests can cause one.
- Tags (the clock reading of `genTag`), uids, the clock and the reply of the cloud are parameters. The
  database is a map from uid to list. Items and lists are stored by value. A reference handed out by
  `getItem` is modelled by the key it points at and a write back under that key (`ORSet.Store`).
- In `Replication.dfy`, `log` and `seen` only record history; no step depends on them. A message of
  several lists is several packets, delivered together or apart. A client is its origin, so origins are
  distinct by construction. Enabledness assumes what the source gets from randomness and from its
  integer widths: an added item's uid is new to the client's copy, and the client's own counter entries stay below
  2^64 (which `NoWrapInShortRuns` derives for runs of fewer than 2^31 client events). Nothing is assumed of tags
  except in the second half of `ObservedRemove`.
- In `Cluster.dfy` the attributes of a node never change, nodes bind different endpoints and agree
  on the number of shards, and the clock is shared and stays below 2^64. Nodes may stop and boot again, messages may be
  delivered any number of times to the node bound to their destination, or never. A client's request is any
  message with at least one list.
- `Refinement.dfy` ties the systems together: gossip schedules and runs of the cluster do to the databases what
  runs of the replication protocol do.
- Straight-line handlers and getters have no row below: their contracts are the functions they equal.

## Promises the code does not keep, and when it does

Each line names the lemma with the exact condition, then one with an input at which it fails.

- Setting a quantity reads back unless the `int32_t` difference is exactly -2^31 (`SetThenGet`; `SetThenGetFails`,
  `UpdateNotShown`).
- An iteration of the hash loop is the base-31 polynomial step unless a byte above 127 meets a small hash
  (`HashStepExact`), and the whole hash is the polynomial exactly when the errors of such iterations cancel
  (`HashIsPolynomialIff`; `HashOfByte255`).
- Merging commutes exactly when no item merge throws and the items both sides store have equal names
  (`MergeCommutesIff`; `NamesDoNotCommute`).
- A deleted list stays deleted exactly as long as no incoming list carries its uid (`DeletedStaysDeletedIff`;
  `DeletedListReturns`).
- A put concurrent with a remove is lost exactly when every tag the putter has left, the new one included, is one the
  remover holds (`ConcurrentPutSurvivesIff`; `CollidingTags`). For a remover that holds all the putter's older tags this
  means a collision of the new clock tag (`PutOnSeenCopySurvivesIff`).
- A new item is shown unless its clock tag was already removed (`AddedItemShown`), which takes a uid used before
  (`ReusedUidHidden`); with a fresh uid it is always shown (`FreshItemShown`).
- Deltas of two clients at one shared origin are lost on merge (`DeltasSurviveIff`, `SharedOriginLosesDelta`;
  `SharedOriginExample`).
- A replica that has seen all a client's puts holds all the client added exactly when each put that added something was
  made while the client's own copy held all it had added before (`NothingLostIff`), as when it never deletes its copy
  (`KeptCopyIsUpToDate`); one that deletes its copy and fetches an older one can lose some (`DeltaLost`).
- A merge of concurrent changes goes below zero exactly when together they took more than there was (`BelowZeroIff`;
  `BelowZero`).
- A peer with a timestamp from the future is evicted, except within the timeout of wrapping around (`EvictedIff`;
  `FutureEvicted`).
- Nodes keep foreign lists out exactly as long as no gossip hides one behind a first list of the node's own shard,
  before any list whose merge throws (`AlwaysConfinedIff`; `MixedRequestAccepted`, and `ThrowProtects` for the
  exception).

## Model

| member | source | states |
|---|---|---|
| Convergence.CopyIsJoinOfSeenEvents | src/node/node.cpp:197-221 | in every reachable state, whatever was lost, repeated, reordered or deleted, each stored copy is well-formed and its content is the join of the deltas of exactly the client events it has seen |
| Convergence.StrongConvergence | src/crdt/or_set.hpp:84-97 | two replicas that have seen the same events of a list hold equal add tags, remove tags and counters: equal lists up to item names |
| Convergence.ContainsIffUnmasked | src/crdt/or_set.hpp:32-43 | without any assumption on tags: an item is contained iff some seen add or update has a tag that no seen removal had observed |
| Convergence.ObservedRemove | src/crdt/or_set.hpp:51-58 | contained implies some seen put that no seen removal observed; with unique tags the converse too, so a concurrent add or update beats a remove |
| Convergence.ConcurrentPutSurvivesIff | src/crdt/or_set.hpp:45-58 | for any two well-formed copies: after a put on one and a removal on the other the merge contains the item iff some tag of the putter, the new one included, is neither removed there nor held by the remover |
| Convergence.PutOnSeenCopySurvivesIff | src/crdt/or_set.hpp:19-23 | if the remover holds every tag of the putter, the put is lost iff its own clock tag collides |
| Convergence.CollidingTags | src/crdt/or_set.hpp:19-23 | a collision that loses a put, and the same collision survived through an older tag |
| Convergence.CopiesOnlyGrow | src/client/api.cpp:155-230 | along any continuation of a run without deleting it, a replica's copy only grows in the lattice order |
| Convergence.NoMergeThrows | src/model/shopping_item.cpp:53-55 | in every reachable state no delivery of packets to any replica hits the differing-uid exception, and databases are well-formed |
| Replication.NextKeepsInv | src/node/node.cpp:188-221 | every step of clients, nodes and network keeps: each copy, stored or in flight, is well-formed and the join of its seen events; each removal carries exactly the tags of the puts it observed |
| Replication.UpdateKeepsInv | src/client/api.cpp:180-206 | an update, an overwrite of the element plus a new tag, amounts to joining in the client's own new entries and the tag |
| Replication.DiscardKeepsInv | src/client/api.cpp:208-230 | a removal amounts to joining in the tags of the puts seen so far |
| Replication.FoldUnion | src/crdt/or_set.hpp:84-97 | the join of two sets of events is the join of their joins, so merging unions what two copies have seen |
| Effects.AddTakesEffect | src/client/api.cpp:155-178 | an added item is in the client's copy under its name, logged under its tag, and in the copy that is sent |
| Effects.UpdateTakesEffect | src/client/api.cpp:180-206 | the same of an updated item |
| Effects.DiscardTakesEffect | src/client/api.cpp:208-230 | a removed item is not contained in the client's copy, and that copy is sent |
| Effects.DeliverTakesEffect | src/node/node.cpp:210-217 | a server stores every list delivered to it and has seen every event it had |
| Effects.FetchTakesEffect | src/client/api.cpp:124-153 | a client stores a list it fetches and has seen every event it had |
| Conservation.EntriesBoundedByOwner | src/crdt/pn_counter.hpp:17-50 | in every run, deletions included, no copy, stored or in flight, holds an entry of an origin above the sum of all that client added |
| Conservation.EntryIsTotalIff | src/crdt/pn_counter.hpp:17-50 | in every run and whatever a replica has seen, it holds all an origin added iff there is nothing to hold or it has seen a put by it that was made on such a copy and that nothing was added after |
| Conservation.NothingLostIff | src/crdt/pn_counter.hpp:17-50 | in every run, a replica that has seen all puts by an origin holds all it added iff every put that added something was made when the client's own copy held all it had added before: the exact condition for no delta to be lost |
| Conservation.SumIsTotalIff | src/crdt/pn_counter.hpp:29-41 | in every run the entries of an item sum to at most the grand total of all deltas, and to all of it iff no origin falls short |
| Conservation.SumAddsUpIff | src/crdt/pn_counter.hpp:29-41 | for a replica that has seen all puts of an item, its entries sum to the grand total of all deltas iff no client put on a copy that lacked what it had added before |
| Conservation.ValuesAddUp | src/model/shopping_item.cpp:22-46 | a replica that has seen all puts of an item then reads total increments minus total decrements |
| Conservation.RunGrounded | src/client/api.cpp:155-206 | in every run each put adds exactly its amounts to what its client held, at its own entries only |
| Conservation.NoWrapInShortRuns | src/crdt/pn_counter.hpp:17-27 | in any run of fewer than 2^31 client events no update makes a counter entry reach 2^64 |
| Retention.KeptCopyIsUpToDate | src/client/api.cpp:155-206 | a client that never deletes its copy makes all its puts on a copy that holds all it added before, and has seen them all |
| Retention.OwnerHoldsMost | src/crdt/pn_counter.hpp:17-50 | the own copy of such a client holds exactly its total, and no copy anywhere holds more |
| Retention.ValuesAddUpWithoutDeletes | src/model/shopping_item.cpp:22-46 | if no client deletes its copy, a replica that has seen every add and update of an item reads total increments minus total decrements |
| Retention.DeltaLost | src/client/api.cpp:232-245 | a run in which a client deletes its copy, fetches an older one and goes on: with every event seen its entry is 9 where it added 10 |
| Dissemination.ContentSpreadsAlongPaths | src/node/node.cpp:228-244 | after any schedule of pushes and pulls, a node holds the least upper bound of the initial contents of exactly the nodes with a time-respecting path to it, and stores a list iff one of them did |
| Dissemination.EquallyReachedNodesAgree | src/node/node.cpp:188-195 | nodes reached by the same nodes end with the same content, so all nodes agree if every node reaches every other |
| Dissemination.SnapshotContent | src/node/node.cpp:228-235 | a gossip message carries exactly the content of the database it was taken from |
| Dissemination.PullsNeverThrow | src/node/node.cpp:210-217 | from well-formed databases every pull of an earlier push merges without an exception |
| Clusters.TableIsWindowOfHistory | src/node/node.cpp:320-351 | in every reachable state, right after an eviction a node knows exactly the peers for which some timestamp delivered to it or read from the clock for it at boot is within the timeout, each at its greatest, although evicted entries were forgotten |
| Clusters.ConnectionsMirrorTable | src/node/node.cpp:278-312 | in every reachable state the entries carry the configured attributes of their nodes, the connection sets are the known peers and the known same-shard peers without the node itself, and the connected endpoints are exactly their configured hosts with discovery and gossip ports; no timestamp is ahead of the clock |
| Clusters.RunKeepsMemberInv | src/node/node.cpp:79-118 | every run keeps tables mirrored by connections, tracking their history, and all messages truthful and not ahead of the clock |
| Clusters.ShardConfinement | src/node/node.cpp:150-157 | in every state reached by harmless requests each stored list hashes to its node's shard, and each list message between nodes goes to a node of the sender's shard carrying only lists of that shard |
| Clusters.AlwaysConfinedIff | src/node/node.cpp:150-195 | a run is confined in all its states iff all its requests are harmless |
| Clusters.NextConfinedIff | src/node/node.cpp:150-195 | a step, completed or ended by an exception, leaves a confined system confined iff it is not a harmful request |
| Clusters.RequestConfinedIff | src/node/node.cpp:150-176 | checking only the first list keeps a database confined iff, among the lists merged before an exception, a gossip hides none of another shard behind one of the node's own |
| Clusters.GroupedConfined | src/client/api.cpp:256-268 | requests grouped by shard, as the client's gossip is, are harmless |
| Clusters.MixedRequestAccepted | src/node/node.cpp:150-176 | with two shards, a concrete gossip all of whose lists a node merges although one is of the other shard |
| Clusters.ThrowProtects | src/node/node.cpp:210-217 | a concrete gossip of the same kind that is stopped by an exception before its foreign list |
| Clusters.GossipConfined | src/node/node.cpp:299-304 | list gossip leaves only over links to peers of the same shard |
| Clusters.StoreConfined | src/node/node.cpp:188-195 | unchecked list gossip that arrives at a node still holds only lists of its shard |
| Departure.TimestampsStayBeforeStop | src/node/node.cpp:287-310 | after a node stopped and unless it is revived, no table and no message ever holds a later timestamp of it |
| Departure.LateRoundsOmit | src/node/node.cpp:114-118 | every discovery round later than the stop plus the timeout forgets the node and omits it from its gossip |
| Departure.ForgottenForGood | src/node/node.cpp:332-349 | once older messages are drained and every running node has evicted or stopped, the node is in no table and no message of any later state |
| Departure.RoundOnlyForgets | src/node/node.cpp:246-256 | a discovery round leaves another node's timestamp alone or drops it, gossips just that, and drops it when it is older than the timeout |
| Liveness.InitialPeersKept | src/node/node.cpp:89-92 | for the timeout after its boot a node keeps every initial peer, however old the timestamp it was given, through all its rounds |
| Liveness.BootStamps | src/node/node.cpp:89-92 | the booted node knows itself and every initial peer, and nothing in its table is older than the boot |
| Liveness.AnnouncedIsKept | src/node/node.cpp:246-256 | a node whose round ended at a time T is kept by every node that learns its gossip, whenever that is, through all rounds until the timeout has passed since T |
| Liveness.RoundAnnounces | src/node/node.cpp:247 | a round stamps the node itself with the time it ends and gossips that stamp |
| Liveness.RunKeepsHeard | src/node/node.cpp:320-351 | a peer known from some time on stays known from that time on along every run that does not end the node, until the timeout has passed |
| Refinement.ClusterRunIsRun | src/node/node.cpp:188-235 | every run of the cluster whose requests carry lists in flight is matched by a run of the replication protocol with the same databases |
| Refinement.ClusterNeverFails | src/model/shopping_item.cpp:53-55 | so the nodes of such a cluster store well-formed lists, and no possible step ends one with an exception |
| Refinement.ScheduleIsRun | src/node/node.cpp:188-235 | any gossip schedule of nodes is a continuation of a run of the replication protocol |
| Membership.UpdateIsMaximum | src/node/node.cpp:278-312 | a batch leaves each other peer at the maximum of its old timestamp and all its entries in the batch, and the node's own entry untouched |
| Membership.MaxTsIsGreatest | src/node/node.cpp:287-310 | that maximum is an upper bound of the batch's entries for the peer, and attained if there is one |
| Membership.LatestReportStored | src/node/node.cpp:287-310 | after a batch the whole entry of a peer is that of the last of its latest reports, unless the table was later than all of them |
| Membership.UpdatedKeys | src/node/node.cpp:278-291 | a batch makes known exactly the nodes it mentions |
| Membership.BatchOrderIrrelevant | src/node/node.cpp:278-312 | permuting or repeating the entries of a batch gives the same table, connection sets and endpoints |
| Membership.UpdateKeepsMirrors | src/node/node.cpp:290-304 | truthful gossip keeps the connections mirroring the table |
| Membership.EvictKeepsMirrors | src/node/node.cpp:337-349 | eviction keeps the connections mirroring the table |
| Membership.BootMirrors | src/node/node.cpp:89-92 | the table and the connections mirror each other from the start of the loop |
| Membership.MirrorsDetermined | src/node/node.cpp:290-308 | a mirrored table, connections included, is determined by who was last seen when |
| Membership.UpdateTracks | src/node/node.cpp:287-310 | between evictions the table holds only history, and everything in it recent enough for the last eviction |
| Membership.EvictTracks | src/node/node.cpp:320-351 | evicting at a later time makes the table the exact window of the history at that time |
| Membership.EvictedIff | src/node/node.cpp:332-335 | a peer survives iff its age is within the timeout, in unsigned 64-bit arithmetic with future timestamps wrapping around; the node itself always survives |
| Membership.FutureEvicted | src/node/node.cpp:332-335 | a peer one millisecond ahead of the clock is evicted under any timeout below 2^64 - 1 |
| Membership.CanEraseIff | src/node/node.cpp:337-347 | whether the next disconnects succeed does not depend on which peers were erased before, in which order |
| Membership.MirrorsDisconnectable | src/node/node.cpp:337-347 | while connections mirror the table no disconnect fails |
| Membership.StoppedHalfWay | src/node/node.cpp:337-349 | a failing disconnect leaves a dead peer in the table that no longer counts as connected though its endpoint is not, and every peer that is not dead as it was |
| Nodes.Node.BeginLoop | src/node/node.cpp:89-92 | the loop enters exactly the initial peers and then stamps every entry with its own reading of the clock |
| Nodes.Node.UpdateKnownNodes | src/node/node.cpp:278-312 | the loop refines the batch update of table, connection sets and endpoints |
| Nodes.Node.UpdateKnownNode | src/node/node.cpp:281-310 | an iteration enters a new node as reported and connects its discovery port, and its gossip port if it is of the same shard |
| Nodes.Node.EvictDeadNodes | src/node/node.cpp:320-351 | in whatever order the table is visited, eviction erases exactly the dead peers with their connections iff their endpoints are connected and distinct, and otherwise stops half way at a failing disconnect |
| Nodes.Node.DiscoveryRound | src/node/node.cpp:114-118 | evict, then stamp itself with the present time and gossip exactly what is left, that entry included; a failing disconnect ends the round |
| Database.ReadAll | src/node/node.cpp:229 | lists every row of the database, once |
| Nodes.Node.ApplyMessage | src/node/node.cpp:197-221 | an ensured list is stored, a deleted one erased, and no other list touched; gossip is merged; on an exception exactly the lists before the throwing one are written |
| Nodes.Node.ApplyLists | src/node/node.cpp:210-217 | the read-merge-write loop, with the exact condition for an exception and the state it leaves |
| Nodes.Node.HandleGossipFrame | src/node/node.cpp:188-195 | only list gossip is applied, unchecked; an exception leaves exactly the lists before the throwing one applied |
| Nodes.Node.HandleClientFrame | src/node/node.cpp:130-186 | node listing, refusal for another shard, read of the stored list, and write with the request's own list echoed: after it the list is stored, or after a deletion absent; no reply iff a merge of an accepted write throws, with the lists before it applied; three snapshots follow exactly an accepted write |
| Nodes.EnsureTakesEffect | src/node/node.cpp:199-204 | an accepted ENSURE_LIST stores the join of the list into the node's copy, keeps that copy's name, and touches no other list |
| Nodes.DeleteTakesEffect | src/node/node.cpp:206-208 | an accepted DELETE_LIST removes the list and touches no other |
| Nodes.GossipTakesEffect | src/node/node.cpp:210-217 | an accepted gossip of lists stores the join of each into the node's copy |
| Delivery.AddReachesOthers | src/node/node.cpp:159-183 | an item that a client adds and sends to a node of the list's shard is in the copy every other client then gets, and in that client's list after the merge, with its name and quantities |
| Delivery.RemovalReachesIff | src/node/node.cpp:159-183 | an item that a client removes and sends is absent from the copy others then get iff the node had no add tag of it that the client had not seen and the node not removed |
| Delivery.DeletionReachesOthers | src/node/node.cpp:159-183 | a list that a client deletes is in no answer of that node any more, and all other lists stay |
| Delivery.GossipDelivers | src/node/node.cpp:188-244 | a node that stores gossip joins in everything the gossiping node had when it sent it |
| Delivery.RequestDelivers | src/node/node.cpp:130-186 | in the cluster a write that a running node merges is in its database |
| Database.ApplyIsPointwiseJoin | src/node/node.cpp:210-217 | applying a message, repeated uids included, is the pointwise join of the database with its lists; other uids are untouched, names included |
| Database.JoinedListsUpper | src/node/node.cpp:210-217 | the join of a message's lists is above each of them |
| Database.JoinedListsLeast | src/node/node.cpp:210-217 | and below every other upper bound |
| Database.OrderAndRepetitionIrrelevant | src/node/node.cpp:210-217 | permuting or repeating the lists of a message gives the same database up to names |
| Database.AppliedConcat | src/node/node.cpp:210-217 | two messages in a row act like one with the lists of both |
| Database.DeletedStaysDeletedIff | src/node/node.cpp:206-209 | a deleted list stays away iff no later list carries its uid, and otherwise comes back as the join of those lists |
| Database.DeletedListReturns | src/node/node.cpp:206-217 | a copy still in flight brings a deleted list back, all but its name |
| Database.ApplyKeepsWellFormed | src/node/node.cpp:197-221 | applying well-formed lists keeps a database well-formed |
| Database.NothingThrows | src/model/shopping_item.cpp:53-55 | on well-formed data no merge of a message throws |
| Api.API.GetShoppingList | src/client/api.cpp:124-153 | asks for the list, then joins the cloud's copy into the local one, takes whichever exists, or fails without a change |
| Api.API.AddItem | src/client/api.cpp:155-178 | the three outcomes; after a timeout, a refusal or an echo the stored and returned list is the one sent |
| Api.API.Edit | src/client/api.cpp:186-190 | the element is changed through its reference and added again, or refused if the list does not contain its uid |
| Api.API.UpdateItem | src/client/api.cpp:180-206 | the outcomes for any stored list, well-formed or not; after a timeout, a refusal or an echo the stored and returned list is the one sent |
| Api.API.RemoveItem | src/client/api.cpp:208-230 | as above, for a removal |
| Api.API.Finish | src/client/api.cpp:195-205 | the list is written whatever came of the reply; a swallowed exception leaves the tags alone and the elements partly merged |
| Api.API.CreateUID | src/client/api.cpp:60-70 | the first drawn uid that no stored list has |
| Api.API.CreateShoppingList | src/client/api.cpp:108-122 | stores and sends an empty list under the requested name and a uid no stored list has |
| Api.API.GossipState | src/client/api.cpp:247-269 | one message for each shard that has lists, holding exactly its lists in the order read, and every stored list in the message of its shard |
| Api.OfShardIff | src/client/api.cpp:256-260 | a group holds exactly the lists of its shard |
| Api.OfShardAppend | src/client/api.cpp:257-260 | a group keeps the order in which the lists were read |
| Api.GossipIsGrouped | src/client/api.cpp:256-268 | every gossip message of a client belongs to one shard, the shard it is sent to |
| Api.EchoChangesNothing | src/client/api.cpp:167-169 | merging a list with its own echo succeeds and changes nothing, names included |
| Api.NodesEcho | src/node/node.cpp:150-186 | a node of the list's shard echoes the list it was sent, any other answers with no list |
| Api.GetAnswer | src/node/node.cpp:150-170 | a read is answered with exactly the stored list, names included, iff the node is of the list's shard and has it |
| Api.DeleteAnswer | src/node/node.cpp:178-183 | the answer to a deletion carries no list |
| Api.GetJoinsNodeCopy | src/node/node.cpp:159-170 | a read joins the node's copy into the client's if the node is of the list's shard, and changes nothing otherwise |
| Api.AddedItemShown | src/client/api.cpp:155-178 | the list keeps its name, the new item has the requested name and quantities, other items are unchanged, and it is shown iff its tag was not already removed |
| Api.FreshItemShown | src/client/api.cpp:155-178 | with a uid new to the list the added item is always shown |
| Api.ReusedUidHidden | src/client/api.cpp:155-178 | a uid used again with the clock tag of its removed first use stays hidden |
| Api.UpdatedItemShown | src/client/api.cpp:180-206 | the list keeps its name, the updated item stays shown with the requested name, other items are unchanged, and each getter returns the request iff the difference is not -2^31 |
| Api.UpdateNotShown | src/client/api.cpp:180-206 | an update of an item at zero to -2147483648 leaves it at zero |
| Api.RemovedItemGone | src/client/api.cpp:208-230 | the removed item is no longer shown, everything else, the list's name included, is unchanged |
| Api.FoundIffContained | src/model/shopping_list.cpp:36-43 | in a well-formed list an item can be updated or removed iff it is contained |
| Lattice.MergeIsJoin | src/crdt/or_set.hpp:84-97 | the merge of two sets of items is the join of their contents |
| Lattice.JoinIsLeastUpperBound | src/crdt/or_set.hpp:84-97 | the join is above both operands and below every other upper bound |
| Lattice.JoinCoreAssociative | src/model/shopping_list.cpp:70-72 | merging is associative on contents |
| Lattice.JoinCoreCommutative | src/model/shopping_list.cpp:70-72 | merging is commutative on contents |
| Lattice.JoinCoreIdempotent | src/model/shopping_list.cpp:70-72 | merging is idempotent on contents |
| Lattice.LeqIffJoin | src/crdt/or_set.hpp:84-97 | the order of contents is the order of the join |
| Lattice.MergedItemsLaws | src/model/shopping_item.cpp:52-60 | with names in place merging is associative and idempotent, and commutative up to names |
| Lattice.MergeCommutesIff | src/model/shopping_item.cpp:52-60 | with names in place two sets merge to the same in both orders iff no item merge throws and shared items have equal names |
| Lattice.NamesDoNotCommute | src/model/shopping_item.cpp:56 | two well-formed sets of equal content whose merges keep different names |
| Lattice.CoreIsAllButNames | src/crdt/or_set.hpp:15-17 | two well-formed sets have equal content iff they are equal with names erased |
| Lattice.AddInflatesIff | src/crdt/or_set.hpp:45-49 | adding is inflationary iff the key is new or the overwritten element is below the new one |
| Lattice.RemoveInflates | src/crdt/or_set.hpp:51-58 | removing is inflationary |
| ShoppingLists.ShoppingList.Add | src/model/shopping_list.cpp:14-19 | adds unless contained, else throws and changes nothing |
| ShoppingLists.ShoppingList.Update | src/model/shopping_list.cpp:21-26 | adds if contained, else throws and changes nothing |
| ShoppingLists.ShoppingList.GetItem | src/model/shopping_list.cpp:36-43 | the linear search finds a contained element with the uid, or throws and there is none |
| ShoppingLists.ShoppingList.Merge | src/model/shopping_list.cpp:70-72 | merges the items and never the name |
| ORSets.ORSet.ContainsUid | src/crdt/or_set.hpp:32-43 | the tag loop decides whether an add tag is left |
| ORSets.ORSet.Remove | src/crdt/or_set.hpp:51-58 | the loop copies exactly the present add tags to the remove tags |
| ORSets.ORSet.Values | src/crdt/or_set.hpp:60-82 | each contained uid that has an element exactly once, and no other |
| ORSets.ORSet.Merge | src/crdt/or_set.hpp:84-97 | the three loops compute the keyed joins; it throws iff two elements under one key differ in uid, leaving all tags alone |
| ORSets.ORSet.MergeElements | src/crdt/or_set.hpp:85-90 | in any visiting order the element loop computes the keyed join, or stops with elements partly joined |
| ORSets.ORSet.JoinedTags | src/crdt/or_set.hpp:92-96 | in any visiting order the tag loops compute the keyed union |
| ORSets.OperationsKeepWellFormed | src/crdt/or_set.hpp:45-58 | add and remove keep: elements under their own uid, non-empty add tags for exactly them, remove tags among the add tags |
| ORSets.MergeKeepsWellFormed | src/crdt/or_set.hpp:84-97 | merging well-formed sets never throws and is well-formed |
| ORSets.ContainsMeansUnremovedTag | src/crdt/or_set.hpp:32-43 | in a well-formed set an item is contained iff it has an add tag that is no remove tag |
| ShoppingItems.ShoppingItem.SetCurrentQuantity | src/model/shopping_item.cpp:30-37 | only the current quantity changes, by the 32-bit difference at the caller's entry |
| ShoppingItems.ShoppingItem.SetDesiredQuantity | src/model/shopping_item.cpp:39-46 | only the desired quantity changes, by the 32-bit difference at the caller's entry |
| ShoppingItems.ShoppingItem.Merge | src/model/shopping_item.cpp:52-60 | takes the incoming name and merges both counters, or throws and changes nothing iff the uids differ |
| ShoppingItems.SetThenGet | src/model/shopping_item.cpp:22-46 | for every counter state, wrapped entries included, the getter returns the quantity just set iff the difference is not -2^31 |
| ShoppingItems.SetThenGetFails | src/model/shopping_item.cpp:30-46 | setting 2^31 on an item at zero leaves it at zero |
| ShoppingItems.SetThenValue | src/model/shopping_item.cpp:30-46 | without 32-bit overflow the signed value becomes the quantity iff both 32-bit conversions dropped the same amount |
| ShoppingItems.SetExactly | src/model/shopping_item.cpp:30-46 | in the 32-bit range the value becomes exactly the quantity, nothing decreases, one sum grows by the difference, and no 32-bit or 64-bit operation overflows |
| ShoppingItems.AssignedInflates | src/model/shopping_item.cpp:30-46 | a setter changes only the caller's entries and, below 2^64, decreases none |
| PNCounters.PNCounter.Value | src/crdt/pn_counter.hpp:29-41 | in any visiting order the wrapping accumulators give the exact difference of sums, wrapped once |
| PNCounters.PNCounter.Merge | src/crdt/pn_counter.hpp:43-50 | both maps become the keyed maximum |
| PNCounters.MergeAssociative | src/crdt/pn_counter.hpp:43-50 | merging counters is associative |
| PNCounters.MergeCommutative | src/crdt/pn_counter.hpp:43-50 | merging counters is commutative |
| PNCounters.ConcurrentDeltasSurvive | src/crdt/pn_counter.hpp:29-50 | if two counters extend a base at disjoint origins, the merge is the base plus both differences, exactly and as read by value() in 64 bits |
| PNCounters.DeltasSurviveIff | src/crdt/pn_counter.hpp:43-50 | for any two counters above a base, all increments and all decrements survive the merge iff no entry was extended on both sides |
| PNCounters.BelowZeroIff | src/crdt/pn_counter.hpp:29-50 | such a merge is negative iff together they took more than the base |
| PNCounters.BelowZero | src/crdt/pn_counter.hpp:29-50 | two clients that each take all 5 leave -5 |
| PNCounters.SharedOriginLosesDelta | src/crdt/pn_counter.hpp:43-50 | for increments, both differences survive iff the origins are disjoint |
| PNCounters.SharedOriginExample | src/crdt/pn_counter.hpp:43-50 | of two increments by one at one origin the merge keeps one |
| Util.GetHash | src/util.cpp:7-13 | the loop; its result is the base-31 polynomial modulo 1000000007 iff the error of the wrapped steps is a multiple of the modulus |
| Util.HashIsPolynomialPlusError | src/util.cpp:7-13 | on every string the hash is the polynomial plus the error that steps at a negative sum bring in |
| Util.HashIsPolynomialIff | src/util.cpp:7-13 | so the hash is the polynomial iff that error is a multiple of the modulus |
| Util.HashIsPolynomial | src/util.cpp:7-13 | it is where no step is negative |
| Util.AsciiNeverNegative | src/util.cpp:7-13 | ASCII strings are such |
| Util.HashOfAB | src/util.cpp:7-13 | the hash of a two-character string and its shard |
| Util.HashStepExact | src/util.cpp:10 | a step is exact modulo 1000000007 iff the signed sum is not negative |
| Util.HashOfByte255 | src/util.cpp:10 | the string of the one byte 255 hashes to something else than the polynomial |
| Util.HashConcat | src/util.cpp:7-13 | the hash of a concatenation from the hashes of its parts, where no step is negative |
| Util.HashInRange | src/util.cpp:8-11 | the hash is below the modulus, the signed sum of a step never exceeds 64 bits and is at least -128, and it is not negative for ASCII bytes, where nothing wraps |

## Left out

- Convergence.ObservedRemove: that a live item is contained assumes unique tags, because tags are clock readings; the exact condition without that assumption is `ContainsIffUnmasked`.
- Departure.ForgottenForGood: assumes that old messages are gone and that every node evicts; nothing in the source bounds how long a message stays in flight.
- Clusters.ShardConfinement: for runs without harmful requests; that such a request breaks confinement is `AlwaysConfinedIff`, and what later gossip makes of the foreign list is not followed.
- Dissemination.ContentSpreadsAlongPaths: for schedules in which no pull throws; from well-formed databases none does (`PullsNeverThrow`).
- Convergence of names: item names take the incoming side and list names are never merged; `MergeCommutesIff` says when this does not matter.
- Sockets, polling, threads, mutexes and timeouts: replaced by message steps that may be lost, repeated or reordered; the connected endpoints are kept as sets of host and port.
- Message encoding, the SQLite store, HTTP routing, JSON and the web interface: foreign calls and plumbing.
- A reply or request without a list where the source indexes the first one: undefined there; the client model takes such a reply as none, the node model requires one.
- The random choice of an endpoint, of uids and of gossip jitter: any choice is allowed, with freshness of uids as stated above.
- `updateCloudNodes`: only the number of shards matters to the properties here.
- Aliasing between an item reference and the list it came from: the reference is a key and a write back.
- The constructors of messages other than the ones used, and the cluster drivers: constant configuration.
