# Verified model of the route broker

The route broker passes routing updates from publishers to clients that read at
their own pace. This project models it in Dafny 4.11 and proves what its design
promises. `dafny verify dfyconfig.toml` checks everything.

## What is modelled

**The cursor broker** (`Broker.dfy`, `CursorBroker.dfy`; broker/broker.c). One
list holds data objects and client cursors. An object that is added, updated or
marked deleted goes to the tail with a fresh id; a reader's cursor moves past the
next object. A deleted object stays as a tombstone until every client has passed
it, and whether that is so is decided by comparing ids. `Broker.dfy` has the
operations as functions on values and the invariant `Inv` that ties ids to
positions. `CursorBroker.dfy` has the class with the loops of the source, each
method proved equal to its function.

**The route broker** (`Routes.dfy`, `RouteInvariants.dfy`, `RouteBroker.dfy`,
`Traversal.dfy`; broker/route_broker.c). Three cursor brokers, one per priority,
stand beside a hash table from topics to routes. `Published` describes what a
publish amounts to without lists: the hashed object of the topic gives way to at
most one other. The class `RouteBroker` follows the source branch by branch.

**Runs** (`Runs.dfy`, `EveryRun.dfy`, `Progress.dfy`, `Convergence.dfy`,
`Necessity.dfy`, `Counterexample.dfy`). A run is any sequence of publishes, reads,
wakeups, and clients that join and leave; each event is what one thread does under
the mutex. Two histories are kept: the messages accepted, and what each client was
given. `Authority` and `Replica` fold them into routing tables. Every method of
`RouteBroker` is proved to be one such event, and an object of that class is always
in a state that some run reaches, so what is proved of every run holds of the class.
What is proved of runs that obey the hypothesis below holds of the class as long as
its ghost field `obeyed` does: `Publish` clears it exactly when it breaks the
hypothesis, no other method changes it, and while it is set `Serves` gives
convergence and an exact hash table.

**The wire** (`Netlink.dfy`, `NetlinkBytes.dfy`, `Fpm.dfy`, `Topics.dfy`,
`TopicText.dfy`; daemon/broker_process.c, daemon/fpm.h, broker/topic.c). Reassembly
of FPM frames from whatever recv returns, the walk that rewrites netlink messages in
place, and the topic strings that serve as hash keys. Formats are stated a second
time, apart from the code that makes or takes them: `NetlinkBytes` and the lemmas
`...InBytes` of `Fpm` in bytes and numbers, `TopicText` as a reader of topic text.

## The hypothesis of convergence

A delete at a higher priority than its route (broker/route_broker.c:429-443) forces
the route out and lists a tombstone that is never put in the hash table. When that
tombstone is freed, the topic is erased from the hash table whatever it maps to by
then (broker/route_broker.c:66). If the route is added again while the tombstone is
listed, the new route loses its hash entry, and a client can be left with the wrong
table. So convergence is proved for runs in which no route is added while an
unhashed tombstone of its topic is listed (`Convergence.Obeys`), and this is exact:
after any run that obeyed so far, an add is safe if and only if there is no such
tombstone (`Necessity.HypothesisIsExact`). `Counterexample.BadRunDiverges` is a run
of seven events that ends with a drained client and the wrong table.

The source comments that a route being deleted must be there
(broker/route_broker.c:427); the code also takes the other branch and drops the
message, and the model follows the code.

## Assumptions

- Ids do not wrap: the methods require ids below 2^64; the functions on values use
  unbounded ids.
- `route_broker_copy_obj` succeeds inside a read. Failures of allocation and
  copying in a publish are modelled (`Runs.Input`).
- `zhash_insert` leaves a present key alone, `zhash_delete` of an absent key does
  nothing.
- Clients are added to and removed from the client list atomically with their
  cursors, although the source does this just outside the mutex
  (broker/route_broker.c:349, 374).
- The time limit of the condition wait and spurious wakeups are one event, `Wake`,
  which may happen at any time.
- Netlink integers are little-endian, as on the hosts the daemon is built for.

## Model

| member | source | states |
|---|---|---|
| Broker.AddObjFacts | broker/broker.c:100-111 | adding keeps the id/position invariant and adds exactly one object, unmarked, with one more reference and the next id |
| Broker.DelNowFacts | broker/broker.c:113-117 | forced removal keeps the invariant, removes exactly that object and unlocks exactly its route; ids and cursors stay |
| Broker.MoveToTailFacts | broker/broker.c:119-147 | marking deleted or updating replaces the object by itself with a fresh id and the given mark, and keeps the invariant |
| Broker.SetDataFacts | broker/route_broker.c:450-451 | swapping a payload in place changes that object's payload and nothing else |
| Broker.ClientCreateFacts | broker/broker.c:149-186 | a new client's cursor keeps the invariant, has every listed object pending, and has the broker's id exactly if nothing is listed |
| Broker.ClientDeleteFacts | broker/broker.c:188-215 | deleting a client keeps exactly the objects that are not tombstones or that some remaining client needs, and unlocks exactly the others, once each |
| Broker.NextForIsLeastPending | broker/broker.c:217-233 | the scan finds nothing exactly if nothing is pending by id, and otherwise the pending object of least id |
| Broker.GetDataFacts | broker/broker.c:239-273 | a read moves one cursor to the id delivered (or to the broker's id), and removes only an unneeded tombstone it has just passed |
| Broker.GetDataKeepsNeeded | broker/broker.c:266-269 | a tombstone that a read leaves listed still has a client that has not read it |
| Broker.NeededIsPositional | broker/broker.c:71-98 | some client id is below an object's id exactly if some cursor stands before it in the list |
| Broker.PendingIsPositional | broker/broker.c:217-233 | an object is pending by id exactly if it stands after the client's cursor |
| Broker.BehindIsABound | broker/route_broker.c:124-127 | broker id minus cursor id does not underflow and is at least the number of pending objects |
| CursorBroker.RouteTable.UnlockObj | broker/route_broker.c:62-70 | dropping the last reference erases the topic and frees route and payload |
| CursorBroker.CursorBroker.NoClientsNeedThis | broker/broker.c:80-98 | the minimum-id loop answers whether no cursor stands before the entry |
| CursorBroker.CursorBroker.AddObj | broker/broker.c:100-111 | the method does what the function does, and keeps Valid |
| CursorBroker.CursorBroker.DelObjNow | broker/broker.c:113-117 | unlinks the entry and unlocks its route |
| CursorBroker.CursorBroker.DelObj | broker/broker.c:119-134 | removes at once without clients, otherwise leaves a tombstone at the tail |
| CursorBroker.CursorBroker.UpdObj | broker/broker.c:136-147 | moves to the tail unmarked with a fresh id |
| CursorBroker.CursorBroker.ClientCreate | broker/broker.c:149-186 | cursor at the head, id 0, or the broker's id if there is nothing to read |
| CursorBroker.CursorBroker.NextDataObj | broker/broker.c:217-228 | the scan loop finds the next data object |
| CursorBroker.CursorBroker.GetData | broker/broker.c:239-273 | delivers the next object, moves the cursor behind it, frees it if it was a tombstone nobody needs |
| CursorBroker.CursorBroker.ClientDelete | broker/broker.c:188-215 | the remove-while-walking loop terminates, looks at each entry once, leaves the filtered list in order and unlocks the rest in order |
| Routes.PublishUnknown | broker/route_broker.c:458-461 | a delete of an unknown topic lists nothing and frees both copies |
| Routes.PublishNew | broker/route_broker.c:507-511 | an add of an unknown topic lists and hashes one object at the published level |
| Routes.PublishPromoted | broker/route_broker.c:429-477 | a message of higher priority replaces the hashed object by one at its own level; a delete is left unhashed |
| Routes.PublishInPlace | broker/route_broker.c:444-506 | otherwise the hashed object stays at its level with the new payload, a fresh id and the mark of the message |
| Routes.PublishIsReplacement | broker/route_broker.c:389-516 | in all outcomes: which object leaves, which lands where with what id, the hash table and the frees afterwards |
| RouteInvariants.PublishKeepsBase | broker/route_broker.c:389-516 | publishing keeps the invariant: id/position order, one reference per route, payload matches mark, unique addresses, no dangling hash entry, conservation |
| RouteInvariants.PublishKeepsRoutes | broker/route_broker.c:398-512 | after a publish each route ever made is listed or was freed exactly once |
| RouteInvariants.PublishKeepsData | broker/route_broker.c:398-512 | the same for payload copies |
| RouteInvariants.ReadReleases | broker/route_broker.c:309-311 | what a read releases leaves list and hash table and is freed once; one cursor moves |
| RouteInvariants.ReadKeepsBase | broker/route_broker.c:284-314 | reading keeps the invariant |
| RouteInvariants.ClientCreateKeepsBase | broker/route_broker.c:322-351 | joining keeps the invariant and the listing, with everything pending at every level |
| RouteInvariants.ClientDeleteReleases | broker/route_broker.c:364-376 | leaving releases exactly the tombstones only that client had yet to read, over all levels |
| RouteInvariants.ClientDeleteKeepsBase | broker/route_broker.c:364-376 | leaving keeps the invariant |
| Runs.ReadCursors | broker/broker.c:247-264 | a read moves one cursor of one client at one level, forward, to the id it delivers |
| Runs.StepIsSound | broker/route_broker.c:284-516 | every event keeps the invariant, the delivery logs in order, and waiting clients without data |
| Runs.RunIsSound | broker/route_broker.c:284-516 | so does every run |
| EveryRun.IdsFollowPositions | broker/broker.c:100-147 | in every reachable state object ids increase down the list, objects before a cursor have ids up to its id and objects after it have greater ones |
| EveryRun.TombstonesAreAwaited | broker/broker.c:119-134 | every tombstone has a cursor before it; without clients there are none |
| EveryRun.ReclamationIsExact | broker/broker.c:188-215 | a read or a departure removes an object exactly if it is a tombstone that no client needs any more |
| EveryRun.CheapTestIsExact | broker/broker.c:71-98 | in every reachable state the id comparison is the question about positions |
| EveryRun.BehindOnEveryRun | broker/route_broker.c:124-127 | in every reachable state "behind" is a true bound |
| EveryRun.NoLostWakeup | broker/route_broker.c:300-307 | in every reachable state a client that waits unsignalled has nothing pending at any level |
| EveryRun.SleepIsExact | broker/route_broker.c:299-307 | a reader ends up waiting exactly if its id equals the broker's at every level, and then nothing else changes; otherwise nobody comes to wait |
| EveryRun.EveryClientCanWait | broker/route_broker.c:284-314 | after any run, a client that keeps reading comes to wait: the waiting set of the wakeup laws is not empty |
| EveryRun.WakingForNothing | broker/route_broker.c:299-307 | a waiting client may look again at any time, and is back in the same state if nothing was published |
| EveryRun.SignalsAreExact | broker/route_broker.c:378-387 | a publish wakes every waiting client if an object lands and none otherwise |
| EveryRun.WhoWaits | broker/route_broker.c:299-387 | over all events: who waits is who waited and was not woken by a landing object or by itself, and the reader that is up to date |
| EveryRun.RejectedLeavesNoTrace | broker/route_broker.c:398-420 | a message that is not accepted changes no listing, cursor, hash entry, log or waiter, and all that was allocated for it is freed |
| EveryRun.JoinSeesNoPhantoms | broker/broker.c:176-183 | to a client that joins, a level looks as if it had data exactly if it lists an object |
| EveryRun.PayloadMatchesMark | broker/route_broker.c:250-263 | a listed object is marked deleted exactly if its payload is a delete, of its topic, at its level |
| EveryRun.NothingLeaksOrIsFreedTwice | broker/route_broker.c:62-103 | listed routes have one reference and one place; everything else ever allocated was freed exactly once |
| EveryRun.HashNeverDangles | broker/route_broker.c:423-512 | with no hypothesis, a hash entry leads to a listed route of that topic at its level |
| EveryRun.PriorityOrder | broker/route_broker.c:265-311 | a read is served from a level above which nothing is pending, with the oldest pending object of that level |
| EveryRun.DeliveriesIncrease | broker/broker.c:247-264 | the ids that one level delivers to one client strictly increase over the whole run |
| Progress.NoDataIsDrained | broker/route_broker.c:265-275 | when data_available_for_client reports none, no object lies after any cursor of the client |
| Progress.ReadLowersMeasure | broker/route_broker.c:300-313 | each read of a client that is not drained lowers pending objects plus levels that only look as if they had data |
| Progress.QuietRun | broker/route_broker.c:284-314 | without publishes, whatever other clients do, every read counts |
| Progress.DrainBound | broker/route_broker.c:265-313 | with k objects pending, k + 3 reads drain a client, NULL reads included |
| Progress.CanDrain | broker/route_broker.c:284-314 | from any sound state there is a sequence of reads that drains a client, no longer than its pending objects plus 3 |
| Convergence.PubAgrees | broker/route_broker.c:389-516 | an obeying publish keeps one object per topic, live objects hashed and equal to the authority, and clients right about all they have read |
| Convergence.GetAgrees | broker/route_broker.c:284-314 | a read keeps the same, for the reader and for everyone else |
| Convergence.JoinAgrees | broker/route_broker.c:322-351 | a late client starts out right about everything it has nothing to read of |
| Convergence.LeaveAgrees | broker/route_broker.c:364-376 | a departure keeps the same for those who stay |
| Convergence.Convergence | broker/route_broker.c:277-314 | over every run that obeys the hypothesis, a client with nothing pending has received messages that fold to the same table as everything published |
| Convergence.StepConverges | broker/route_broker.c:284-516 | from any reachable state in agreement, an obeying event leads to agreement and convergence again |
| Convergence.IndexAgreement | broker/route_broker.c:423-512 | over the same runs a topic has one object over all levels, the hash table names it exactly, and what it does not know is a tombstone |
| Necessity.BadAddDiverges | broker/route_broker.c:62-70 | an add over an unhashed tombstone has an obeying continuation in which a drained client has the wrong table |
| Necessity.HypothesisIsExact | broker/route_broker.c:429-443 | after an obeying run, an add is safe for every obeying future if and only if no unhashed tombstone of its topic is listed |
| Counterexample.BadRunDiverges | broker/route_broker.c:429-443 | a concrete run: add, promoted delete, add at a higher priority; the drained client misses the route |
| Traversal.TourVisits | broker/route_broker.c:131-152 | the traversal visits the entries of the levels before the first empty one, each once |
| Traversal.TourInOrder | broker/route_broker.c:131-152 | the traversal goes by priority, and within a priority from the entry that stands last in its list to the first |
| Traversal.TourIsComplete | broker/route_broker.c:131-152 | it is complete exactly if no empty level precedes one that is not |
| Traversal.TourCanMissRoutes | broker/route_broker.c:131-152 | the failing side has reachable inputs: without clients, any route added below the top priority is listed and hashed, and the traversal is empty |
| Traversal.TourWithClients | broker/route_broker.c:131-152 | with a client registered it visits every entry exactly once, by priority and newest first within a priority |
| RouteBroker.RouteBroker.constructor | broker/route_broker.c:214-232 | a new route broker is the start of every run |
| RouteBroker.RouteBroker.Serves | broker/route_broker.c:277-314 | while no publish has broken the hypothesis, every drained client of the object has the authoritative table and its hash table is exact |
| RouteBroker.RouteBroker.DataAvailable | broker/route_broker.c:265-275 | the loop finds the first level whose id is not the client's, or -1 |
| RouteBroker.RouteBroker.WakeClients | broker/route_broker.c:378-387 | exactly the waiting clients that have data are signalled |
| RouteBroker.RouteBroker.PublishLocked | broker/route_broker.c:423-512 | the branches together do what the function Publish does |
| RouteBroker.RouteBroker.Publish | broker/route_broker.c:389-516 | publishing, with its early returns and counters, is one event of a run, and records whether it obeyed the hypothesis |
| RouteBroker.RouteBroker.ClientCreate | broker/route_broker.c:322-351 | is one event of a run, and leaves convergence in force |
| RouteBroker.RouteBroker.ClientDelete | broker/route_broker.c:364-376 | is one event of a run, and leaves convergence in force |
| RouteBroker.RouteBroker.GetData | broker/route_broker.c:284-314 | is one event of a run; the reply is the message delivered, NULL, or sleep, and the client is among the waiting exactly if it sleeps |
| RouteBroker.RouteBroker.TimeOut | broker/route_broker.c:300-305 | a wait that ends without a signal is one event of a run |
| RouteBroker.RouteBroker.SeqNext | broker/route_broker.c:137-152 | the previous entry of the level, else the newest of the next level, else NULL |
| RouteBroker.RouteBroker.Show | broker/route_broker.c:181-191 | the loop shows the traversal described in Traversal |
| Netlink.RewriteIsLocal | daemon/broker_process.c:170-239 | the rewrite changes four bytes at most, never the length or type of a message |
| Netlink.RewriteNormalises | daemon/broker_process.c:170-230 | the result has the replace flag, a table, a type and no link-scope kernel IPv4 route; a message that is so already is unchanged, and only offending values are replaced; which messages are published, with which priority |
| Netlink.ScopeDoesNotSplit | daemon/broker_process.c:189-199 | a connected IPv4 route ends up the same with link scope and with universe scope |
| Netlink.RewriteIsIdempotent | daemon/broker_process.c:170-239 | rewriting again changes and publishes nothing new |
| Netlink.SpansAreDisjoint | daemon/broker_process.c:226-238 | the messages found are disjoint, in order and inside the buffer, whatever its length |
| Netlink.SpansAreAligned | daemon/broker_process.c:226-238 | each message found starts at an aligned offset, if the buffer does |
| Netlink.WalkIsLocal | daemon/broker_process.c:221-239 | bytes outside the messages are unchanged |
| Netlink.WalkKeepsSpans | daemon/broker_process.c:221-239 | the rewritten buffer has its messages in the same places |
| Netlink.WalkIsIdempotent | daemon/broker_process.c:221-239 | walking the walked buffer changes and publishes nothing new |
| Netlink.WalkFindsAll | daemon/broker_process.c:221-239 | of messages laid out with padding, each is handled, whole and in order |
| Netlink.AlignedIsSafe | daemon/broker_process.c:226-226 | in a buffer of aligned length the remaining length never underflows |
| Netlink.LengthsThatAreSafe | daemon/broker_process.c:302-318 | a length is safe whatever the buffer holds exactly if it is aligned or too short for a header |
| Netlink.RewriteAt | daemon/broker_process.c:170-219 | the in-place stores amount to the rewrite of that message; what is published, with which priority |
| Netlink.ProcessNlmsg | daemon/broker_process.c:221-239 | for a buffer of any length the loop terminates, rewrites the buffer as the walk on values does and publishes the same, and tells exactly whether the remaining length would have wrapped below zero |
| NetlinkBytes.RewriteInBytes | daemon/broker_process.c:170-236 | which messages are routes, and every byte of the rewritten message, in bytes of the original and numbers: the replace bit under type 24 only; 254, 0 and 1 at offsets 20, 22 and 23, each under its own condition |
| NetlinkBytes.HandInBytes | daemon/broker_process.c:186-218 | a route message is handed on exactly once and whole, with priority 0 from the kernel and 2 otherwise; other messages are not |
| NetlinkBytes.WalkIsAChain | daemon/broker_process.c:226-226 | the messages found follow each other at multiples of four, each with the length its header says, up to where no message fits; the remaining length wraps exactly if that is beyond the buffer |
| NetlinkBytes.PubsAreTheRoutes | daemon/broker_process.c:218-238 | what is published is the route messages of the rewritten buffer: one for each such message found, whole, in order |
| NetlinkBytes.SpansAreRewritten | daemon/broker_process.c:221-239 | each message in the buffer is rewritten by itself, where it stands |
| Fpm.AcceptedIsAligned | daemon/fpm.h:250-270 | a header that passes all checks leaves a payload of aligned length |
| Fpm.AcceptsInBytes | daemon/broker_process.c:259-279 | a header passes exactly if its bytes are 1, 1 and a length in network order from 4 to 4096 that is a multiple of four |
| Fpm.FirstInBytes | daemon/broker_process.c:241-300 | when a stream starts with a frame, with part of one, or with something else, and what the frame is, told in bytes |
| Fpm.FirstOfEncoded | daemon/fpm.h:192-221 | a framed payload, four bytes and the payload, is recognised whatever follows |
| Fpm.FirstIsEncoded | daemon/broker_process.c:259-279 | whatever is accepted is a framed payload, byte for byte |
| Fpm.DecodeEncoded | daemon/broker_process.c:241-300 | a stream of frames, even cut off in the last, is read back frame by frame |
| Fpm.Socket.Fill | daemon/broker_process.c:250-289 | a receive loop gets exactly the bytes it needs however recv splits them, and leaves the buffer before and behind them alone |
| Fpm.Socket.ProcessFpm | daemon/broker_process.c:241-300 | one call consumes exactly one frame and publishes its messages, independent of the splitting; the remaining length of the walk never wraps |
| Fpm.Socket.Serve | daemon/broker_main.c:252-268 | repeated calls publish what the whole stream says, independent of the splitting |
| Topics.DottedReads | broker/topic.c:46-57 | a printed IPv4 address, split at its dots and read as numbers, gives back the four bytes |
| Topics.DottedInjective | broker/topic.c:46-57 | printed IPv4 addresses are distinct |
| Topics.PrintReads | broker/topic.c:107-136 | a topic, split into words and read as numbers, gives back its kind and key: no field is lost, merged or swapped |
| Topics.PrintInjective | broker/topic.c:107-136 | topics of the three kinds are equal exactly if kind and key are |
| Topics.PrintFits | broker/route_broker_internal.h:22-22 | every topic is non-empty and shorter than the 204 bytes of its buffer |
| Topics.LabelIsTopBits | broker/topic.c:117-120 | an MPLS key is the number in the top 20 bits of the entry in network order, the label of section 2.1 of RFC 3032 |
| Topics.LabelInjective | broker/topic.c:117-120 | entries have the same key exactly if they agree in those 20 bits |
| Topics.OthersAreIgnored | broker/topic.c:149-176 | a message is ignored exactly if it is not an add or delete of a route that clients should hear of |
| Topics.TopicTellsFields | broker/topic.c:59-204 | the topic of a message, read as text, gives back the kind of route and the message's own fields: addresses byte by byte, lengths, scope, signed interface indexes, label, and the table attribute where there is one |
| Topics.TopicsAreKeys | broker/topic.c:140-204 | two messages get the same topic exactly if the fields that make up the key agree, the table being the attribute where there is one; no topic is cut off, and deletes are told from adds |
| Topics.TopicsIdentifyRoutes | broker/topic.c:140-204 | no message about another route has the topic of a message if and only if the message is of a family that inet_ntop knows (or MPLS); routes of other families, such as AF_INET with type RTN_MULTICAST, share topics |

## Left out

- Convergence.Convergence: claimed for runs that obey the hypothesis above, because it fails otherwise; `Necessity.HypothesisIsExact` says exactly when.
- Netlink.ProcessNlmsg: where the remaining length wraps below zero (an unaligned length from the kernel socket), the source goes on beyond its buffer; the model stops there and reports it, and `Netlink.LengthsThatAreSafe` says for which lengths it cannot happen.
- Fpm.Socket.ProcessFpm: after recv reports an error nothing is claimed about what was consumed, because the daemon then exits.
- Topics.TopicsIdentifyRoutes: takes inet_ntop for IPv6 as a function that is injective on 16 bytes, at most 45 characters, with a colon and without blanks or slashes (`ContractCanBeMet` shows that one exists), and a NULL string as printed "(null)", as glibc does; address attributes shorter than their family, which the source would read beyond, are excluded.
- Parsing of netlink attributes (libmnl): topics start from parsed fields, so the bytes of `Netlink` and the fields of `Topics` are not connected by a parser.
- The links of the circular list and the embedding of one struct in another: lists are sequences of entries, addresses are keys, and a route is stored in its list entry, so aliasing between heap cells is not modelled.
- Wrap-around of the 64-bit ids, and copies that fail inside a read (the update would be lost).
- The windows between the mutex and the client list in client creation and deletion.
- broker/route_broker_dp_ctrl.c, broker/route_broker_dp_data.c, broker/route_broker_kernel.c: sockets, threads and configuration; they are clients that read and leave.
- daemon/broker_main.c apart from its FPM loop, the kernel socket and the dump of kernel routes.
- broker_create, broker_delete, route_broker_destroy and the cleanup after a failed client creation.
- The consumed counters, error counters of clients, logging and the text of the show output.
- The RTNLGRP_RTDMN build of the topic formats, which adds one field.
