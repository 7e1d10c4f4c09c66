# Verified model of the message protocol of the TWS server

This project models, in Dafny, how the threads of the server hand messages to one another, how the back-end that
talks to the trader workstation (TWS) rations its ten scanner subscriptions, how threads get connected, and three
smaller pieces: the allocator of unique ids, the streaming JSON writer, the path reducer and the scheduling queue.
Code that changes things step by step is modelled by classes and methods with loops; each such method is proved to
do what a function says, and what the program promises is proved about that function for all inputs and all runs.

`dafny verify dfyconfig.toml` checks everything.

## The modules

- `Tier2Protocol`, `Tier2Invariants`, `Tier2Runs`: the life of a message as a transition function. What virtual
  handlers and registered observers do is not fixed: one terminating call of them is a finite tree of actions
  (`Script`, `Glances`, `Run`), and every theorem holds for all such trees, so re-entry to any depth is covered.
  Runs interleave any number of threads, pulses (with writes that fail) and deliveries.
- `Tier2StateChange`: which of the states a handler goes through is the one that stays. `Tier2Delivery`: what the new
  owner's observers and handlers do with a message that arrives. `Tier2Drain`: the drain of
  the messages marked for pulsing, and who can be stranded. `Tier2CancelRace`: a cancel and its target.
- `Tier2Runtime`: the message, processor and communicator code as classes, proved equal to the transitions.
- `ScannerSlots`, `ScannerContracts`, `ScannerBackend`: the back-end. Its `state()`, `exec_state()`, the limiter,
  the handlers and the cancel logic are mutually recursive methods on mutable fields; `ScannerContracts` says what
  each promises, `except` naming the messages in the middle of a change and `hole` the tickers TWS is still owed a
  cancel for. Giving up a slot builds a cancel message, runs it and destroys it inside the change of another message.
- `ScannerHistory`: what the traffic with TWS tells about the requests at hand; part of the back-end's invariant.
- `UniqueIds`, `Communicators`, `CommunicatorsRuntime`, `JsonOutput`, `PathReducer`, `MessageQueue`.
- `Sequences`, `Arithmetic`, `MessageStates`: the erase and push-back idioms, division, and the message states.

## Assumptions

- A socket write takes the whole pointer or fails. As coded, a write that returns 0 counts as a success
  (interthread_comm.cpp:91) and would lose the message.
- A thread touches only messages it owns, and code running on behalf of a message does not destroy it.
- That no message is stranded depends on observers in two places: a message taken back after a failed write, and a
  message that comes home in DESTRUCTION. An observer that answers DONT_CHANGE there strands it, and nothing else
  does: `Tier2Drain.RefusalStrandsIffVetoed` and `Tier2Drain.DeliveryStrandsIffVetoed`, for observers that do nothing
  but answer.
- Tickers of scanner subscriptions are drawn from one counter (app_manager.cpp:542), so they differ.
- In `ScannerBackend` the back-end owns every message it handles and is its receiver; whether TWS rejects the n-th
  transmission is an arbitrary function.

## What the proofs brought to light

- A cancel reports an error exactly when it has succeeded in aborting its target, or has not found it
  (tier2_message.cpp:658-668), so a cancel that worked is driven to FAILED; the scanner cancel does the same
  (tws_instance.cpp:1065-1079). `Tier2Runtime.Runtime.CancelCommand` and `ScannerBackend.BackEnd.ExecState` state it.
- The round-robin position of `pulse_pending_issues` never moves: `state()` answers the state reached by nested
  changes, never COMMENCE_TRANSMIT (tws_instance.cpp:1188). `ScannerBackend.BackEnd.PulsePendingIssues` states it.
- A client's subscription can go home with the limiter still registered, against the assertion at
  tws_instance.cpp:1286. `ScannerHistory.LimiterGoesAlong` proves over all runs that this happens to exactly those that
  were never requested of TWS, such as one that is cancelled while it waits for a slot
  (`ScannerBackend.ElevenSubscriptions` is a run), and to those that were robbed: the slot of a subscription is given up
  on the account of a cancel that concludes, which needs a cancel that named the ticker before it was drawn
  (`ScannerBackend.RobbedOfItsSlot` is a run).
- The search of the id allocator never ends exactly when it starts at or beyond `m_last_bucket_idx` and no bucket
  below that index is empty (unique_id_manager.h:144-153): `UniqueIds.SearchEnds` proves both directions, and
  `UniqueIds.GetStuck` takes and releases one-byte ids in sixteen buckets until it is stuck. With the layout that
  the program chooses for one byte this cannot happen (`UniqueIds.NarrowNeverSpins`).
- Releasing an id that is not live goes unnoticed when its bucket is in use, and breaks the counters.
- `a//../b` is reduced to `a/b`: the empty name between the slashes is taken for the parent. A relative path keeps its
  place exactly when the loop never does that (`PathReducer.RelativeLeadsThereIff`); `a//b` is harmless.
- The round of `fetch` ends exactly when the pop position lies within the queue, which erasing an item does not ensure;
  `MessageQueue.EraseBehind` is a run.
- The queue's polling is not round robin: the item returned last is scanned last, and the last of the most important
  is taken, so it comes again as long as it is due and nothing due is more important (`MessageQueue.SameItemAgain`).
- The comment at tier2_message_queue.h:242-246 speaks of entries that have become active; the code takes an
  activation time that is still ahead and refuses one that has passed (tier2_message_queue.h:113-114). The model
  follows the code.

## Model

| member | source | states |
|---|---|---|
| Tier2Runs.OnePlace | tier2_message.h:31-39 | In every run a live message is owned once by its requester or receiver and on no wire, or ownerless and exactly once on the one wire towards the side its state calls for |
| Tier2Runs.NothingDangles | tier2_message_processor.cpp:145-178 | The address of a destroyed message is in no list and on no wire |
| Tier2Runs.SidesDisciplined | tier2_message.cpp:217-349 | In every run the owner of a message is the side its state calls for both when a handler starts and when it returns, whatever it does in between, and a message is deleted by its requester while owning it |
| Tier2Runs.NothingStranded | tier2_message.cpp:188-367 | In every run an owned message that belongs on the other side, or to destruction, is marked for pulsing; only refused messages and messages that come home in DESTRUCTION need observers that do not object |
| Tier2StateChange.LastCallStands | tier2_message.cpp:179-186 | Whatever a handler does first, the state its last `state()` call on its own message reached is the one that stays and the one that is answered |
| Tier2StateChange.StateAskedForStands | tier2_message.cpp:351-363 | If the handler does not change the state, to any depth of re-entry, it is the state asked for; asked for the state it has, a message asks nobody and nothing changes |
| Tier2StateChange.ErrorEndsInFailure | tier2_message.cpp:179-186 | A handler's error ends in FAILED, whatever state its nested calls had reached, unless an observer vetoes that or the handler of FAILED goes on from there; an error this one reports changes nothing |
| Tier2StateChange.PlaySpares | tier2_message.cpp:179-367 | Code that never calls `state()` on a message, to any depth of re-entry, leaves its present and previous state |
| Tier2Delivery.ObservedInOrder | tier2_message.cpp:44-75 | The observers asked are played one after the other, in the order of their registration, down to the first that does not let the change pass, and its answer is the answer |
| Tier2Delivery.DeliveryRunsHandler | tier2_message.cpp:463-467 | On every delivery whose observers let it pass, the handler of the state with which the message arrived starts and returns with the new owner, and without an error what it leaves is all there is |
| Tier2Delivery.DeliveredErrorFails | tier2_message.cpp:463-467 | An error of that handler ends in FAILED, unless vetoed, and a message that has crossed is marked for the way home |
| Tier2Delivery.DeliveryFailedByObserver | tier2_message.cpp:192-199 | So does an error that an observer answers, and the handler of the state is not run |
| Tier2Delivery.DeliveryVetoed | tier2_message.cpp:201-204 | After a veto there is exactly what the observers have left |
| Tier2Runs.NextGood | tier2_message.cpp:188-472 | Every step of every thread keeps placement, marking and side discipline |
| Tier2Runs.TakeOverGood | tier2_message.cpp:438-472 | Taking ownership out of limbo restores the full invariant for the message that was nowhere |
| Tier2Runs.PulseMessageGood | tier2_message.cpp:369-430 | A pulse destroys at the requester or hands over through limbo, keeping the invariant also when the write fails |
| Tier2Runs.PopGood | interthread_comm.cpp:106-178 | Popping the head of a wire makes the reader its one owner |
| Tier2Runs.SendGood | interthread_comm.cpp:82-98 | A posted message leaves its owner's lists and is once on the wire |
| Tier2Invariants.PlayGood | tier2_message.cpp:44-75 | Whatever a handler or observer does, to any depth of re-entry, keeps the invariant for messages not in the middle of a change |
| Tier2Invariants.SetStateGood | tier2_message.cpp:179-186 | A state change settles its message: afterwards it is at home or marked |
| Tier2Invariants.ExecGood | tier2_message.cpp:188-367 | The same for `exec_state`, whatever observers and handlers answer |
| Tier2Invariants.HandleGood | tier2_message.cpp:217-349 | Running or queueing the handler of a state leaves the message at home or marked |
| Tier2Invariants.RunHandlerGood | tier2_message.cpp:217-349 | The handler starts and returns with its message owned by the side it belongs to, and keeps the invariant |
| Tier2Invariants.CreateGood | tier2_message.cpp:116-169 | A new message is owned by its requester alone |
| Tier2Invariants.DeleteGood | tier2_message.cpp:388-395 | Destruction by the requester removes the message from both its lists |
| Tier2Drain.DrainSettles | tier2_message_processor.cpp:207-233 | Whatever failed on the way, after the drain everything still owned is at home and none is in DESTRUCTION |
| Tier2Drain.DrainFailsIff | tier2_message_processor.cpp:207-233 | The drain answers failure exactly if in some turn the head was bound elsewhere and its write refused |
| Tier2Drain.DrainFailsIffRefused | tier2_message_processor.cpp:207-233 | While observers do nothing but answer, that is exactly if a message was refused |
| Tier2Drain.DrainTurns | tier2_message_processor.cpp:207-233 | With k refused writes the loop takes at most as many turns as messages were marked, plus k, plus the messages that observers newly marked meanwhile; with none exactly that many |
| Tier2Drain.QuietBystanders | tier2_message_processor.cpp:207-233 | Observers that do nothing but answer mark nothing, so the turns are at most the marked messages plus the refusals |
| Tier2Drain.DrainSendsInOrder | tier2_message_processor.cpp:207-233 | With any number of refused writes, and whatever observers answer then, every wire gets exactly the marked messages bound for it, each once, but for those that observers hold back, and those never refused in queue order |
| Tier2Drain.DrainSends | interthread_comm.cpp:82-98 | The exact sequence sent on each wire when writes fail: a refused message goes to the back of the queue, or off it if an observer vetoes its state or fails it at its requester; any other leaves from the front |
| Tier2Drain.SendingIsPermutation | tier2_message_processor.cpp:207-233 | That sequence and the messages held back are together the messages bound for the wire, each once |
| Tier2Drain.SendingKeepsOrder | tier2_message_processor.cpp:207-233 | Two messages never refused are in it in the order in which they were queued |
| Tier2Drain.RefusalRotates | interthread_comm.cpp:91-96 | A refused message that no observer objects to goes from the front to the back of its owner's lists and nothing else happens |
| Tier2Drain.SentTakesHead | tier2_message_processor.cpp:214-223 | A turn whose write succeeds takes the head off the queue, touches no other message and sends at most the head |
| Tier2Drain.RefusalStrandsIffVetoed | tier2_message.cpp:457-468 | A message taken back after a failed write is stranded exactly when the first observer that objects answers DONT_CHANGE |
| Tier2Drain.DeliveryStrandsIffVetoed | interthread_comm.cpp:160-177 | A message delivered is stranded exactly when it comes home in DESTRUCTION and the first observer that objects answers DONT_CHANGE |
| Tier2Drain.HomeComingGood | tier2_message.cpp:438-472 | A delivery of a message in any other state keeps the invariant whatever observers do |
| Tier2CancelRace.NextKeepsAhead | tier2_message.cpp:638-657 | No step lets a cancel get ahead of a target queued before it |
| Tier2CancelRace.CancelNeverOvertakes | tier2_message.cpp:638-669 | When the receiver has the cancel, a target queued earlier is neither waiting to be sent nor in flight towards it, whatever observers do and also if messages are called back |
| Tier2Runtime.Processor.DoesOwn | tier2_message_processor.cpp:180-188 | True exactly for the messages of the own-list |
| Tier2Runtime.Processor.Own | tier2_message_processor.cpp:131-143 | Appended unless already owned |
| Tier2Runtime.Processor.Release | tier2_message_processor.cpp:145-178 | The first occurrence is erased from both lists |
| Tier2Runtime.Processor.QueueForPulsing | tier2_message_processor.cpp:190-205 | Appended unless already marked |
| Tier2Runtime.Message.RegisterHandler | tier2_message.cpp:80-92 | Appended unless already registered |
| Tier2Runtime.Message.UnregisterHandler | tier2_message.cpp:94-108 | The first occurrence is erased |
| Tier2Runtime.Runtime.HandleStateChange | tier2_message.cpp:44-75 | Asks the observers registered at the start in order until one objects, whatever they do meanwhile |
| Tier2Runtime.Runtime.SetState | tier2_message.cpp:179-186 | Refines the transition of `state()`, state and answer |
| Tier2Runtime.Runtime.ExecState | tier2_message.cpp:188-367 | Refines the transition of `exec_state()`, state and answer |
| Tier2Runtime.Runtime.RunStateHandler | tier2_message.cpp:217-349 | Refines running or queueing the handler of a state |
| Tier2Runtime.Runtime.TakeOwnership | tier2_message.cpp:438-472 | Refines taking ownership and executing the state once more, twice at most; what that does is said by `DeliveryRunsHandler` and its companions |
| Tier2Runtime.Runtime.PostMessage | interthread_comm.cpp:82-98 | Refines the handover through limbo, onto the wire or back |
| Tier2Runtime.Runtime.PulseMessage | tier2_message.cpp:369-430 | Refines destruction, transfer or nothing, by state and owner |
| Tier2Runtime.Runtime.PulseMarkedMessages | tier2_message_processor.cpp:207-233 | The loop computes the drain, its number of turns and whether any of them failed |
| Tier2Runtime.Runtime.PopOneMessage | interthread_comm.cpp:160-177 | Refines a delivery |
| Tier2Runtime.Runtime.CancelCommand | tier2_message.cpp:638-669 | Aborts the target where the processor owns it; an error is reported unless the abort ended in another state |
| ScannerBackend.BackEnd.SetState | tier2_message.cpp:179-186 | From any state a request's concluding, admitting or cancelling change keeps the invariant, touches only what it may, ends in the state it must given what TWS answers, and has TWS told exactly what it must: a request on admission, with a cancel behind it if TWS rejects it, a cancel for a slot given up, and nothing else |
| ScannerBackend.BackEnd.ExecState | tier2_message.cpp:188-367 | One execution: refused for want of a slot, admitted, or failed; a cancel that found something reports an error |
| ScannerBackend.BackEnd.ProcessChange | tws_instance.cpp:1254-1329 | Admission exactly while fewer than ten slots are taken; a concluding change erases the slot of its ticker, sends one cancel for it and leaves TWS owed nothing |
| ScannerBackend.BackEnd.GiveUpSlot | tws_instance.cpp:1297-1322 | The slot is erased, a cancel message is built, run and destroyed, and all lists are otherwise as before |
| ScannerBackend.BackEnd.EnterState | tier2_message.cpp:206-366 | The change is made and its handler run; a handler's error, such as a transmission that TWS rejects, is answered as FAILED whatever the kind of request |
| ScannerBackend.BackEnd.ExecCommandHandler | tws_instance.cpp:78-98 | A subscription registers the limiter and waits; a cancel aborts what it matches, then is transmitted |
| ScannerBackend.BackEnd.WaitForTransmitHandler | tier2_message.cpp:611-616 | Goes on to COMMENCE_TRANSMIT at once |
| ScannerBackend.BackEnd.CommenceTransmitHandler | tws_request.cpp:823-853 | One transmission, then READY_TO_RECEIVE_RESPONSE whatever TWS answers; an error is reported exactly if TWS rejects it |
| ScannerBackend.BackEnd.ConclusionHandler | tws_request.cpp:88-147 | The back-end's own requests go on to DESTRUCTION, a client's are marked for the way home |
| ScannerBackend.BackEnd.MeantFor | tws_request.cpp:1451-1460 | Exactly the owned subscriptions with the cancel's ticker |
| ScannerBackend.BackEnd.CancelAllMatching | tws_instance.cpp:1024-1080 | All requests meant are aborted and hold no slot, all others are untouched, TWS is told of the slot freed if there was one, the cancel is in DESTRUCTION, and the answer tells whether a request was found |
| ScannerBackend.BackEnd.TakeOver | tier2_message.cpp:457-468 | A message that arrives has its state executed as by `state()` |
| ScannerBackend.BackEnd.Arrive | mongoose_event_handler.cpp:161-167 | A client's command, executed on arrival, keeps the invariant; a request waits for its response exactly if TWS accepts it and, for a cancel, if it has matched nothing, and has failed and is marked otherwise; a subscription may also wait with all slots taken |
| ScannerBackend.BackEnd.Submit | tws_stocklist_loading.cpp:262-263 | The same for the back-end's own requests, which are destroyed when they fail |
| ScannerBackend.BackEnd.CancelWaiting | tws_instance.cpp:1024-1066 | A subscription of a client that a cancel finds waiting is aborted, marked for the way home, and keeps the limiter |
| ScannerBackend.BackEnd.RecallTarget | tier2_message.cpp:638-669 | A cancel message that names a request aborts it where it is owned, by the same rules as any other change, robs the holder of the slot if that request is a cancel, and answers as the program does |
| ScannerBackend.ElevenSubscriptions | tws_instance.cpp:1275-1301 | A run in which the eleventh subscription is cancelled and goes home with the limiter still registered |
| ScannerBackend.RobbedOfItsSlot | tws_instance.cpp:1275-1322 | A run in which a subscription requested of TWS is robbed of its slot and goes home with the limiter still registered |
| ScannerBackend.BackEnd.PulseTurn | tier2_message_processor.cpp:214-223 | Who is to leave leaves or is destroyed; a refused message is owned again, executed once more and marked; nobody else is touched |
| ScannerBackend.BackEnd.DrainMarked | tier2_message_processor.cpp:207-233 | Exactly those that were to leave have left, the others are as they were and in the same order, and all are settled |
| ScannerBackend.BackEnd.PulsePendingIssues | tws_instance.cpp:1169-1218 | Every owned request is visited once, in rotated order; those that waited have been requested of TWS and run or have failed, and one still waits only if all ten slots are taken; no "should never get here" arm is reached; the rotation does not move |
| ScannerBackend.BackEnd.Tickle | tws_instance.cpp:1181-1212 | One visit of the round: the arms asserted never to be reached are not, and a waiting request keeps waiting only for want of a slot |
| ScannerBackend.BackEnd.MeantByResponse | tws_instance.cpp:986-997 | The snapshot holds each owned request that the response is meant for exactly once |
| ScannerBackend.BackEnd.ProcessResponse | tws_request.cpp:1706-1814 | One request goes to the state that is written out for each kind of response, ticker by ticker, every other is untouched and keeps its slot, and as many new subscriptions of its own have come as the response names |
| ScannerBackend.BackEnd.ScanQueueAndProcess | tws_instance.cpp:974-1018 | Every request meant before dispatch is processed exactly once and still there at its turn, each ending as its ticker and the response demand and all others keeping state and slot; all that is new are the subscriptions the responses call for, and the response ends in DESTRUCTION, marked |
| ScannerContracts.AnsweredReacts | tws_request.cpp:1706-1814 | The reaction to each response, written out: a subscription with its ticker is completed by the end of the scan and by a start without rows, and aborted by a fatal error; nothing else happens to subscriptions |
| ScannerBackend.BackEnd.Serve | tws_instance.cpp:1254-1329 | In every run of arrivals, own requests, recalls, pulses, refused writes, rounds and responses TWS never has more than ten subscriptions at a request, and a subscription on its way home is observed by the limiter exactly if TWS was never asked for it or it was robbed of its slot |
| ScannerContracts.SlotsAreLive | tws_instance.cpp:1275-1327 | Each slot is held once, by a subscription that is owned, admitted and not concluded, and every subscription open on TWS has its slot |
| ScannerHistory.LimiterGoesAlong | tws_instance.cpp:1275-1301 | A subscription that leaves keeps the limiter as its observer exactly when TWS was never asked for it or its slot was given up on the account of a cancel |
| ScannerHistory.RobbedEarly | tws_instance.cpp:1279-1301 | Only a cancel that had named its ticker before it was drawn can rob a subscription of its slot |
| ScannerHistory.TracedCancelEnds | tws_instance.cpp:1279-1322 | A cancel that concludes robs exactly the holder of the slot for its ticker, if it is observed and there is one |
| ScannerHistory.WaitingGoesHome | tws_instance.cpp:1024-1066 | A client's subscription that a cancel finds waiting for a slot ends aborted, marked and still observed |
| ScannerHistory.TracedAdmits | tws_instance.cpp:1257-1272 | Admission keeps the account: whoever gets a slot has been requested, whoever waits has not |
| ScannerHistory.TracedConcludes | tws_instance.cpp:1275-1301 | Conclusion keeps it: the limiter goes with the slot, or stays for want of one |
| ScannerHistory.TracedAborts | tws_instance.cpp:1024-1066 | A cancel keeps it, however many requests it aborts |
| ScannerHistory.TracedRefused | tier2_message.cpp:457-468 | So does taking a message back after a failed write |
| ScannerContracts.Relinquishment | tws_instance.cpp:1299-1320 | Once the nested cancel is gone only the slot and its message have changed, and nothing is owed to TWS |
| ScannerContracts.RelinquishedTold | tws_instance.cpp:1312-1320 | Giving up a slot sends exactly one cancel for its ticker |
| ScannerContracts.ToldThenFailed | tier2_message.cpp:179-186 | A failed admission sends the request and then its cancel; any other failure sends nothing more |
| ScannerContracts.FreedToo | tws_instance.cpp:1056-1066 | However many matches a cancel aborts, TWS is told once, of the one that held the slot |
| ScannerContracts.StayingOn | tier2_message_processor.cpp:145-178 | A message that leaves does not change the order of those that stay |
| ScannerContracts.AbortedToo | tws_instance.cpp:1056-1066 | Aborting one match touches no other request, frees its slot and keeps earlier matches aborted |
| ScannerContracts.EveryoneAborted | tws_instance.cpp:1024-1066 | After the loop no request with the ticker holds a slot and all are aborted |
| ScannerContracts.FailureConcludes | tier2_message.cpp:179-186 | An execution that reported an error, followed by FAILED, adds up to what `state()` promises |
| ScannerContracts.NewIsTaken | tws_request.cpp:671-677 | What becomes of a new request of any kind, by whether TWS accepts it and whether a cancel has matched |
| ScannerContracts.CancelDecided | tws_instance.cpp:1065-1079 | A cancel that matched reports an error; any other fares as TWS answers, nothing having been transmitted before it |
| ScannerContracts.Announces | tws_request.cpp:833-853 | A subscription is requested only by a holder of a slot while nothing is owed; a cancel settles its ticker |
| ScannerContracts.RotatedOnce | tws_instance.cpp:1176-1179 | The rotated order visits every entry exactly once |
| ScannerContracts.EveryoneVisited | tws_instance.cpp:1176-1213 | After a full round a request waits only if all slots are taken |
| ScannerContracts.NextAnswered | tws_instance.cpp:999-1004 | A request of the snapshot is unchanged, and still meant, when its turn comes |
| ScannerSlots.RequestInv | tws_instance.cpp:1267-1271 | A request by a holder of a slot keeps the number of open subscriptions within ten |
| ScannerSlots.VacateInv | tws_instance.cpp:1299-1300 | Taking a slot away leaves exactly its ticker owed |
| ScannerSlots.CancelInv | tws_request.cpp:845-853 | A cancel on the wire settles what is owed for its ticker |
| ScannerSlots.LeaveInv | tier2_message_processor.cpp:145-178 | A message without a slot can leave, the slots of the others unaffected |
| UniqueIds.BucketExists | unique_id_manager.h:73-77 | Every id up to the largest has a bucket |
| UniqueIds.OverflowCancels | unique_id_manager.h:79-85 | The size of the last bucket, computed with a wrap-around after every product, difference and sum, equals the largest id modulo the divisor |
| UniqueIds.WrapsCancel | unique_id_manager.h:83-85 | Whatever multiples of the type's range each of the five operations adds or takes off, they cancel |
| UniqueIds.LastIndexInRange | unique_id_manager.h:80-93 | The wrap index is at least one and at most that of the last bucket |
| UniqueIds.LastIndexIs | unique_id_manager.h:80-93 | The wrap index is the greatest whose bucket starts below the largest id |
| UniqueIds.Layout | unique_id_manager.h:73-93 | The constructor's arithmetic yields a layout in which every id has a bucket |
| UniqueIds.SearchEnds | unique_id_manager.h:144-153 | The search ends exactly unless it starts at or beyond the wrap index and all buckets there and below it are in use |
| UniqueIds.NarrowNeverSpins | unique_id_manager.h:144-153 | With one id to a bucket, as for one-byte ids, the search always ends, since bucket zero stays empty |
| UniqueIds.GetStuck | unique_id_manager.h:126-184 | A run of ids obtained and released after which the search does not end |
| UniqueIds.Surrounded | unique_id_manager.h:148-152 | Back at its start, the search has seen every bucket below the wrap index in use |
| UniqueIds.SuccessorIsNew | unique_id_manager.h:137-184 | The next id of a bucket, or any id of an empty one, is not live, and counting it keeps the counters exact |
| UniqueIds.ReleaseCounts | unique_id_manager.h:114-124 | Counting an id down keeps the counters exact if and only if it was live |
| UniqueIds.UniqueIdManager.constructor | unique_id_manager.h:57-95 | Counters for every id, none live |
| UniqueIds.UniqueIdManager.FindEmpty | unique_id_manager.h:143-153 | The first empty bucket from the start on, counting on modulo the wrap index, or exhaustion exactly when all buckets below the wrap index are in use and the start is among them |
| UniqueIds.UniqueIdManager.Obtain | unique_id_manager.h:126-184 | The id issued is not zero and not live, across wrap-around, it is the successor of the last one while that lies in the same bucket and otherwise the first id of the first empty bucket, and every counter stays the number of live ids in its range; exhaustion exactly when no empty bucket is found |
| UniqueIds.UniqueIdManager.Release | unique_id_manager.h:114-124 | Accepted exactly when some live id shares the bucket; the counters stay exact if and only if the id was live |
| Communicators.OnePerPair | app_manager.cpp:360-416 | In every interleaving at most one communicator is registered for an ordered pair, and its reverse with swapped ends, whose reverse it is |
| Communicators.SameForAll | app_manager.cpp:418-443 | Whoever asks for a pair, at any time, gets the same communicator |
| Communicators.CounterNeverUnder | app_manager.cpp:396-402 | The counter is at least the number of communicators whose non-creating end does not know them, and never negative |
| Communicators.FetchKnowsAll | app_manager.cpp:446-493 | After a fetch the thread knows every registered communicator that delivers to it |
| Communicators.LoserClosesBoth | app_manager.cpp:406-410 | A creator that was too late closes each of its two sockets once, and no socket is ever closed twice |
| Communicators.PublishGood | app_manager.cpp:382-404 | The second look under the lock keeps the registry unique, whoever wins |
| Communicators.MakeGood | app_manager.cpp:367-375 | A pair made outside the lock belongs to its creator alone |
| Communicators.SettleGood | tier2_message_processor.cpp:14-39 | Registering with the own list keeps every thread's knowledge reverse-closed and free of duplicates |
| Communicators.FetchGood | app_manager.cpp:458-488 | The fetch loop keeps the invariant, may stop when the counter is down, and leaves nothing unknown that delivers to the thread |
| Communicators.FetchCountsDown | app_manager.cpp:458-488 | A fetch counts down by exactly the number of communicators it has taken up |
| Communicators.CounterExact | app_manager.cpp:396-488 | In every run the counter is the number of pairs registered less the number taken up by fetches |
| Communicators.RegistryLasts | app_manager.cpp:399-400 | The registry only ever grows at its end |
| CommunicatorsRuntime.AppManager.Match | app_manager.cpp:424-433 | The first match in list order, if any |
| CommunicatorsRuntime.AppManager.Get | tier2_message_processor.cpp:41-59 | Own list, then registry; the step of asking |
| CommunicatorsRuntime.AppManager.MakeBoth | app_manager.cpp:367-375 | The step that makes a pair, sockets swapped between its two ends |
| CommunicatorsRuntime.AppManager.RegisterPair | app_manager.cpp:382-404 | The critical section; the communicator chosen is registered and matches the pair |
| CommunicatorsRuntime.AppManager.Delete | interthread_comm.cpp:21-24 | The step that discards both communicators of a loser |
| CommunicatorsRuntime.AppManager.Add | tier2_message_processor.cpp:14-39 | Both directions are appended unless the communicator is known |
| CommunicatorsRuntime.AppManager.AddFound | tier2_message_processor.cpp:41-59 | The step that takes a communicator found into the own list |
| CommunicatorsRuntime.AppManager.FetchNew | app_manager.cpp:446-493 | The two nested loops compute the fetch |
| JsonOutput.WellNestedTree | json_io.cpp:94-122 | Every well-nested sequence of calls is the traversal of a tree |
| JsonOutput.WritesTree | json_io.cpp:50-122 | Writing the calls of a tree, at any depth, after any siblings and before any calls, adds the recursive print |
| JsonOutput.OutputIsPrinted | json_io.cpp:124-142 | start, well-nested calls, finish: the output is the recursive print of their tree |
| JsonOutput.ReaderRecovers | json_io.cpp:41-142 | For strings free of quotes, backslashes and control characters a reader of the objects of section 4 of RFC 8259 gets the tree back |
| JsonOutput.OutputDeterminesCalls | json_io.cpp:41-142 | No two sequences of clean calls have the same output |
| JsonOutput.JsonWriter.OutputIndent | json_io.cpp:41-47 | As many tabs as the indent level, one after the other |
| JsonOutput.JsonWriter.AddStringSibling | json_io.cpp:50-60 | Separator, indent and quoted pair, one sibling more |
| JsonOutput.JsonWriter.AddIntSibling | json_io.cpp:71-81 | The same with a decimal number |
| JsonOutput.JsonWriter.PushLevel | json_io.cpp:94-106 | The sibling count is put aside and starts again one level deeper |
| JsonOutput.JsonWriter.PopLevel | json_io.cpp:107-122 | The level is closed and counts as one sibling of the level put aside |
| JsonOutput.JsonWriter.WriteAll | json_io.cpp:124-142 | A whole document adds the recursive print of its calls' tree |
| PathReducer.ReducedLeadsThere | support-code.cpp:223-264 | A path leads where it led unless some turn takes an empty name for the parent |
| PathReducer.RelativeLeadsThereIff | support-code.cpp:223-264 | A relative path leads where it led if and only if no turn takes an empty name for the parent |
| PathReducer.ReducedDescends | support-code.cpp:223-264 | Each such turn leaves a relative path exactly one level deeper than it led |
| PathReducer.NoEmptyParents | support-code.cpp:240-254 | A path without empty segments has no such turn |
| PathReducer.ReducedIsReduced | support-code.cpp:223-264 | No `/./` is left, and no `/../` follows a name without a colon, other than `..`, that follows a slash |
| PathReducer.TurnReduces | support-code.cpp:233-263 | What has been passed stays reduced through one turn of the loop |
| PathReducer.TurnLeadsThere | support-code.cpp:233-254 | A turn that does not take an empty name for the parent keeps the location |
| PathReducer.TurnMovesIffEmptyParent | support-code.cpp:240-254 | On a relative path a turn changes the location exactly when the parent it removes is an empty name |
| PathReducer.EmptySegmentMisleads | support-code.cpp:250-254 | An example: `a//../b` has one such turn and becomes `a/b` |
| PathReducer.FindSlashDot | support-code.cpp:229 | The first `/.` from a position on |
| PathReducer.FindParent | support-code.cpp:242-244 | The slash or colon before the parent, or the beginning, or before it |
| PathReducer.MoveTail | support-code.cpp:236-252 | The tail moves down with its terminator |
| PathReducer.ReducePath | support-code.cpp:223-264 | The loop ends, and the buffer holds the reduction of what it held |
| PathReducer.ReduceWhole | support-code.cpp:223-266 | The buffer leads to the same place unless an empty name was taken for a parent, for relative paths exactly then, and has nothing left to reduce |
| MessageQueue.RoundVisitsAll | tier2_message_queue.h:255-265 | The round visits every slot exactly once, the pop position last |
| MessageQueue.RoundChoosesBest | tier2_message_queue.h:110-123 | The round chooses the last scanned of the most important eligible items, and nothing exactly when none is eligible |
| MessageQueue.RoundEnds | tier2_message_queue.h:255-265 | The round meets the pop position exactly if it lies within the queue |
| MessageQueue.NotBeforeFetch | tier2_message_queue.h:125-138 | An item that is to run again is not activated before the time of the fetch |
| MessageQueue.OneIntervalLater | tier2_message_queue.h:125-138 | An item that is to run again is activated one interval after its last activation, or, if that has passed, one interval after the fetch |
| MessageQueue.SameItemAgain | tier2_message_queue.h:247-273 | The item returned last comes again while it is due and nothing due is more important |
| MessageQueue.FetchTouchesOne | tier2_message_queue.h:247-273 | A fetch uses up one run of the item returned, moves there and touches no other item |
| MessageQueue.ReturnedAtMostRuns | tier2_message_queue.h:247-273 | Over any run, erasures that keep the pop position in the queue included, an item is returned as often as its run count has gone down, hence at most its run count times |
| MessageQueue.QueueItem.CalcNextInvocation | tier2_message_queue.h:125-138 | One run less, and the next activation of a repeated item |
| MessageQueue.WorkQueue.Round | tier2_message_queue.h:255-265 | The loop computes the choice of the round |
| MessageQueue.WorkQueue.FetchItem | tier2_message_queue.h:247-273 | The chosen item is returned and rescheduled, the pop position moves to it, or to zero when there is none |
| MessageQueue.WorkQueue.OnItemDestroy | tier2_message_queue.h:216-230 | An item destroyed is erased once, in the queue of the runs as well, and the pop position stays where it was: within the queue exactly if it was not at the last slot |
| MessageQueue.EraseBehind | tier2_message_queue.h:216-265 | A run after which the pop position lies beyond the queue and no slot of the round is at it |

## Left out

- Sockets, `select`, HTTP, the TWS C API, XML, the database, logging and file access: wires are FIFO sequences, the traffic to TWS is a list of events, and outcomes are arbitrary.
- The other request and response kinds, orders among them: they repeat the pattern of the ones modelled; what a response stores in its request is not modelled.
- The text of the scanner parameters response: only how many subscriptions it asks for.
- Fairness of the rotation in `pulse_pending_issues`: it does not rotate.
- Loss of a message by a write that returns 0, and partial reads.
- `wait_for_response` and the stop flag: a thread that waits is one that does nothing but deliveries.
- `Tier2CancelRace.CancelNeverOvertakes`: needs that neither message is sent out a second time, that no address is used again, that the writes of the two succeed and that the cancel is not pulsed by hand ahead of its target.
- `Tier2Drain.DrainSendsInOrder`, `Tier2Drain.DrainSends`: observers, and a handler of FAILED, that act rather than answer while a refused message is taken back are not covered; `Tier2Drain.DrainSettles` and `Tier2Drain.DrainTurns` cover them.
- `Tier2Drain.DeliveryStrandsIffVetoed`, `Tier2Drain.RefusalStrandsIffVetoed`: speak of observers that do nothing but answer.
- `ScannerBackend.BackEnd.RecallTarget`: the effect on the request named, without the cancel message itself as an object of the back-end. The changes of the back-end are not formally related to those of `Tier2Protocol`, whose handlers and observers are arbitrary.
- `UniqueIds.UniqueIdManager.Obtain`: presupposes that the search ends, whose exact condition is `UniqueIds.SearchEnds`; after exhaustion, a throw in the program, nothing is claimed. Counters do not wrap at their 32 bits. The signed id types and the misspelt member names are read as evidently meant.
- `CommunicatorsRuntime.AppManager.Get`: one critical section at a time; the mutex itself, and communicators as objects rather than addresses, are not modelled.
- `JsonOutput.JsonWriter.AddIntSibling`: integers are unbounded; the `%g` form of floating-point values is not modelled.
- `PathReducer.ReducedLeadsThere`: for absolute paths, where a parent of the root is the root, the converse is not claimed; appending the parts and the buffer bounds of that are not modelled.
- `MessageQueue.WorkQueue.FetchItem`: requires a non-empty queue, as the program divides by its size, and an item to be in the queue once; the iterator moved on past an item just erased, aborting and the visitors are not modelled. Times are unbounded integers.
- The store of senders and receivers, the type-id counter and the data structures passed to TWS.
