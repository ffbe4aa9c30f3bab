# The epoll server and the QUIC server's connection lifecycle, verified

Two components of the server are modelled here, each as the objects it keeps in memory together with a
mathematical account of what every operation does to them.

**The epoll event loop** (`net/tools/epoll_server`). File descriptors are registered with callbacks and sit on an
intrusive ready list split over two heads; alarms sit in a multimap that is walked while the alarms called from it
register, cancel and re-register. User callbacks are arbitrary: what one call of a callback does to the server is a
finite tree of server calls, each of which may trigger further callbacks.

- `EpollFdSpec.dfy`: descriptors, ready lists and the kernel's interest set as values, and what every call means.
- `EpollFdPasses.dfy`: what a pass over the ready list means, what it delivers, and runs.
- `EpollFdEvents.dfy`: which events callbacks are told of.
- `EpollFdLaws.dfy`: what each call and each OnEvent does, in any state and whatever callbacks it triggers.
- `EpollFdServer.dfy`: the nodes with their `le_next`/`le_prev` links, the list heads, the size counter. Every method
  is proved to do what the first two say, to keep the links well formed, and to keep alive the nodes that callers
  further down the stack still point to.
- `EpollAlarms.dfy`: the alarm multimap, the set that indexes it, the skip set, `EpollAlarm` with its token, and
  `QuicEpollAlarm` on top of it.
- `EpollClock.dfy`: for how long the server sleeps (with the conversion to a 32-bit number of milliseconds) and the
  approximate time it tells its callbacks.

**The server-side connection lifecycle** (`net/tools/quic`). A connection id is unknown, a live session's, in
time-wait, or unknown again. Writers share one socket whose answers are arbitrary; blocked writers queue for it.

- `Backoff.dfy`: the throttle `x & (x - 1) == 0`.
- `TimeWaitSpec.dfy`: the time-wait list as a value, its runs, residency, punctuality and backoff.
- `DispatcherSpec.dfy`: the dispatcher, the time-wait manager and the writer as one value.
- `DispatcherProofs.dfy`, `DispatcherWaiting.dfy`, `DispatcherReports.dfy`, `DispatcherBackoff.dfy`,
  `DispatcherAnswers.dfy`, `DispatcherResidency.dfy`, `DispatcherWire.dfy`: what holds over all runs.
- `QuicServer.dfy`: the packet writer, the blocked-writer list, the time-wait manager and the dispatcher as classes.
  Every method is proved to do to the abstract world what `DispatcherSpec` says.

`Sequences.dfy` has duplicate-free sequences. `dafny verify dfyconfig.toml` verifies everything.

## What the code relies on

These contracts are stated as preconditions or built into the shape of the model.

- `OnUnregistration` does not call the server for its own descriptor (`Polite`). It may call it for any other, and
  the other callbacks may call it for any descriptor, their own included.
- Passes over the ready list are not nested: a nested call of `WaitForEventsAndExecuteCallbacks` returns at once.
- An alarm is not registered twice: `RegisterAlarm` aborts then, and `ok` is false exactly there. An alarm whose
  `OnAlarm` both registers itself and returns a positive time runs into the same abort.
- Over one round of alarms, only finitely many calls of `OnAlarm` ask by a call for registrations that are due at once
  (`horizon`). The dispatcher needs one such registration for its delete alarm. What return values re-register is not
  limited.
- The flag for the size of the time-wait list is not zero; negative means unlimited.
- The time-wait period is positive. Otherwise the clean-up alarm sets itself to "now" from inside its own `OnAlarm` on
  every turn (`RearmsInTheFuture`), which no `horizon` covers.
- `QuicAlarm`, the base class of the adapter, is not part of this model. Relied on: it forgets its deadline before it
  calls the delegate, refuses to set an alarm that is set, and sets the alarm for the returned time only if the
  delegate left it unset.
- The clock does not go back, and each handler of the dispatcher reads it once.
- Only the dispatcher calls `SetWritable`, and a connection neither writes while the writer is blocked nor reports
  itself blocked once it is closed. A report while the writer is not blocked is refused, as in the code.

## Where the code and its comments disagree

- `quic_time_wait_list_manager.h:57` says that adding an id already in the list fails a check; the code replaces the
  record and keeps its packet count. The model follows the code.
- The branch for an id that "lingered" cannot be taken (`NothingLingersAfterCleanUp`).
- At a limit of exactly zero the trimming loop does not end (`TrimmingEndsUnlessTheLimitIsZero`).
- A wait of 2^31 milliseconds or more is cut to 32 bits on its way to `epoll_wait`; the server can then sleep through
  an alarm (`AnAlarmSleptThrough`), exactly if bit 31 is set (`AlarmsAreSleptThroughExactlyOnBit31`). The comments'
  promise holds exactly for shorter waits (`PromiseKeptBelowTheOverflow`).
- A new registration finds the events asserted for the node that was there, if there was one
  (`RegistrationKeepsAssertedEvents`, `AssertedEventsOutliveTheirCallback`).

## Model

| member | source | states |
|---|---|---|
| EpollFdSpec.Apply | net/tools/epoll_server/epoll_server.cc:190-302 | Any call, with any callbacks it triggers, keeps the invariant: lists without repetition and disjoint, only registered descriptors queued, null callbacks only on nodes in use, the kernel's set being the registered descriptors with their masks. It leaves the callers' own slots alone, only shortens the list being walked, and loses no readiness except by a recorded removal |
| EpollFdSpec.Run | net/tools/epoll_server/epoll_server.cc:716-721 | The same for everything one call of a user callback does |
| EpollFdEvents.KernelFollows | net/tools/epoll_server/epoll_server.cc:555-605 | In every state of every run from the empty server the kernel holds exactly the registered descriptors, with their masks and ERR and HUP; no node with a null callback is left over; the ready list has registered descriptors only, without repetition |
| EpollFdSpec.SupplantCalls | net/tools/epoll_server/epoll_server.cc:197-205 | When RegisterFD tells the old callback, its descriptor is off both lists, still in the kernel with the old mask, and its node unchanged |
| EpollFdSpec.WithdrawCalls | net/tools/epoll_server/epoll_server.cc:281-285 | When UnregisterFD tells the callback, its descriptor is off both lists and out of the kernel, and its node unchanged |
| EpollFdPasses.Start | net/tools/epoll_server/epoll_server.cc:701-716 | A pass takes exactly the head of the walked list, and logs its delivery |
| EpollFdPasses.StartThenFrame | net/tools/epoll_server/epoll_server.cc:700-728 | Whatever an OnEvent does, the walked list ends up as its tail without what was dequeued, strictly shorter |
| EpollFdPasses.Deliver | net/tools/epoll_server/epoll_server.cc:700-728 | One delivery leaves the server idle again, the walked list strictly shorter, and what became ready meanwhile for the next pass |
| EpollFdPasses.Pass | net/tools/epoll_server/epoll_server.cc:691-732 | The walk ends under all callbacks with an empty list, having delivered to the oldest remaining descriptor each time |
| EpollFdPasses.DeliversExactlyTheUndequeued | net/tools/epoll_server/epoll_server.cc:691-732 | The deliveries of such a walk are exactly the queued descriptors not dequeued before their turn, once each, in queue order |
| EpollFdPasses.PassDelivers | net/tools/epoll_server/epoll_server.cc:691-732 | The same of CallReadyListCallbacks, for all callbacks |
| EpollFdPasses.PassTouchesAll | net/tools/epoll_server/epoll_server.cc:691-732 | Every descriptor queued at the start of a pass is delivered or dequeued in it |
| EpollFdPasses.QueuedUntilTouched | net/tools/epoll_server/epoll_server.cc:167-188 | Over every run of calls and passes a ready descriptor stays ready until it is delivered or dequeued |
| EpollFdEvents.EventsAreDelivered | net/tools/epoll_server/epoll_server.cc:668-689 | Every event epoll_wait reports for a registered descriptor, and everything ready before, is delivered in the pass that follows unless a callback dequeued it first |
| EpollFdEvents.TellsTheLastReport | net/tools/epoll_server/epoll_server.cc:705-717 | A descriptor whose turn comes before it is dequeued is told the last mask epoll_wait reported for it and what was faked before, of the callback it had; whatever callbacks do other than set events for it |
| EpollFdEvents.ApplyLeaves | net/tools/epoll_server/epoll_server.cc:190-302 | No call, with all callbacks it triggers, changes the callback or the events of a waiting descriptor without dequeueing it, unless one of them sets events for it |
| EpollFdEvents.RegistrationKeepsAssertedEvents | net/tools/epoll_server/epoll_server.cc:190-222 | In every state, inside OnEvent too, and whatever OnUnregistration does: a new registration has its own callback and mask and no faked events, but finds events asserted if and only if a node was there with events asserted, which are those |
| EpollFdEvents.UnregistrationKeepsRunningNodes | net/tools/epoll_server/epoll_server.cc:270-302 | A node outlives its registration if and only if its OnEvent runs, with a null callback, no mask and no faked events, but with its asserted events |
| EpollFdEvents.AssertedEventsOutliveTheirCallback | net/tools/epoll_server/epoll_server.cc:209-211 | A run in which a callback registered over another finds the events asserted for the other |
| EpollFdLaws.RegisterFDLaw | net/tools/epoll_server/epoll_server.cc:190-222 | In every state, whatever OnUnregistration of the old callback does: callback and mask are in the node and the kernel, nothing is faked, the asserted events of a node that was there stay, and the descriptor is not ready; what OnUnregistration did elsewhere stands; OnRegistration acts as if the program had called then |
| EpollFdLaws.UnregisterFDLaw | net/tools/epoll_server/epoll_server.cc:270-302 | In every state, whatever OnUnregistration does: the descriptor is out of the kernel and off both lists, its node stays if and only if its OnEvent runs, its removal is logged first, and what OnUnregistration did elsewhere stands; an unknown descriptor changes nothing |
| EpollFdLaws.ModifyFDLaw | net/tools/epoll_server/epoll_server.cc:609-629 | Of the bits named exactly those to add are set, the others are as before, in the node and in the kernel; OnModification acts as if the program had called then |
| EpollFdLaws.SetFDReadyLaw | net/tools/epoll_server/epoll_server.cc:413-431 | A registered descriptor is ready, in front if it was not, with exactly these faked events and its asserted ones kept; others are unchanged |
| EpollFdLaws.HandleEventLaw | net/tools/epoll_server/epoll_server.cc:324-339 | The same with asserted and faked exchanged |
| EpollFdLaws.SetFDNotReadyLaw | net/tools/epoll_server/epoll_server.cc:433-438 | The descriptor is off both lists, and no node, no mask in the kernel and no other descriptor changes |
| EpollFdLaws.ApplyAvoids | net/tools/epoll_server/epoll_server.cc:190-302 | A call leaves the node, the kernel's mask and the lists of every descriptor alone that neither it nor a callback it triggers names |
| EpollFdLaws.RunThen | net/tools/epoll_server/epoll_server.cc:716-721 | The calls of a callback take effect one after the other, each as if the program had made it |
| EpollFdLaws.StartLaw | net/tools/epoll_server/epoll_server.cc:701-716 | OnEvent is told the asserted and faked events of its descriptor, which are then cleared, with the node in use and off the lists; nothing else changes |
| EpollFdLaws.OnEventLaw | net/tools/epoll_server/epoll_server.cc:716-728 | What OnEvent did stands; its node goes if it was unregistered; else it is ready if and only if it was made so or left a nonzero mask, which is then what is faked |
| EpollFdServer.EpollServer.AddToReadyList | net/tools/epoll_server/epoll_server.cc:167-172 | The node is at the front of the ready list unless it was on a list; all links designate the one pointer to their node and the size is the sum of both lengths |
| EpollFdServer.EpollServer.ListRemove | net/tools/epoll_server/epoll_server.cc:174-180 | Writing through le_prev closes the gap of the list the node was on, whichever it is, and changes no node off that list |
| EpollFdServer.EpollServer.RemoveFromReadyList | net/tools/epoll_server/epoll_server.cc:174-188 | The node is on neither list; order, links and size of both lists stay right |
| EpollFdServer.EpollServer.RegisterFD | net/tools/epoll_server/epoll_server.cc:190-222 | The heap object goes to the state the specification gives, under arbitrary re-entrant callbacks, and the nodes pinned by callers stay |
| EpollFdServer.EpollServer.InstallFD | net/tools/epoll_server/epoll_server.cc:206-216 | A recycled node and a fresh one are told apart and both end registered, with the kernel's add legal |
| EpollFdServer.EpollServer.UnregisterFD | net/tools/epoll_server/epoll_server.cc:270-302 | As for RegisterFD; unknown descriptors and null callbacks are ignored |
| EpollFdServer.EpollServer.FinishWithdraw | net/tools/epoll_server/epoll_server.cc:291-301 | The node leaves the hash set exactly if its OnEvent is not running |
| EpollFdServer.EpollServer.ModifyFD | net/tools/epoll_server/epoll_server.cc:609-629 | As for RegisterFD: the kernel's mask follows the node's |
| EpollFdServer.EpollServer.SetFDReady | net/tools/epoll_server/epoll_server.cc:413-431 | The faked events are replaced, never merged, and the descriptor is queued once |
| EpollFdServer.EpollServer.SetFDNotReady | net/tools/epoll_server/epoll_server.cc:433-438 | The descriptor is off both lists; its events stay stored |
| EpollFdServer.EpollServer.HandleEvent | net/tools/epoll_server/epoll_server.cc:324-339 | The asserted events are replaced and the descriptor queued, or the event ignored if no callback is registered |
| EpollFdServer.EpollServer.AddFD | net/tools/epoll_server/epoll_server.cc:571-585 | epoll_ctl ADD, legal only for a descriptor the kernel does not hold |
| EpollFdServer.EpollServer.ModFD | net/tools/epoll_server/epoll_server.cc:589-605 | epoll_ctl MOD, legal only for a descriptor the kernel holds |
| EpollFdServer.EpollServer.DelFD | net/tools/epoll_server/epoll_server.cc:555-567 | epoll_ctl DEL, legal only for a descriptor the kernel holds |
| EpollFdServer.EpollServer.SwapLists | net/tools/epoll_server/epoll_server.cc:696-698 | Across the swap of the heads the first node's le_prev follows its new head |
| EpollFdServer.EpollServer.BeginEvent | net/tools/epoll_server/epoll_server.cc:701-710 | OnEvent is told the disjunction of the stored asserted and faked events, of the callback registered now |
| EpollFdServer.EpollServer.FinishEvent | net/tools/epoll_server/epoll_server.cc:720-728 | A node unregistered meanwhile is erased; one that asks for more is queued again with that mask |
| EpollFdServer.EpollServer.CallReadyListCallbacks | net/tools/epoll_server/epoll_server.cc:691-732 | The heap walk terminates under arbitrary callbacks and equals the specified pass |
| EpollFdServer.EpollServer.HandleEventsAndReadyList | net/tools/epoll_server/epoll_server.cc:668-689 | The loop over the events and the pass after it do to the heap what the specification says |
| EpollFdServer.EpollServer.VerifyReadyList | net/tools/epoll_server/epoll_server.cc:447-457 | The check of the counted against the stored size never fails |
| EpollAlarms.EpollServer.RegisterAlarm | net/tools/epoll_server/epoll_server.cc:459-472 | Aborts exactly for an alarm registered already; otherwise the element is new, placed after equal deadlines, and the alarm holds its token |
| EpollAlarms.EpollServer.UnregisterAlarm | net/tools/epoll_server/epoll_server.cc:476-481 | Erases the live element of the token; map, set and alarm still agree |
| EpollAlarms.EpollServer.UnregisterIfRegistered | net/tools/epoll_server/epoll_server.cc:811-816 | The token used is always that of a live element, also inside OnAlarm |
| EpollAlarms.EpollServer.Fire | net/tools/epoll_server/epoll_server.cc:757-759 | The alarm forgets its token, then every call of OnAlarm takes effect: each alarm ends with the deadline the calls leave it, each waiting element whose alarm is cancelled is cancelled, each registration of an unregistered alarm is made; the dead element stays in the map and nobody erases it |
| EpollAlarms.EpollServer.PerformAll | net/tools/epoll_server/epoll_server.cc:459-481 | The same of any sequence of calls on alarms |
| EpollAlarms.LastCallCounts | net/tools/epoll_server/epoll_server.cc:459-481 | The last call that names an alarm decides whether it is registered, and for when if it was not before; calls that do not name it leave it |
| EpollAlarms.ObeyFiring | net/tools/epoll_server/epoll_server.cc:757-777 | One turn keeps the account of deadlines, registrations and cancellations over the turns so far |
| EpollAlarms.FiringPaysForItself | net/tools/epoll_server/epoll_server.cc:741-779 | The walk's measure drops with every firing, whatever the callback registers |
| EpollAlarms.EpollServer.SkipNext | net/tools/epoll_server/epoll_server.cc:747-756 | Passing a skipped element keeps what is settled and brings the end nearer |
| EpollAlarms.EpollServer.FireNext | net/tools/epoll_server/epoll_server.cc:757-759 | Firing keeps the order of what fired and settles the element |
| EpollAlarms.EpollServer.Reregister | net/tools/epoll_server/epoll_server.cc:764-777 | The returned time is registered for the alarm, unless it is registered already; if that time is already due it adds no work to the walk |
| EpollAlarms.NewAndDue | net/tools/epoll_server/epoll_server.cc:764-777 | If callbacks register later alarms only, whatever is new and due is among what the walk put back for returned times |
| EpollAlarms.AccountForTurn | net/tools/epoll_server/epoll_server.cc:757-777 | One turn of the walk keeps the account: each new element was asked for by a callback, each cancelled one cancelled by one, and each positive return value led to an element of that alarm and time |
| EpollAlarms.EpollServer.WalkDone | net/tools/epoll_server/epoll_server.cc:734-780 | At the end all that was due has fired or was unregistered, and what is due now was registered in this round |
| EpollAlarms.EpollServer.CallAndReregisterAlarmEvents | net/tools/epoll_server/epoll_server.cc:734-780 | One round fires due alarms only, in order of deadline and registration, none twice, each that was due unless a callback unregistered it. Every call takes effect: all deadlines at the end are those that turns, calls and return values leave; whatever waited and had not fired when its alarm was cancelled is cancelled and does not fire; every registration asked for while its alarm was unregistered is made. Every positive return value is registered unless the same call left the alarm registered, which aborts. Nothing else is new or gone. With no due registrations by calls, what is due at the end is exactly put there by return values. Terminates whenever only finitely many calls ask for due registrations; the skip set ends empty |
| EpollAlarms.NeedNotEnd | net/tools/epoll_server/epoll_server.cc:741-779 | Without that limit the loop need not end: an alarm that registers itself at now by a call is due, next and not to be skipped after any number of turns |
| EpollAlarms.QuicEpollAlarm.SetImpl | net/tools/quic/quic_epoll_connection_helper.cc:31-36 | A set alarm is one live registration for its deadline, and nothing else changes |
| EpollAlarms.QuicEpollAlarm.CancelImpl | net/tools/quic/quic_epoll_connection_helper.cc:38-41 | Cancelling erases that registration if there is one, and nothing else |
| EpollAlarms.QuicEpollAlarm.OnAlarm | net/tools/quic/quic_epoll_connection_helper.cc:44-53 | In the state in which the server fires the alarm, whatever its delegate calls on this alarm and others, all calls take effect, to the server as those of an OnAlarm that returns no time; the alarm ends set for what its calls left, or else for what it returned; its registration is live, new and not the dead element |
| EpollAlarms.QuicEpollAlarm.Expire | net/tools/quic/quic_epoll_connection_helper.cc:44-53 | Firing a set alarm from start to end: its element is logged and erased and the alarm set exactly as the delegate asked |
| EpollClock.PromiseKeptBelowTheOverflow | net/tools/epoll_server/epoll_server.cc:634-650 | No sleep, sleep without end, or whole milliseconds between one and the wait: kept if and only if the list is ready or the wait is below 2^31 milliseconds |
| EpollClock.AnAlarmSleptThrough | net/tools/epoll_server/epoll_server.cc:650-654 | An alarm 2^31 milliseconds away makes the timeout negative |
| EpollClock.AlarmsAreSleptThroughExactlyOnBit31 | net/tools/epoll_server/epoll_server.cc:650-654 | With an alarm set the timeout is negative if and only if bit 31 of the wait is set |
| EpollClock.SleepBound | net/tools/epoll_server/epoll_server.cc:384-407 | A positive timeout oversleeps the next alarm by less than a millisecond and respects the default timeout; a due alarm means no sleep |
| EpollClock.WaitsForEverOnlyWithoutAlarms | net/tools/epoll_server/epoll_server.cc:366-402 | Below the overflow the timeout is negative if and only if there is no alarm, nothing ready and a negative default; it is zero if and only if something is ready or the wait is zero |
| EpollClock.DoKeeps | net/tools/epoll_server/epoll_server.cc:499-504 | In every state of every run, re-entrant calls included, the recorded time is past, no earlier than any answer given, and set only inside a call |
| EpollClock.ApproximateTimeIsMonotone | net/tools/epoll_server/epoll_server.cc:499-504 | Over every run the answers never decrease and never exceed the real time at which they were given |
| EpollClock.TimeStandsStillInCallbacks | net/tools/epoll_server/epoll_server.cc:660-668 | All answers inside one call are the time at which epoll_wait returned, and no second wait happens |
| EpollClock.WaitLaw | net/tools/epoll_server/epoll_server.cc:355-411 | A call gives epoll_wait exactly one timeout, and a timely one: zero if something is ready or due, never past the next alarm by a millisecond, never past the default timeout, at least a millisecond and within one of the sooner of both if that lies ahead, negative exactly with no alarm and a negative default or on bit 31; a nested call gives it nothing and changes nothing |
| EpollClock.WaitTells | net/tools/epoll_server/epoll_server.cc:668-689 | Each question of the call's callbacks is answered with the time at which epoll_wait returned |
| EpollClock.OutsideTimeIsReal | net/tools/epoll_server/epoll_server.cc:499-504 | Outside of a call the answer is the real time |
| EpollClock.EpollServer.WaitForEventsAndExecuteCallbacks | net/tools/epoll_server/epoll_server.cc:355-411 | The object's fields follow that account, with one timely timeout a call; a nested call does nothing |
| EpollClock.EpollServer.Sleep | net/tools/epoll_server/epoll_server.cc:631-668 | The branches yield the specified timeout and record the time after the wait |
| EpollClock.EpollServer.ApproximateNowInUsec | net/tools/epoll_server/epoll_server.cc:499-504 | The answer is at most the real time and at least every earlier answer |
| Backoff.RespondsAtPowersOfTwo | net/tools/quic/quic_time_wait_list_manager.cc:186-191 | For counts from one on, x & (x - 1) is zero if and only if x is a power of two |
| Backoff.ResponsesAreLogarithmic | net/tools/quic/quic_time_wait_list_manager.cc:186-191 | The first n packets draw floor(log2 n) + 1 responses |
| TimeWaitSpec.TrimEvictsTheShortestPrefix | net/tools/quic/quic_time_wait_list_manager.cc:304-312 | Trimming evicts oldest records, as few as make room for one more, none without a limit |
| TimeWaitSpec.TrimmingEndsUnlessTheLimitIsZero | net/tools/quic/quic_time_wait_list_manager.cc:304-312 | The loop ends if and only if the limit is not zero |
| TimeWaitSpec.AddFacts | net/tools/quic/quic_time_wait_list_manager.cc:106-129 | The id added is the newest, with this version, time and close packet, carries its old packet count if it had one, and is never the one evicted; all others were there before |
| TimeWaitSpec.AddKeepsInv | net/tools/quic/quic_time_wait_list_manager.cc:106-129 | Adding keeps order, uniqueness, the size limit and the alarm's punctuality |
| TimeWaitSpec.ExpireRemovesTheOld | net/tools/quic/quic_time_wait_list_manager.cc:275-299 | The clean-up loop removes exactly the records that are old enough |
| TimeWaitSpec.NothingLingersAfterCleanUp | net/tools/quic/quic_time_wait_list_manager.cc:253-273 | The branch for lingering ids is not taken; the alarm is set for the expiry of the oldest |
| TimeWaitSpec.StartsEmpty | net/tools/quic/quic_time_wait_list_manager.cc:81-94 | The list starts empty with its first clean-up a period away |
| TimeWaitSpec.RearmsInTheFuture | net/tools/quic/quic_time_wait_list_manager.cc:294-302 | After any clean-up the alarm is set strictly later if and only if the period is positive |
| TimeWaitSpec.RearmsAtOnceWithoutAPeriod | net/tools/quic/quic_time_wait_list_manager.cc:294-302 | With a period of zero a clean-up sets the alarm to the moment at which it runs |
| TimeWaitSpec.RunKeepsInv | net/tools/quic/quic_time_wait_list_manager.cc:106-129 | Over every run: insertion order is time order, the limit holds, the alarm is never later than the expiry of any record |
| TimeWaitSpec.StepKeepsRecord | net/tools/quic/quic_time_wait_list_manager.cc:275-302 | One step keeps a record neither re-added nor evicted, unless it cleans up after the record's period |
| TimeWaitSpec.Residency | net/tools/quic/quic_time_wait_list_manager.cc:275-302 | Over every run such an id is there before added + period and gone after a round of alarms from then on |
| TimeWaitSpec.NothingOldAfterAlarms | net/tools/quic/quic_time_wait_list_manager.cc:275-302 | A turn of the alarms leaves no id that has been there for the period, whether or not the alarm was due |
| TimeWaitSpec.EnterKeepsCounts | net/tools/quic/quic_time_wait_list_manager.cc:110-125 | Replacing a record preserves its packet count and those of the others |
| TimeWaitSpec.EnterKeepsOthers | net/tools/quic/quic_time_wait_list_manager.cc:106-129 | Another id's entry leaves a record that it does not evict exactly as it was |
| TimeWaitSpec.AnswersFollowTheCount | net/tools/quic/quic_time_wait_list_manager.cc:154-184 | While an id is held all its packets are counted, and those answered are those at powers of two |
| TimeWaitSpec.BackoffIsExponential | net/tools/quic/quic_time_wait_list_manager.cc:154-191 | From a count of zero on, n packets for an id held are answered floor(log2 n) + 1 times |
| TimeWaitSpec.AddWithRoom | net/tools/quic/quic_time_wait_list_manager.cc:106-129 | Adding an id never shortens the list, and evicts nobody unless the list reaches its limit |
| DispatcherProofs.OnWriteBlockedKeeps | net/tools/quic/quic_dispatcher.cc:376-386 | Queueing a writer keeps the queue free of repetition and of writers of ended sessions, and pushes nobody back |
| DispatcherProofs.OnWriteBlockedLaw | net/tools/quic/quic_dispatcher.cc:376-386 | While the socket is blocked the writer ends up queued, last if it was not queued yet and in place if it was; otherwise, and elsewhere, nothing changes |
| DispatcherProofs.DrainKeeps | net/tools/quic/quic_time_wait_list_manager.cc:143-152 | Sending what is pending generates nothing, and loses and reorders nothing: what was sent and pending is what is sent and pending; the manager is queued again if something is left |
| DispatcherProofs.CloseKeeps | net/tools/quic/quic_dispatcher.cc:309-374 | Closing keeps the invariant, including the account of all sessions and the delete alarm; a session closed leaves its id in time-wait and no longer in the session map |
| DispatcherProofs.CloseLaw | net/tools/quic/quic_dispatcher.cc:309-374 | Exactly that session goes to the end of the closed list and its writer out of the queue; the first one there sets the alarm to now, later ones leave it; its close packet, version and time are in time-wait |
| DispatcherProofs.ProcessPacketKeeps | net/tools/quic/quic_dispatcher.cc:210-307 | Routing any packet keeps the whole invariant, and each packet that gets to the time-wait manager names an id in its list |
| DispatcherProofs.ServeAllKeeps | net/tools/quic/quic_dispatcher.cc:324-336 | When OnCanWrite is done nobody is queued for a writable socket |
| DispatcherProofs.DeleteKeepsAccounts | net/tools/quic/quic_dispatcher.cc:320-322 | Deleting closed sessions deletes each once and no other |
| DispatcherProofs.DeleteAlarmDeletes | net/tools/quic/quic_dispatcher.cc:320-322 | In every state a turn of the delete alarm finds it due if a session is closed, and deletes all of them in order |
| DispatcherProofs.NoClosedSessionIsLeft | net/tools/quic/quic_dispatcher.cc:320-322 | After any run ending with a turn of the delete alarm every session created is live or deleted |
| DispatcherProofs.AdvanceKeeps | net/tools/quic/quic_dispatcher.cc:196-374 | Every event of the server keeps the invariant |
| DispatcherProofs.RunKeeps | net/tools/quic/quic_dispatcher.cc:196-374 | So does every run, for every socket and every behaviour of connections |
| DispatcherProofs.NoLostWakeup | net/tools/quic/quic_dispatcher.cc:324-336 | After every step a pending response means the manager is queued, and a queued writer that the socket is blocked |
| DispatcherProofs.ResponsesLeaveInOrder | net/tools/quic/quic_time_wait_list_manager.cc:221-251 | Responses consumed by the writer followed by those pending are the responses generated, over every run |
| DispatcherProofs.IdsAndWritersAreLive | net/tools/quic/quic_dispatcher.cc:309-318 | Over every run no id is a session's and in time-wait, and no queued writer's session has ended |
| DispatcherProofs.SessionsAreConserved | net/tools/quic/quic_dispatcher.cc:309-374 | Over every run each created session is live, closed or deleted, one of these, once; a closed one has the alarm set |
| DispatcherProofs.NoIdOutstaysItsPeriod | net/tools/quic/quic_time_wait_list_manager.cc:275-302 | After any run ending with a turn of the clean-up alarm, every id in time-wait is younger than the period |
| DispatcherProofs.OnlyUnknownIdsCreateSessions | net/tools/quic/quic_dispatcher.cc:210-305 | A packet creates a session if and only if its id is unknown to both maps, its port is not zero, it is no reset, has a version and is accepted |
| DispatcherProofs.PerformAllCloses | net/tools/quic/quic_dispatcher.cc:342-350 | A session told to close is gone from the map whatever connections do, and none is added |
| DispatcherWaiting.ServesInOrder | net/tools/quic/quic_dispatcher.cc:324-336 | One writable socket calls writers in the order in which they blocked, each at most once, re-blocked ones not again |
| DispatcherWaiting.NobodyIsPassedOver | net/tools/quic/quic_dispatcher.cc:324-336 | If one writable socket calls a writer, it called every writer ahead of it in the queue, unless that one's connection was closed |
| DispatcherWaiting.WaitingIsBounded | net/tools/quic/quic_dispatcher.cc:324-386 | Over every run each call of OnCanWrite brings a waiting writer a place forward, unless it has been called or closed |
| DispatcherWaiting.CalledWithinPosition | net/tools/quic/quic_dispatcher.cc:324-386 | A writer at position k is called or closed within k + 1 calls of OnCanWrite |
| DispatcherReports.ReportIsServed | net/tools/quic/quic_dispatcher.cc:324-386 | A connection of a live session that reports itself blocked on a blocked socket with n writers queued, at any point of its acts, is called or its session ended before the socket has become writable n + 1 times |
| DispatcherReports.ReportFromPacket | net/tools/quic/quic_dispatcher.cc:262-266 | The same of a connection that acts because of a packet, the one that created it included |
| DispatcherReports.ReportFromAlarm | net/tools/quic/quic_dispatcher.cc:376-386 | The same of a connection that acts because of an alarm |
| DispatcherReports.ReportFromOnCanWrite | net/tools/quic/quic_dispatcher.cc:324-336 | The same of a connection that acts because the socket is writable, at any turn of the loop |
| DispatcherBackoff.RunFollows | net/tools/quic/quic_dispatcher.cc:196-374 | Every run of the server is, for its time-wait list, one of the runs above: same packets, same answers, an id resident between handlers being held throughout |
| DispatcherBackoff.ServerBacksOff | net/tools/quic/quic_time_wait_list_manager.cc:154-191 | Over every run of the server in which an id is resident in time-wait, all packets for it are counted, and the responses generated for it are those that fall on powers of two |
| DispatcherBackoff.EntryIsCounted | net/tools/quic/quic_dispatcher.cc:224-250 | However an id enters time-wait, its count and the responses to it are those of the packet that brought it there, one or none |
| DispatcherBackoff.ServerBacksOffFromEntry | net/tools/quic/quic_time_wait_list_manager.cc:154-191 | Over every run of the server the first n packets for an id, including the one that brought it into time-wait, generate floor(log2 n) + 1 responses for it while it is resident |
| DispatcherAnswers.AdvanceGenerates | net/tools/quic/quic_time_wait_list_manager.cc:154-184 | In every state a step generates nothing but the one response that its packet draws if it makes the count a power of two: to the packet's client from the packet's server, with a copy of the close packet if the record holds one and else with a reset of the packet's sequence number |
| DispatcherAnswers.AdvanceKeepsRecord | net/tools/quic/quic_time_wait_list_manager.cc:106-129 | No step changes the time, version or close packet of an id that is in time-wait before and after it |
| DispatcherAnswers.ResidentsAreAnswered | net/tools/quic/quic_time_wait_list_manager.cc:154-184 | Over every run in which an id is resident, every response for it answers one of its packets in this way, by the close packet held at the start |
| DispatcherAnswers.ClosingStores | net/tools/quic/quic_dispatcher.cc:309-318 | A session closed while its connection acts leaves its close packet and version in time-wait, whatever else the connection does |
| DispatcherAnswers.ClosingInOnCanWriteStores | net/tools/quic/quic_dispatcher.cc:309-336 | The same of a connection that OnCanWrite calls, whatever it calls after that |
| DispatcherAnswers.ClosePacketIsReplayed | net/tools/quic/quic_time_wait_list_manager.cc:154-171 | From the closing with a packet on, over every run in which the id is resident, every response for it is a copy of that packet |
| DispatcherAnswers.StoredIsReplayed | net/tools/quic/quic_time_wait_list_manager.cc:154-171 | The same from any state in which the record holds the packet |
| DispatcherAnswers.EntryByPacket | net/tools/quic/quic_dispatcher.cc:224-297 | Which packets for unknown ids enter time-wait, if and only if; they leave no close packet, the time, and the version the code chooses |
| DispatcherAnswers.SomePacketsAreIgnored | net/tools/quic/quic_dispatcher.cc:210-229 | Packets from port zero, and resets for ids without a session, change nothing |
| DispatcherWire.WriteToWireLaw | net/tools/quic/quic_time_wait_list_manager.cc:230-251 | A packet is written once unless the writer is blocked, and sent if and only if the socket did not block that write; else the manager is queued |
| DispatcherWire.PerformWritten | net/tools/quic/quic_default_packet_writer.cc:18-30 | A connection's write is one write of the socket unless the writer is blocked, and blocks the writer if the socket blocks it |
| DispatcherWire.SentIsWritten | net/tools/quic/quic_time_wait_list_manager.cc:221-251 | Over every run each response sent is a write of its own that the socket did not block, in the order of generation, and the writer is blocked only if the socket blocked its last write |
| DispatcherResidency.ServerResidency | net/tools/quic/quic_time_wait_list_manager.cc:275-302 | Over every run of the server in which the list stays below its limit, an id added at a time is in time-wait with that time until its period is over |
| QuicServer.QuicDefaultPacketWriter.WritePacket | net/tools/quic/quic_default_packet_writer.cc:18-30 | The flag is set exactly by a write the socket blocks |
| QuicServer.QuicDefaultPacketWriter.SetWritable | net/tools/quic/quic_default_packet_writer.cc:40-42 | Clears the flag |
| QuicServer.WriteBlockedList.OnWriteBlocked | net/tools/quic/quic_dispatcher.cc:376-386 | A writer is appended once, and only while the socket is blocked |
| QuicServer.WriteBlockedList.Erase | net/tools/quic/quic_dispatcher.cc:309-313 | Exactly that writer is gone, the order of the others kept |
| QuicServer.QuicTimeWaitListManager.WriteToWire | net/tools/quic/quic_time_wait_list_manager.cc:230-251 | Consumed unless blocked before or by the write, in which case the manager is queued; an error counts as consumed |
| QuicServer.QuicTimeWaitListManager.SendOrQueuePacket | net/tools/quic/quic_time_wait_list_manager.cc:221-228 | What the writer does not consume waits at the end of the queue |
| QuicServer.QuicTimeWaitListManager.OnCanWrite | net/tools/quic/quic_time_wait_list_manager.cc:143-152 | The loop sends the longest prefix the socket takes |
| QuicServer.QuicTimeWaitListManager.ProcessPacket | net/tools/quic/quic_time_wait_list_manager.cc:154-184 | The packet is counted and, at powers of two, answered with a copy of the close packet or a public reset |
| QuicServer.QuicTimeWaitListManager.MaybeExpireOldestConnection | net/tools/quic/quic_time_wait_list_manager.cc:275-292 | True exactly if the oldest record was old enough and is gone |
| QuicServer.QuicTimeWaitListManager.TrimTimeWaitListIfNeeded | net/tools/quic/quic_time_wait_list_manager.cc:304-312 | The loop computes the specified eviction |
| QuicServer.QuicTimeWaitListManager.AddConnectionIdToTimeWait | net/tools/quic/quic_time_wait_list_manager.cc:106-129 | Replacement, trimming and insertion as specified |
| QuicServer.QuicTimeWaitListManager.SetConnectionIdCleanUpAlarm | net/tools/quic/quic_time_wait_list_manager.cc:253-273 | The deadline is the specified one in all three branches |
| QuicServer.QuicTimeWaitListManager.CleanUpOldConnectionIds | net/tools/quic/quic_time_wait_list_manager.cc:294-302 | The loop and the rearming as specified |
| QuicServer.QuicDispatcher.constructor | net/tools/quic/quic_dispatcher.cc:190-194 | The objects refer to one writer and one list and start in a good state |
| QuicServer.QuicDispatcher.ProcessPacket | net/tools/quic/quic_dispatcher.cc:196-266 | A packet takes the world to the state the specification gives and keeps the invariant |
| QuicServer.QuicDispatcher.AdditionalValidityChecksThenCreateSession | net/tools/quic/quic_dispatcher.cc:268-297 | A session, or an entry into time-wait if the version is supported, or nothing |
| QuicServer.QuicDispatcher.HandlePacketForTimeWait | net/tools/quic/quic_dispatcher.cc:299-307 | Resets are ignored; the rest goes to the manager once the sequence number is known |
| QuicServer.QuicDispatcher.CleanUpSession | net/tools/quic/quic_dispatcher.cc:309-318 | The id moves from the session map to time-wait and its writer leaves the queue |
| QuicServer.QuicDispatcher.OnConnectionClosed | net/tools/quic/quic_dispatcher.cc:352-374 | The session goes to the closed list, with the alarm set if it is the first there; unknown ids change nothing |
| QuicServer.QuicDispatcher.OnCanWrite | net/tools/quic/quic_dispatcher.cc:324-336 | The loop terminates and serves as specified, whatever the writers do |
| QuicServer.QuicDispatcher.DeleteSessions | net/tools/quic/quic_dispatcher.cc:320-322 | Every closed session is deleted |
| QuicServer.QuicDispatcher.OnDeleteSessionsAlarm | net/tools/quic/quic_dispatcher.cc:24-38 | A due delete alarm is spent and deletes what is closed; the invariant holds |
| QuicServer.QuicDispatcher.OnCleanUpAlarm | net/tools/quic/quic_time_wait_list_manager.cc:31-49 | A due clean-up alarm cleans up and is set again; the invariant holds |
| QuicServer.QuicDispatcher.Shutdown | net/tools/quic/quic_dispatcher.cc:342-350 | Terminates whatever the connections do; both collections are empty, every session ever created has been deleted exactly once, and only the time-wait manager may still be queued |

## Left out

- Sockets, `recvmsg`/`sendmsg`, pipes, `fcntl` and the epoll system calls: the kernel's interest set is part of the
  abstract state, and the events `epoll_wait` returns are calls of `HandleEvent`.
- `QuicConnection`, sessions, the framer and crypto: a connection is a sequence of acts (write, report blocked, close);
  a packet is what the framer finds in its header; whether a session can be created is an input.
- What a call of `epoll_wait` returns is not tied to the interest set, and the time it takes not to its timeout.
- The two halves of the epoll server are separate classes; alarm callbacks calling for descriptors, and descriptor
  callbacks for alarms, are not modelled, as the two halves share no field but the clock.
- The deadlines of the dispatcher's and the time-wait manager's alarms are fields; that alarms fire is the subject of
  `EpollAlarms`, and the two are not composed.
- Iterators into the alarm multimap are registration tokens, and the map is its sorted sequence of elements.
- `session_map_.begin()` is any live session; the hash maps are maps, and the two linked hash maps are sequences.
- Integer widths of counters and times: packet counts and microseconds are unbounded, so a packet count past 2^31 and
  a time past 2^63 are not modelled. The `&` of the throttle is defined on natural numbers.
- `IsWriteBlockedDataBuffered` is false, as it is in the default packet writer.
- `IsFDReady`, `ContainsAlarm` and the one-line wrappers of `RegisterFD` and `ModifyFD`.
- Destructors, `OnShutdown` of alarms and callbacks, ownership and freeing of packets.
- `OnConnectionAddedToTimeWaitList` and `OnConnectionRemovedFromTimeWaitList`, which only log; event recording and
  logging.
- The client, streams, the HTTP layer and the performance programs: thin layers over the library.
- EpollAlarms.EpollServer.CallAndReregisterAlarmEvents: terminates if only finitely many calls ask for due
  registrations, because without one the loop in the source need not end (`NeedNotEnd`).
- EpollAlarms.EpollServer.RegisterAlarm: where the program aborts, the model leaves the server as it is and goes on.
- DispatcherResidency.ServerResidency: says nothing of an id once the list has been at its limit; which ids are evicted
  then is `TrimEvictsTheShortestPrefix`.
- EpollClock.SleepBound: says nothing of negative timeouts, which `AlarmsAreSleptThroughExactlyOnBit31` characterises.
