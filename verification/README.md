# Verification of the Lambda Runtime API Daemon's invocation engine

This Dafny project models the parts of the daemon in which many calls, processes and
timers interleave on shared state, and proves what those parts keep over every run:

- **Scaling** (`ScaleController`, `RuntimeApi`): which invocation launches a Lambda instance,
  guarded by a slice of `sync.Once` indexed by a possibly stale count.
- **The rendezvous** (`Rendezvous`, `Occupancy`, `RoundTrip`): how a call of `invoke` meets a
  Runtime's `next` and `response` calls, with time-outs, cancellations, init errors, duplicate request IDs, stray
  responses and crashes between any two steps.
- **Idle pacing** (`IdlePacing`): when an instance that is no longer needed is told to stop.
- **The AMQP hop** (`RpcHop`, `RpcRoundTrip`): a second correlation table in front of the daemon,
  over a broker that may deliver anything any number of times, composed with `Rendezvous`.
- **Extensions** (`Extensions`, `InitGate`, `FanOut`): two indexes over the same handles, the
  gate that holds a Runtime back until its Extensions have registered, and the fan-out of
  invoke events.
- **Shutdown** (`Shutdown`): TERM, then KILL, then exit.
- **Publisher confirms** (`PublisherConfirms`, `UndeliveredRanges`, `Producer`): the windowed
  confirm callback against the simple one, and the list of undelivered ranges.
- **Addresses and reconnection** (`Address`, `Reconnect`).

## How to read it

One event of a state machine is one section under a lock or one channel operation; a run is any
sequence of events, and an event that is not enabled does nothing, so a statement about `Run` is
a statement about every interleaving. Objects that the source updates in place are classes
(`RuntimeAPI`, `ProcessManager`, `ExtensionsAPI`, `Extension`, `Handler`, `Producer`,
`RPCInvoker`, `Delivered`, `Destination`, `Listener`, `Connection`); the contract of each method
is the step of the machine, or the function, that the lemmas are about. `Represents` says that the
fields of `RuntimeAPI`, `ProcessManager` or `RPCInvoker` show a given state of the machine. Where
the code does not keep what it sets out to keep, the model follows the code, and a lemma gives the
exact condition.
`dafny verify dfyconfig.toml` checks everything.

Results that say something unexpected about the code:

- A failed start loses one unit of `MaxConcurrency` for good, and so can the exit of an instance
  while another is being launched (`FailedStartIsForever`, `ExitDuringLaunchLosesASlot`). The cap
  itself is never exceeded, and no slice index is ever out of range.
- After an instance has exited while busy, the full-occupancy test in `next` can succeed with an
  idle instance (`ExitWhileBusyBreaksTheTest`). An instance that exits while it waits leaves its
  `next` handler in the daemon, and an invocation handed to that takes the pending requests above
  the number of instances (`HandOverAfterExitBreaksTheBound`). `OccupancyLaw` says exactly when the
  test succeeds and when the bound holds.
- A caller that gives up can leave an entry in `pendingRequests` that outlives it exactly when the
  handler that took its request has still to store it (`GivenUpLeavesAnEntryIff`), also when the
  Runtime has exited meanwhile (`DeadRuntimeLeavesAnEntry`).
- A failed start panics in the invocation that launched, which gets none of the other outcomes
  (`OutcomeIsProper`).
- An invocation whose entry is overwritten or deleted under the same ID can only time out or be
  abandoned (`OrphanedIff`, `DisplacedIsNeverAnswered`).
- A child that is reaped before `Start` registers it takes the place of an instance
  (`ReapedTooEarlyStays`).
- A handle added after its process was unregistered, or for a connection of no known group, makes a
  group that nothing removes (`GroupsMatchIff`, `StrandedGroupStays`), and with one instance
  `IndexedByAddr` may pick it.
- With `MaxConcurrency` above one, Extensions added after the Runtime connected get no invoke
  events until it reconnects; and if an invocation was taken before anyone registered, none after it
  reconnects but what an entry left under its address shows (`DisabledServesLeftOvers`).
  The comment at `pkg/runtimeapi/extensionsapi.go:325-342` promises
  delivery to the Runtime's own Extensions; the model follows the code.
- A paused Runtime whose group is lost before the wait begins is resumed early (`LostGroupResumesEarly`).
- The window of the confirm callback is exact except for a multiple confirm of tag zero, which
  basic.ack of AMQP 0-9-1 defines as "everything so far" (`WindowAgreesIff`).
- When acks skip tags twice, the late nack of the first hole is recorded from the wrong tag
  (`LateNackFillsItsHole`).
- Options given alone lose everything after a `/` unless they have a leading `;`, although the
  comment at `pkg/messaging/amqp091.go:671-673` calls that semicolon optional (`OptionsAloneIff`).
- A request is acknowledged although its reply failed to be published (`AcknowledgedWithoutReply`).
- A reply that overtakes the store of its own request is lost to the call unless it is delivered
  again (`OvertakingReplyIsLost`), and a response handler whose call gave up meanwhile blocks for
  ever (`BlocksForeverIff`).

## Model

| member | source | states |
|---|---|---|
| ScaleController.StepAccounting | pkg/runtimeapi/runtimeapi.go:78-114 | every index read, claim, registration, failed start and exit keeps consumed slots >= processes + launches, and the surplus grows by one exactly on a failed start, a re-registered pid, or an exit whose slot is free already |
| ScaleController.RunAccounting | pkg/runtimeapi/runtimeapi.go:78-114 | over any run the lost capacity is exactly the number of losing steps, and the invariant holds throughout |
| ScaleController.CapNeverExceeded | pkg/invokeapi/rapiinvoker.go:205-210 | under every interleaving, stale indexes included, live plus launching instances never exceed MaxConcurrency less what was lost; neither a caller's index nor the one that Unregister uses is ever out of range; lambdaCount is the number of processes |
| ScaleController.NoLaunchAtTheCap | pkg/runtimeapi/runtimeapi.go:81-92 | at the cap a claim changes nothing but that its caller moves on |
| ScaleController.LaunchesIffBelowTheCap | pkg/invokeapi/rapiinvoker.go:194-210 | while the slots are tidy and nothing is being launched, an uninterrupted call of Init launches exactly when fewer than MaxConcurrency instances run |
| ScaleController.ClaimsBalanceFrees | pkg/runtimeapi/runtimeapi.go:88-112 | conservation per slot: launches from a slot equal the times it was reset, corrected by where it started and ended |
| ScaleController.SameIndexLaunchesOnce | pkg/runtimeapi/runtimeapi.go:73-93 | any number of callers that read the same free index launch one instance between them |
| ScaleController.TidyIffQuiet | pkg/runtimeapi/runtimeapi.go:78-114 | the slots stay "the first lambdaCount, plus the one being launched" exactly under steps that are no failed start, no second registration of a pid, and no exit between a caller's index read and its launch |
| ScaleController.SettledSlots | pkg/runtimeapi/runtimeapi.go:78-114 | after a quiet run, once launches settle, slot i is consumed exactly when i < lambdaCount |
| ScaleController.FailedStartIsForever | pkg/invokeapi/rapiinvoker.go:298-306 | with MaxConcurrency 1, after one failed start no later run ever has a process |
| ScaleController.ExitDuringLaunchLosesASlot | pkg/runtimeapi/runtimeapi.go:106-114 | with MaxConcurrency 2 and successful starts only, an exit during another launch limits every later run to one instance |
| ScaleController.ReapedTooEarlyStays | pkg/process/process-manager.go:325-345 | when a child is reaped before Start registers it, the reap does nothing, the dead child is registered, and unless its pid is reaped again at most MaxConcurrency - 1 other instances run or are launched ever after |
| RuntimeApi.RuntimeAPI.constructor | pkg/runtimeapi/runtimeapiserver.go:39-49 | a new API has every slot free and no stamp, and represents the initial state of the rendezvous |
| RuntimeApi.RuntimeAPI.DeleteRequest | pkg/runtimeapi/runtimeapi.go:120-124 | takes the fields from any state of the rendezvous in which an invocation with this ID is giving up to the state after that step, in which GivenUpLeavesAnEntryIff says when an entry can come back |
| RuntimeApi.RuntimeAPI.Store | pkg/runtimeapi/runtimeapi.go:219-252 | takes the fields through the store step of the rendezvous; its occupancy test is the one of OccupancyLaw in the new state; the stamp and the shutdown channel move as the pacing model says |
| RuntimeApi.RuntimeAPI.TakeChannel | pkg/runtimeapi/runtimeapi.go:307-321 | takes the fields through the lookup step of the rendezvous; in every state that keeps the invariant, the channel it hands out is that of an invocation under this ID, never sent to and empty, so the send that follows cannot block |
| RuntimeApi.RuntimeAPI.OfferInitError | pkg/runtimeapi/runtimeapi.go:341-349 | takes the fields through the init-error step of the rendezvous, for which InitErrorWaits says that a queued error is not displaced |
| RuntimeApi.RuntimeAPI.TakeInitError | pkg/invokeapi/rapiinvoker.go:215-218 | the invocation that receives the queued report forwards exactly that report, and the slot is empty again |
| RuntimeApi.ProcessManager.constructor | pkg/process/process-manager.go:50-56 | a new manager has no process and satisfies the counting invariant |
| RuntimeApi.ProcessManager.ReadIndex | pkg/runtimeapi/runtimeapi.go:79-90 | the index is lambdaCount clamped to the slice, so always in range |
| RuntimeApi.ProcessManager.Claim | pkg/runtimeapi/runtimeapi.go:88-92 | one of the callers at a slot launches, and then processes plus launches are within the slice |
| RuntimeApi.ProcessManager.StartFailed | pkg/invokeapi/rapiinvoker.go:298-303 | a failed start ends the launch, leaves its slot consumed, and keeps the counting invariant |
| RuntimeApi.ProcessManager.Register | pkg/process/process-manager.go:100-106 | the process, the count, the stamp and the Extensions' group change together, keep the counting invariant, and take the rendezvous through its registration step |
| RuntimeApi.ProcessManager.Unregister | pkg/process/process-manager.go:117-131 | a managed process takes its group and its slot with it, an unmanaged child changes nothing, the slot index is in range, and the rendezvous goes through its exit step |
| Rendezvous.StepKeepsInv | pkg/invokeapi/rapiinvoker.go:168-246 | every step of invoke, next, response, initerror, time-out or crash keeps one holder of each response channel's sending end, and undoes no outcome, ID or init error taken |
| Rendezvous.SendsNeverBlock | pkg/invokeapi/rapiinvoker.go:168-221 | in every reachable state each Response channel was sent to at most once, so its slot is free whenever response or the init-error forward is about to send |
| Rendezvous.OutcomeIsProper | pkg/invokeapi/rapiinvoker.go:190-246 | a finished invoke returned bytes posted under its own ID, or an init error, exactly as it was posted, that went to it and kept it from every Runtime, or a time-out after its deadline, or nothing after a client cancellation; or it panicked, which happens exactly when the process it launched failed to start, and then no Runtime takes it |
| Rendezvous.OutcomesAreFinal | pkg/runtimeapi/runtimeapi.go:298-350 | an outcome never changes, and an init error goes to one invocation, for good, that no Runtime ever takes |
| Rendezvous.InitErrorWaits | pkg/runtimeapi/runtimeapi.go:341-349 | an init error in the slot is not displaced by later ones: it stays until an invocation takes it |
| Rendezvous.InitErrorReachesCaller | pkg/invokeapi/rapiinvoker.go:215-227 | an invocation that takes the queued init error returns exactly that report, whatever else happens before it forwards and before it receives it |
| Rendezvous.TableHoldsUnanswered | pkg/runtimeapi/runtimeapi.go:219-223 | every ID in pendingRequests belongs to an invocation that a Runtime took and did not answer, so once all taken are answered it is empty, whatever the order of stores, deletes and duplicate IDs |
| Rendezvous.EntryPersists | pkg/runtimeapi/runtimeapi.go:120-124 | an entry changes only by a store, a delete or a response under its own ID |
| Rendezvous.ResponseReachesCaller | pkg/runtimeapi/runtimeapi.go:307-318 | a parked channel, after any steps that leave its ID alone, receives the next body posted under it, and the caller returns exactly that body |
| Rendezvous.OrphanedIff | pkg/invokeapi/rapiinvoker.go:228-246 | a parked invocation is orphaned exactly by the store of another one under its ID or by a delete under its ID |
| Rendezvous.DisplacedIsNeverAnswered | pkg/runtimeapi/runtimeapi.go:219-223 | so an invocation whose entry is overwritten or deleted under a duplicate ID is answered in no later run |
| Rendezvous.OrphanIsNeverAnswered | pkg/runtimeapi/runtimeapi.go:307-318 | no run leads from an orphaned invocation to an answered one |
| Rendezvous.GivenUpLeavesAnEntryIff | pkg/invokeapi/rapiinvoker.go:228-246 | some later run has an entry that leads to a caller that gave up, if and only if the handler that took its request has still to store it, whether or not the Runtime has exited meanwhile; in every other case, sent, posted, stored or never handed over, none ever does |
| Rendezvous.GivenUpWhileHeldIsParked | pkg/runtimeapi/runtimeapi.go:216-223 | in that case the entry outlives its caller until its ID is posted to, stored or deleted again |
| Occupancy.ManagedRunKeepsInv | pkg/runtimeapi/runtimeapi.go:219-241 | with managed Runtimes that answer before they ask again and do not exit while they have an invocation, and no hand-over to a next call that an exited one left open, every entry belongs to the Runtime that is busy with it |
| Occupancy.Occupancy | pkg/runtimeapi/runtimeapi.go:225-241 | for such runs pending requests <= busy instances <= lambdaCount, and the equality tested in next holds exactly when every instance owns an entry, so then none is idle |
| Occupancy.OccupancyLaw | pkg/runtimeapi/runtimeapi.go:225-241 | for every run, managed or not: pending requests plus instances without an entry equal lambdaCount plus stale entries; so the requests are within lambdaCount exactly when stale entries are within instances without one, the equality tested in next holds exactly when there are as many of the one as of the other, and with it some instance is without an entry exactly when some entry is stale |
| Occupancy.ExitWhileBusyBreaksTheTest | pkg/runtimeapi/runtimeapi.go:238-241 | a run from the start, in which one instance exits while busy, that ends in a store after which the equality holds while a registered instance waits for work |
| Occupancy.HandOverAfterExitBreaksTheBound | pkg/runtimeapi/runtimeapi.go:197-223 | a run from the start in which an instance exits while it waits and an invocation is handed to the next call it left open: one request is pending with no instance registered, and that hand-over is the only step that is not managed |
| Occupancy.ExitKeepsHeld | pkg/runtimeapi/runtimeapi.go:198-223 | the exit of a Runtime does not take the invocation from the handler that holds it |
| Occupancy.DeadRuntimeLeavesAnEntry | pkg/runtimeapi/runtimeapi.go:198-223 | when the Runtime exits and the caller then times out, that handler can still leave an entry |
| Occupancy.HeldIsReachable | pkg/runtimeapi/runtimeapi.go:197-198 | a run from the start reaches a state in which that can happen |
| RoundTrip.CallerCanReturn | pkg/invokeapi/rapiinvoker.go:190-246 | from wherever it is, a caller whose context has ended can return by steps of its own, with the time-out after a deadline and nothing after a cancellation, and leaves no entry under its ID |
| RoundTrip.ColdStart | pkg/invokeapi/rapiinvoker.go:190-227 | an invocation that finds nobody waiting starts an instance, which takes and answers it: the caller returns exactly the posted bytes, its entry is gone, and the instance can ask for more |
| RoundTrip.EndedCallTakesNothing | pkg/runtimeapi/runtimeapi.go:193-198 | once a next call has ended, nothing is handed to that Runtime until it asks again |
| RoundTrip.AsksAgain | pkg/runtimeapi/runtimeapi.go:133-198 | a Runtime that has answered, or lost its invocation, can ask for the next one |
| IdlePacing.StoreKeepsLogInv | pkg/runtimeapi/runtimeapi.go:238-251 | one pass through the pacing code keeps every signal a full pause after every earlier launch, full moment and signal |
| IdlePacing.SignalsArePaced | pkg/runtimeapi/runtimeapi.go:225-251 | over any run, signals are idleTimeout + 1 seconds or more after each other and after every launch and recorded full moment; a run of length T after its first mark has at most T/(idleTimeout+1) signals after it; and no more instances are told to stop than signals were given |
| IdlePacing.StampedRun | pkg/runtimeapi/runtimeapi.go:238-245 | over any run the timestamp is exactly the moment of the last launch, recorded full occupancy, or signal, and nothing else refreshes it |
| IdlePacing.StoreSignalsIff | pkg/runtimeapi/runtimeapi.go:238-251 | over any run a store gives a signal exactly when a full pause has passed since that moment in the history, or since this very full moment; a signal given is queued, and nothing else is |
| IdlePacing.SteadyTrafficSignals | pkg/runtimeapi/runtimeapi.go:225-251 | however steady traffic that never fills all instances is, once a full pause is over a signal has been given and is queued |
| IdlePacing.QueuedUntilTaken | pkg/runtimeapi/runtimeapi.go:245-251 | a queued signal stays queued until a handler takes it, and then ends one instance |
| IdlePacing.SignalIff | pkg/runtimeapi/runtimeapi.go:242-251 | a signal is given exactly when a full pause has passed since the stamp, or since the full occupancy just recorded, with the zero stamp and saturated durations counted as the longest duration |
| Extensions.AddAgreesIffFresh | pkg/runtimeapi/extensionsapi.go:280-293 | adding a handle keeps both indexes on the same handles exactly when its ID is new |
| Extensions.RegisterAgreesIffEmpty | pkg/runtimeapi/extensionsapi.go:251-255 | registering a Runtime does so exactly when its pid has no handles left over |
| Extensions.UnregisterAgrees | pkg/runtimeapi/extensionsapi.go:259-271 | unregistering always does; the group's handles can no longer be found by ID and other groups are untouched |
| Extensions.StepAgreesIffClean | pkg/runtimeapi/extensionsapi.go:251-293 | over the three operations, agreement is kept exactly by fresh IDs and unreused pids |
| Extensions.RunAgrees | pkg/runtimeapi/extensionsapi.go:251-323 | over any run of such operations the indexes hold the same handles, and a lost ID stays lost until added again |
| Extensions.UnregisteredHandlesAreGone | pkg/runtimeapi/extensionsapi.go:259-271 | after a group is unregistered none of its handles is ever found by ID again |
| Extensions.GroupsMatchIff | pkg/runtimeapi/extensionsapi.go:251-293 | over any run without reused pids the groups are those of the registered processes exactly while no handle is added for a process that is not registered |
| Extensions.StrandedGroupStays | pkg/runtimeapi/extensionsapi.go:280-293 | a group made by adding a handle after its process was unregistered is there for good |
| Extensions.ExtensionsAPI.constructor | pkg/runtimeapi/extensionsapi.go:164-181 | both indexes start empty |
| Extensions.Extension.CloseGate | pkg/runtimeapi/extensionsapi.go:522-523 | the gate closes, and may not have been closed before |
| Extensions.ExtensionsAPI.RegisterLambdaRuntime | pkg/runtimeapi/extensionsapi.go:251-255 | the group starts empty whatever was filed under the pid |
| Extensions.ExtensionsAPI.UnregisterLambdaRuntime | pkg/runtimeapi/extensionsapi.go:259-271 | the loop removes exactly the group and the IDs of its handles |
| Extensions.ExtensionsAPI.Add | pkg/runtimeapi/extensionsapi.go:280-293 | a new unregistered handle is last in its group and found by its ID |
| Extensions.ExtensionsAPI.IndexedByAddr | pkg/runtimeapi/extensionsapi.go:305-316 | with one instance the one group as it is now; otherwise the handles its group had when the connection was opened |
| Extensions.ExtensionsAPI.MapAddr | pkg/runtimeapi/extensionsapi.go:355-390 | a new connection freezes the group as it is, if mapping is still enabled |
| Extensions.ExtensionsAPI.UnmapAddr | pkg/runtimeapi/extensionsapi.go:391-395 | a closed connection loses its entry, if mapping is still enabled |
| Extensions.ExtensionsAPI.FindByName | pkg/runtimeapi/extensionsapi.go:117-124 | the first handle of that name, and none exactly when no handle has it |
| Extensions.ExtensionsAPI.RegistrationIsClosed | pkg/runtimeapi/extensionsapi.go:129-136 | registration is closed exactly when some handle has called next |
| Extensions.ExtensionsAPI.Next | pkg/runtimeapi/extensionsapi.go:554-574 | the handle of that ID, or none, and it counts as having called next exactly when an event reached it |
| Extensions.ExtensionsAPI.Subscribe | pkg/runtimeapi/extensionsapi.go:496-513 | succeeds exactly when every event is allowed; a failed attempt leaves both flags as the events before the first bad one set them |
| Extensions.ExtensionsAPI.Subscribed | pkg/runtimeapi/extensionsapi.go:496-525 | the gate closes in step with registered, once, and only when every event is allowed |
| Extensions.ExtensionsAPI.RegisterKnown | pkg/runtimeapi/extensionsapi.go:483-525 | a known handle registers once; a repeated call is refused and changes no subscription |
| Extensions.ExtensionsAPI.RegisterUnknown | pkg/runtimeapi/extensionsapi.go:469-525 | an unknown name gets a handle in its caller's group exactly while registration is open, and may not subscribe to SHUTDOWN |
| Extensions.ExtensionsAPI.Register | pkg/runtimeapi/extensionsapi.go:417-525 | which answer every combination of name, body, handle and events gets; awaitRegister is closed exactly when registered is true, for every handle ever added, and never closed twice; no other handle's flags change |
| InitGate.StartExtensions | pkg/invokeapi/rapiinvoker.go:313-324 | the loop adds, in order, one unregistered handle for each Extension that started, and for no other |
| InitGate.StartOne | pkg/invokeapi/rapiinvoker.go:314-323 | one iteration adds one handle if the process started, and none otherwise |
| InitGate.WholeIffKept | pkg/invokeapi/rapiinvoker.go:326-329 | over any run the wait ranges over every started Extension exactly when the group was not lost between the first start and the wait |
| InitGate.ResumedAfterRegistration | pkg/invokeapi/rapiinvoker.go:309-330 | a resumed Runtime waited for every handle its group listed when the wait began, and that is every started Extension exactly when the group was not lost before |
| InitGate.AllRegisteredResumes | pkg/runtimeapi/extensionsapi.go:86-90 | once every handle that the wait ranges over has registered, the Runtime is resumed |
| InitGate.LostGroupResumesEarly | pkg/invokeapi/rapiinvoker.go:326-329 | a Runtime whose group is lost before that is resumed although a started Extension has not registered |
| FanOut.StepKeepsInv | pkg/runtimeapi/extensionsapi.go:94-100 | every step keeps each handle's received events equal to what was taken while it was served |
| FanOut.EventsInOrder | pkg/runtimeapi/runtimeapi.go:198-223 | a served Extension received, in order and on top of what it had when it last began to be served, what its Runtime took since, minus at most the one in flight; an invocation is stored only after all of them have it |
| FanOut.ReceivesFromRegistration | pkg/runtimeapi/extensionsapi.go:94-100 | from the step that puts an Extension in service, by its registration, another's or a new connection, it receives exactly what is taken, minus the one in flight, in every later run in which it stays served |
| FanOut.ReceivesWhatIsTaken | pkg/runtimeapi/runtimeapi.go:198-223 | between any two states of a run in which it stays served, it receives exactly what its Runtime takes between them |
| FanOut.ConnectServes | pkg/runtimeapi/extensionsapi.go:384-390 | with several instances, a connection opened while mapping is on puts in service exactly the handles of the group as it is then, as soon as they have asked for INVOKE and anyone has registered, before it or after |
| FanOut.ReceivesUntilReconnect | pkg/runtimeapi/extensionsapi.go:94-100 | and from the step that puts one in service until the next connection it receives exactly what is taken, minus the one in flight |
| FanOut.RoundReachesAll | pkg/runtimeapi/runtimeapi.go:198-223 | one invocation from end to end: exactly the served Extensions receive it, once each, and then it is stored, and after the answer the Runtime is ready again |
| FanOut.FlagsIff | pkg/runtimeapi/extensionsapi.go:210-247 | over any run a handle has asked for INVOKE exactly when it was subscribed, someone has registered exactly when a register call succeeded, and new connections are mapped exactly as long as no invocation was taken before that |
| FanOut.AddedLateGetsNothing | pkg/runtimeapi/extensionsapi.go:384-390 | with several instances, a handle added after the Runtime connected receives nothing until it reconnects |
| FanOut.DisabledServesLeftOvers | pkg/runtimeapi/extensionsapi.go:355-358 | with several instances, when an invocation is taken before anyone has registered, a Runtime that later reconnects is followed by exactly the subscribed Extensions that an entry left under its address still shows, and by no others ever after |
| FanOut.DisabledServesNobody | pkg/runtimeapi/runtimeapi.go:208-214 | so from addresses not used before it is followed by no Extension ever after |
| FanOut.SingleInstanceServesAll | pkg/runtimeapi/extensionsapi.go:308-311 | with one instance a handle is served exactly once it has asked for INVOKE and anyone has registered, and from that step on it has received, in every later state, all that was taken and nothing else, but for the one in flight |
| Shutdown.Handler.SignalAll | pkg/process/process-manager.go:161-179 | every managed process is signalled, and no other |
| Shutdown.Handler.ReapChildren | pkg/process/process-manager.go:255-275 | the reaping loop is the function of which ReapIff says when it stops and what is left |
| Shutdown.ReapIff | pkg/process/process-manager.go:255-275 | all that was reaped is gone, and the loop reports the end exactly when termination was signalled, a child was reaped, and no managed process is left |
| Shutdown.ExitsWithTheLastChild | pkg/process/process-manager.go:268-273 | after any run, reaped children leave, and the daemon exits at that moment exactly when termination was signalled and they were the last |
| Shutdown.TermSignalsAll | pkg/process/process-manager.go:276-287 | after any run, a termination signal ends the daemon exactly when there is no managed process, and else goes to exactly the processes there are and restarts the timer |
| Shutdown.TimeoutKillsAll | pkg/process/process-manager.go:290-299 | after any run, an expired timer kills exactly the processes there are, or, once that was done, ends the daemon |
| Shutdown.LaunchIsManaged | pkg/process/process-manager.go:100-106 | a process launched meanwhile is managed from then on |
| Shutdown.Handler.HandleSignals | pkg/process/process-manager.go:211-302 | the loop, over any inputs, is the state machine that the lemmas below are about |
| Shutdown.ExitsAreEarned | pkg/process/process-manager.go:233-301 | KILL comes a full timeout after every TERM round, and once; the loop exits only with no managed process left, or a full timeout after KILL and every TERM |
| Shutdown.StaysWithin | pkg/process/process-manager.go:286-299 | between a termination signal and the exit, no step is later than two timeouts after it, plus the slack of two timers |
| Shutdown.ExitsWithinTwoTimeouts | pkg/process/process-manager.go:238-301 | counted from the last termination signal of any run, whatever happens later than that finds the loop exited |
| Shutdown.AtMostTwoTimeouts | pkg/process/process-manager.go:290-299 | the timer expires at most twice over any run, and the second expiry ends the loop |
| PublisherConfirms.WindowAgreesIff | examples/utils/amqp_0_9_1_messaging_asyncio.py:672-687 | scanning from saved_seq_no settles exactly the outstanding sends that the frame covers, unless it confirms tag zero with multiple while something is outstanding |
| PublisherConfirms.WindowStaysIff | examples/utils/amqp_0_9_1_messaging_asyncio.py:676-687 | nothing outstanding ever lies below saved_seq_no, exactly while multiple confirms do not run ahead of the sends |
| PublisherConfirms.ConfirmSettles | examples/utils/amqp_0_9_1_messaging_asyncio.py:672-687 | a confirm settles its own tag, and with multiple every tag up to it, or all for tag zero, each with its verdict, and leaves the rest and what was settled alone |
| PublisherConfirms.PublishAdds | examples/utils/amqp_0_9_1_messaging_asyncio.py:808-829 | a send is outstanding under the next tag and changes nothing else |
| PublisherConfirms.WindowRefinesSimple | examples/utils/amqp_0_9_1_messaging_asyncio.py:659-687 | over any run of sends and legal confirms the windowed callback and the simple one settle the same futures with the same verdicts |
| PublisherConfirms.SyncCallbackIsSimple | examples/utils/amqp_0_9_1_messaging_asyncio.py:808-829 | from a new producer: every future sent is outstanding or settled, never both |
| PublisherConfirms.SettledOnce | examples/utils/amqp_0_9_1_messaging_asyncio.py:659-670 | a settled future keeps its verdict through any later run |
| PublisherConfirms.RightVerdict | examples/utils/amqp_0_9_1_messaging_asyncio.py:659-670 | each future is settled exactly when a frame covers it, with the verdict of the first that does |
| UndeliveredRanges.RunsAreSeparated | examples/utils/amqp_0_9_1_messaging_asyncio.py:707-722 | the ranges ascend, do not touch, and have an acked tag before each |
| UndeliveredRanges.ListedIff | examples/utils/amqp_0_9_1_messaging_asyncio.py:707-722 | a tag is in the ranges exactly when it was nacked and its run of nacks goes on after the last raise |
| UndeliveredRanges.FrameTracks | examples/utils/amqp_0_9_1_messaging_asyncio.py:690-722 | one in-order confirm, single or multiple, takes the callback's counters and list from one history to the next |
| UndeliveredRanges.RunTracks | examples/utils/amqp_0_9_1_messaging_asyncio.py:690-722 | so does any run of them with sends in between |
| UndeliveredRanges.UndeliveredIsExact | examples/utils/amqp_0_9_1_messaging_asyncio.py:785-802 | for in-order streams undelivered is an ascending list of disjoint ranges separated by acked tags, lists no acked tag, misses none nacked since the last SendError, and is exactly the nacked tags until the first |
| UndeliveredRanges.EveryNackIsReported | examples/utils/amqp_0_9_1_messaging_asyncio.py:785-802 | for in-order streams a tag was nacked exactly when it is listed now or was in some SendError, and every SendError carries separated ranges of nacked tags only |
| UndeliveredRanges.SendRaisesTheList | examples/utils/amqp_0_9_1_messaging_asyncio.py:800-802 | a send raises exactly what is listed and leaves the list empty |
| UndeliveredRanges.LastGap | examples/utils/amqp_0_9_1_messaging_asyncio.py:695-706 | after acks that skip tags, previous_nack_start is where the first hole begins exactly when there is no second |
| UndeliveredRanges.LateNackFillsItsHole | examples/utils/amqp_0_9_1_messaging_asyncio.py:707-722 | a late nack lists exactly its hole if and only if the acks since left no second hole |
| Producer.Producer.constructor | examples/utils/amqp_0_9_1_messaging_asyncio.py:532-569 | the counters of a new producer |
| Producer.Producer.EnableExceptions | examples/utils/amqp_0_9_1_messaging_asyncio.py:724-735 | both modes start in the state from which the run lemmas hold |
| Producer.Producer.ResolveFuture | examples/utils/amqp_0_9_1_messaging_asyncio.py:659-670 | the future leaves the dictionary with its verdict |
| Producer.Producer.ResolveRange | examples/utils/amqp_0_9_1_messaging_asyncio.py:679-681 | the loop settles exactly the outstanding tags from saved_seq_no to the end of the range |
| Producer.Producer.SyncAckNackCallback | examples/utils/amqp_0_9_1_messaging_asyncio.py:672-687 | the callback is the windowed form, raises exactly on a single tag with no future, and under a legal frame settles exactly the outstanding tags that the frame covers, with its verdict |
| Producer.Producer.ExceptionAckNackCallback | examples/utils/amqp_0_9_1_messaging_asyncio.py:690-722 | the callback is the tracker that the range lemmas are about |
| Producer.Producer.Send | examples/utils/amqp_0_9_1_messaging_asyncio.py:785-829 | the whole list of what is undelivered is raised, once, without publishing; otherwise the next tag is published, and in sync mode awaited under that tag |
| RpcHop.StepKeepsInv | pkg/invokeapi/rpcinvoker.go:129-146 | every step of callers, response handlers, broker and daemon keeps one holder of each response channel, one reply per delivery, and replies that never change |
| RpcHop.ConsumesAtMostOne | pkg/invokeapi/rpcinvoker.go:276-315 | a call consumes at most one reply or broker return, always one with its own correlation ID, and returns the body of that reply, or that the function it names is unreachable |
| RpcHop.TableHoldsTheWaiting | pkg/invokeapi/rpcinvoker.go:278-304 | no entry outlives its call: every entry belongs to a call that still waits, under its own ID |
| RpcHop.AcknowledgedAfterReply | pkg/invokeapi/rpcserver.go:154-167 | what is published for a delivery goes to its ReplyTo under its correlation ID with no ReplyTo of its own, and an acknowledged delivery has a reply published before if and only if that publish did not fail |
| RpcHop.AcknowledgedWithoutReply | pkg/messaging/amqp091.go:1117-1143 | a run in which the error of the publish is dropped and the request is acknowledged without any reply |
| RpcHop.EndToEnd | pkg/invokeapi/rpcserver.go:154-167 | across both hops, the bytes a call returns were posted inside the daemon under the call's own ID by way of an invocation that a Runtime took, or are an init error as it was posted, of an invocation no Runtime took, or a time-out of an expired one |
| RpcHop.ReplyReachesCaller | pkg/invokeapi/rpcinvoker.go:132-139 | a reply or return that arrives while the call is in the table is what the call returns |
| RpcHop.OvertakingReplyIsLost | pkg/invokeapi/rpcinvoker.go:276-315 | a reply looked up after the publish and before the store, with nothing stored under its ID, changes nothing, and in every continuation of the store without another lookup under the ID the call consumes nothing and can only time out or be abandoned |
| RpcHop.RepliesOvertake | pkg/invokeapi/rpcinvoker.go:276-284 | a run from the start reaches such a state |
| RpcHop.RedeliveredReplyIsConsumed | pkg/invokeapi/rpcinvoker.go:132-139 | conversely, a lookup under the ID after the store is what the call consumes |
| RpcHop.BlocksForeverIff | pkg/invokeapi/rpcinvoker.go:135-139 | a response handler that took a channel out is there in every later run exactly when its call is giving up or has given up |
| RpcRoundTrip.CallCanReturn | pkg/invokeapi/rpcinvoker.go:291-315 | a waiting call whose context has ended can return, with the time-out after a deadline and nothing after a cancellation, and leaves no entry |
| RpcRoundTrip.RequestBegins | pkg/invokeapi/rpcserver.go:133-162 | a delivered request starts a new invocation in the daemon under its own ID, or a generated one if it has none |
| RpcRoundTrip.RequestIsAnswered | pkg/invokeapi/rpcserver.go:154-167 | what that invocation returned is published to the request's ReplyTo under its own ID, and then it is acknowledged |
| RpcHop.RPCInvoker.constructor | pkg/invokeapi/rpcinvoker.go:48-53 | a new invoker represents the initial state |
| RpcHop.RPCInvoker.Store | pkg/invokeapi/rpcinvoker.go:280-284 | takes the table from any state in which the call has published to the state after its store step |
| RpcHop.RPCInvoker.TakeChannel | pkg/invokeapi/rpcinvoker.go:132-145 | takes the table through the lookup step; in every state that keeps the invariant a channel it hands out is that of a call under this ID, and this handler alone holds it from then on |
| RpcHop.RPCInvoker.Delete | pkg/invokeapi/rpcinvoker.go:302-304 | takes the table from any state in which a call under this ID gives up to the state after that step, which TableHoldsTheWaiting is about |
| RpcHop.Delivered.Acknowledge | pkg/invokeapi/rpcserver.go:165-167 | an acknowledgement may only follow an attempt to publish |
| RpcHop.Delivered.Answer | pkg/invokeapi/rpcserver.go:163-167 | exactly one reply, addressed to the request's ReplyTo and with none of its own, is published before the acknowledgement, or none if the publish fails |
| Address.SplitThenJoin | pkg/messaging/amqp091.go:723-729 | splitting loses nothing, leaves no separator in a part, and makes one part exactly when there is none |
| Address.TrimPadded | pkg/messaging/amqp091.go:732-734 | white space around a trimmed text is removed, and nothing else |
| Address.TrimIsTrimmed | pkg/messaging/amqp091.go:732-734 | what is left is trimmed |
| Address.AsciiSpaces | pkg/messaging/amqp091.go:732-734 | among the ASCII characters, the blank and those from tab to carriage return are white space |
| Address.ParsePadded | pkg/messaging/amqp091.go:721-740 | a printed address parses to its parts whatever white space is put around name and subject |
| Address.RoundTripIff | pkg/messaging/amqp091.go:721-740 | printing and parsing give back all three parts exactly when name and subject are trimmed and without separators, the options are without ';', and the name does not look like options |
| Address.ParsedName | pkg/messaging/amqp091.go:723-740 | whatever the address, the parsed name and subject are trimmed and without separators, and the name does not look like options |
| Address.WithoutSubject | pkg/messaging/amqp091.go:721-734 | a name alone, and a name with options, parse to just those |
| Address.WithoutOptions | pkg/messaging/amqp091.go:721-734 | a name with a subject parses to just those |
| Address.ExtraSeparators | pkg/messaging/amqp091.go:725-733 | with a second ';' the options, and with a second '/' the subject, are dropped without an error |
| Address.OptionsAloneIff | pkg/messaging/amqp091.go:736-740 | options alone read the same with and without the leading semicolon exactly when they contain no '/' |
| Address.NameIsResolved | pkg/messaging/amqp091.go:754-792 | which of address, queue and exchange gives the name, and that it is empty only if all are; a typed destination with a name declares a node of its type, what is declared explicitly is kept, and durable and auto-delete may be set in either place |
| Address.Destination.Resolve | pkg/messaging/amqp091.go:754-792 | the name, the declared node and its durability follow from the decoded options as those lemmas say |
| Address.Destination.ParseAddress | pkg/messaging/amqp091.go:721-792 | the whole of parseAddress for name, subject and options, including a failure to decode |
| Reconnect.DialStopsAtTheFirst | pkg/messaging/amqp091.go:101-128 | a call dials until the first success or cancellation, at most connectionAttempts times, and gives up exactly after that many refusals |
| Reconnect.RetryResult | pkg/messaging/amqp091.go:101-151 | a call does nothing unless the connection is closed and without an error; else it ends with a new connection, or the cancellation as its error and no notification, or the error of the last attempt and everyone notified |
| Reconnect.ErrorIsPermanent | pkg/messaging/amqp091.go:96-101 | once there is an error no later call dials, notifies or clears it |
| Reconnect.NotifiedIffRegisteredBefore | pkg/messaging/amqp091.go:139-151 | over the connection's whole life a listener is notified exactly when it was registered before the attempts were exhausted |
| Reconnect.Connection.constructor | pkg/messaging/amqp091.go:64-77 | a new connection has no error and no listeners |
| Reconnect.Listener.Send | pkg/messaging/amqp091.go:265-266 | a send finds the one-slot buffer empty and the channel open, so it neither blocks nor panics |
| Reconnect.Listener.Close | pkg/messaging/amqp091.go:147 | a close finds the channel open |
| Reconnect.Connection.CloseNotify | pkg/messaging/amqp091.go:261-269 | a new open listener is added last |
| Reconnect.Connection.NotifyAll | pkg/messaging/amqp091.go:145-148 | every listener is sent the error and closed, each once |
| Reconnect.Connection.DialLoop | pkg/messaging/amqp091.go:103-128 | the loop is the bounded dialling of the lemmas |
| Reconnect.Connection.Reconnect | pkg/messaging/amqp091.go:92-152 | a call dials at most connectionAttempts times, keeps every listener sent to and closed at most once, and is the step of the lemmas about a connection's life |

## Left out

- Rendezvous.StepKeepsInv: `invoke` is goroutines in a select, so it is a state machine over its steps and not a method; the update in place of `pendingRequests` is in the methods of `RuntimeAPI`. A Runtime has at most one `next` call open at a time, and one for which a handler stores after its exit counts as busy, and may even post, until another exit or the loss of the request is seen: the statements about all runs cover more runs than there are.
- Rendezvous.OutcomeIsProper: starts after the client context was decoded; a context that is not base64 returns an error before anything that is modelled here.
- ScaleController.CapNeverExceeded: the internals of `sync.Once` are a flag that can be claimed; overwriting a Once while its function is still running only makes the slot free again.
- RuntimeApi.RuntimeAPI.Store: the floating-point rounding of `Duration.Seconds` is left out; `lambdaCount` and `timestamp` are written under the ProcessManager's lock only, and each section is taken as one step all the same.
- Extensions.ExtensionsAPI.Register: one call is one step; two calls that interleave inside the handler are not modelled, nor is the parsing of the JSON body.
- Extensions.ExtensionsAPI.MapAddr: which process owns a connection (`/proc` lookups) is an input.
- FanOut.EventsInOrder: one Runtime and its group; a Runtime that opens a connection while its own `next` is still being served, and the shutdown events of an idle instance, are not modelled.
- Shutdown.ExitsWithinTwoTimeouts: assumes that the loop attends to an expired timer within a given slack, which stands for the scheduler.
- Shutdown.Handler.HandleSignals: signals to process groups are recorded and not sent; the SIGTERM that `Unregister` sends to what is left of a reaped process's group is not modelled.
- PublisherConfirms.SyncCallbackIsSimple: for brokers that confirm only what was published, single tags once, and without tag zero; futures cancelled by the application and publishing from another thread are not modelled.
- UndeliveredRanges.UndeliveredIsExact: for confirms in order; out of order, `LateNackFillsItsHole` says when one late nack is right.
- RpcHop.EndToEnd: safety only; an invocation that panics ends the whole daemon on this path, and its delivery is simply not answered in the model; the broker is a bag of messages, and connections, headers and prefetch are not modelled.
- Address.Destination.ParseAddress: decoding the options text is a parameter, and only the options that name and durability depend on are kept; turning numbers in argument tables into integers is left out.
- Reconnect.Connection.Reconnect: whether the underlying connection is closed is an input; after exhaustion the code keeps a nil connection, whose use is not modelled; nor are connection pools and sessions.
- HTTP routing, headers and response texts, configuration, logging, report printing, main programs and example Lambdas.
- Real processes, signals, sleeps and clocks, which are events and numbers here.
- Producer and consumer dispatchers, exchange and queue declaration, and acknowledgement batching of the messaging package.
- Liveness: the code promises no answer without assumptions on scheduling.
