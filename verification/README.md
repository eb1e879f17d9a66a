# Verification of the KnLiveDbg concurrency and address cores

This project models, in Dafny, the parts of the repository whose correctness depends on more than one function at
a time, and proves what they are for. `dafny verify dfyconfig.toml` checks it.

**Pended I/O** (`PendingIo*.dfy`). The minifilter fixture pends I/O and completes it from one worker thread, under a
lease that a client, a process exit, an instance teardown or the driver's stop may revoke at any moment.
`PendingIo.dfy` is the protocol: a state, one function for each `g_Lock` section and each interlocked operation, and a
transition system over them. Filter Manager is the environment; its promises are the guards of the callback actions (one
callback data is inside one callback at a time, a context is handed to one post). The invariant is in
`PendingIoInvariant.dfy`, its preservation in `PendingIoCallbacks`, `PendingIoWorker`, `PendingIoAdmission` and
`PendingIoControl`, and the theorems over all runs in `PendingIoTheorems`, `PendingIoLease`, `PendingIoDrain` (the stop
cannot be stuck and ends) and `PendingIoUnload` (it leaves nothing behind, and always can get there);
`PendingIoOrder` says whose step is whose and what each step leaves alone. `PendingIoEffects` tells the same steps a
second time, by cause instead of by section: for each field, what changes it and to what. `PendingIoDecisions` says for
each request and mode what is admitted, pended, queued, forwarded and answered, and what follows for runs.

`PendingIoProvider.dfy` holds the driver's own objects: contexts, two lists, globals and the references on process
objects, updated in place by one method for each section. Each method takes the protocol state it starts from as a ghost
argument and leaves the heap representing the state to which the protocol action leads. `PendingIoThreads.dfy` puts these
sections together to the driver's procedures: both operation callbacks, FinishLogical, DropReference, the worker's look at
the arm and its drain loop (and the whole worker of a stopping driver), the procedures that hold `g_Control`, and what
the two instance callbacks do under `g_Lock`, with the drops of their process references. Between any two sections of a
procedure stands `Others`, whose contract admits any number of steps of other threads; what a procedure does with the
answers of its sections is proved to be the program order that the protocol assumes (`PendingIoSections`), and its whole
course continues any run (`PendingIoTraces`). So the theorems about runs are theorems about these procedures.

**Managed callbacks** (`ManagedCallbacks*.dfy`). Two counting bodies can be paused by one leasing client; pausing closes
a rundown reference and waits for the threads inside. The protocol interleaves callbacks, unlocked queries and the holder
of `g_Control`; `ManagedCallbacksEffects.dfy` tells its steps by cause, `ManagedCallbacksControl.dfy` is the in-place
form of its sections, and `ManagedCallbacksThreads.dfy` puts them together to RunBody, SetEnabled, ReleaseOwner, the
control message, disconnection, process exit and the stop, each proved to terminate with what it promises.

**Address translation** (`Paging.dfy`, `PagingTheorems.dfy`). The driver's unrolled page-table walk is proved equal to a
recursive walk of a radix tree of depth 4 or 5 (section 4.5 of the Intel SDM, volume 3A), for every memory content and
with failing reads. The driver masks and the recursive walk divides; `Bits.dfy` relates the two for masks of any width,
over the division lemmas of `Division.dfy`. The translation is then shown to be linear over the span it returns, and its
answer is stated for every input in terms of the bits of the last entry read.

**Timeline ring** (`TimelineRing.dfy`). A circular buffer over an array refines a plain queue; the reserve it keeps for
important events is proved, and proved to be exactly that large; what is drained is what was offered, in order.

**Controller lease** (`ControllerLease.dfy`). The device's counted single owner, the closing phase, and the notification
callbacks that must not outlive it.

**Coverage algebra** (`Coverage.dfy`). Merging of address ranges and the comparison of two runs, against sets of
addresses.

One rule of the source holds only under a condition: the figures of a comparison count addresses if and only if no list of
the cohort overlaps itself (`Compare`). Measured reports are merged and never do; a cached report that was edited may, and
then an address can be reported as shared that is not (`OverlapCountsTwice`).

## Model

| member | source | states |
|---|---|---|
| PendingIoRuns.StepKeeps | minifilter_fixture_driver/PendingIo.cpp:54-965 | Every action of every thread keeps the one inductive invariant: lists, shares, routing, sweeps, arm, lease, watcher, event, ledger, references, tickets and claims. |
| PendingIoRuns.RunKeeps | minifilter_fixture_driver/PendingIo.cpp:593-965 | Hence the invariant holds in every state of every interleaving that starts from initialisation. |
| PendingIoTheorems.Lifetime | minifilter_fixture_driver/PendingIo.cpp:54-77 | In every state of every run an operation's reference count is its logical share plus its work entry plus the worker's share, at most three; it is off its normal life exactly at zero, and then released and done. |
| PendingIoTheorems.NoUseAfterFree | minifilter_fixture_driver/PendingIo.cpp:313-379 | Whatever the worker holds, and whatever either list holds, is allocated; what the worker holds or the work list holds has a count above zero. |
| PendingIoTheorems.FreedOnce | minifilter_fixture_driver/PendingIo.cpp:63-66 | After an operation was freed it is never seen, unlinked or freed again in the rest of the run. |
| PendingIoUnload.FreedExactlyOnce | minifilter_fixture_driver/PendingIo.cpp:54-66 | An operation that was allocated and is gone later was unlinked by exactly one step of the whole run and freed by exactly one later step. |
| PendingIoTheorems.UnlinkedOnce | minifilter_fixture_driver/PendingIo.cpp:57-62 | An operation leaves the list of operations at most once. |
| PendingIoTheorems.NeverReleasedTwice | minifilter_fixture_driver/PendingIo.cpp:68-77 | The branch that finds the logical share released already is unreachable, and the violation count stays zero. |
| PendingIoTheorems.ExactlyOnce | minifilter_fixture_driver/PendingIo.cpp:207-237 | Each hand-over of a callback data is completed at most once, never without a hand-over, and while it is not completed it is queued or in the worker's hands, with the very data that was handed over. |
| PendingIoTheorems.QueuedOnce | minifilter_fixture_driver/PendingIo.cpp:230-233 | No operation is on the work list twice. |
| PendingIoTheorems.NothingStranded | minifilter_fixture_driver/PendingIo.cpp:316-322 | After the worker has terminated the driver is stopping, the work list is empty for ever, every hand-over was completed and none is added. |
| PendingIoTheorems.SweepsMissNothing | minifilter_fixture_driver/PendingIo.cpp:187-205 | Always: a listed operation has the current owner or was woken with reason 2 or more; a stopping driver or instance implies reason 3. |
| PendingIoTheorems.ReasonsRise | minifilter_fixture_driver/PendingIo.cpp:81-85 | A wake reason of two or more never falls, not even when a post is queued and resets it. |
| PendingIoTheorems.RevokedIsCancelled | minifilter_fixture_driver/PendingIo.cpp:344-355 | An operation that was ever revoked (owner released, instance or driver stopping) is cancelled when the worker decides on its pre, never forwarded. |
| PendingIoTheorems.RevokedIsNotQueued | minifilter_fixture_driver/PendingIo.cpp:211-218 | Nor is such an operation ever queued: the callback keeps the I/O. |
| PendingIoTheorems.ForwardedIsCurrent | minifilter_fixture_driver/PendingIo.cpp:344-373 | What the worker does forward belongs to the current owner, with nothing stopping, and a read has its pages locked. |
| PendingIoTheorems.LedgerConserved | minifilter_fixture_driver/PendingIo.cpp:54-77 | Created = freed + live, live and queue depth are the list lengths, and each started/finished pair of counters differs by exactly the operations in between. |
| PendingIoTheorems.AuditBalances | minifilter_fixture_driver/PendingIo.cpp:659-672 | Whenever no context is live: created = freed = logically completed = posts + cancelled pres + failed buffer locks, queued = completed on both sides, no violation. |
| PendingIoUnload.GoneWasFreed | minifilter_fixture_driver/PendingIo.cpp:63-66 | Nothing but the free removes an operation: between a state that has it and one that has not lies the step that freed it. |
| PendingIoUnload.NothingLeftWithWorker | minifilter_fixture_driver/PendingIo.cpp:316-322 | Once the worker has terminated, every operation still there is in a callback's or Filter Manager's hands, or done and about to be unlinked and freed by the thread that dropped the last reference. |
| PendingIoUnload.UnloadLeavesNothing | minifilter_fixture_driver/PendingIo.cpp:659-672 | Once Filter Manager has drained the callbacks after the join and the threads that dropped last references have finished, no operation is left, the final ledger balances, and when the locals are gone no process reference is held: nothing is assumed about contexts. |
| PendingIoUnload.UnloadFinishes | minifilter_fixture_driver/PendingIo.cpp:636-672 | From every state after the join a path of callback sections, draining posts and last drops alone, at most nine steps for each operation and one for each that moves, reaches a state without operations: what UnloadLeavesNothing assumes can always be brought about. |
| PendingIoTheorems.ReferencesConserved | minifilter_fixture_driver/PendingIo.cpp:151-205 | For every process the references held are the arm's, the lease's, those of the operations that target it, the watcher's and those of locals, and no other. |
| PendingIoTheorems.NoReferenceLeaks | minifilter_fixture_driver/PendingIo.cpp:636-657 | After the stop, with every operation freed and the locals gone, no process reference is left. |
| PendingIoTheorems.StoppedIsUnowned | minifilter_fixture_driver/PendingIo.cpp:636-647 | Once the stop has released the lease there is no owner, no arm and, with control free, no probe. |
| PendingIoTheorems.ArmIsWhole | minifilter_fixture_driver/PendingIo.cpp:89-98 | Armed mode, target and remaining reservations are present together; an arm has a connected owner whose process is the recorded one, and the current topology generation. |
| PendingIoTheorems.PublishedIsCurrent | minifilter_fixture_driver/PendingIo.cpp:804-910 | An operation is published with the current owner and the current topology, into an instance and a driver that are not stopping, and an upper only for the armed process. |
| PendingIoTheorems.AdmissionBounded | minifilter_fixture_driver/PendingIo.cpp:811-873 | At most 16 contexts are live; an arm admits at most its reservations, each upper is claimed by at most one lower and no lower is claimed. |
| PendingIoTheorems.VerdictFitsArm | minifilter_fixture_driver/PendingIo.cpp:151-184 | While the watcher probes no arm succeeds: if a target is armed when its verdict falls it is the one of the snapshot. |
| PendingIoTheorems.NoLostWakeup | minifilter_fixture_driver/PendingIo.cpp:300-323 | From the moment the worker leaves its drain loop until its wait ends, an unsignalled event means that no work and no stop is there to see; and if it waits for a signal alone, nothing is armed. |
| PendingIoLease.LeaseIsExclusive | minifilter_fixture_driver/PendingIo.cpp:187-205 | The owner changes only to nobody, or from nobody to the client whose arm succeeds: a lease is never taken over. |
| PendingIoLease.ArmNeedsQuiet | minifilter_fixture_driver/PendingIo.cpp:535-565 | An arm succeeds only for a connected client that owns or may take the lease, before the stop, with no teardown under way, an instance present, and no context, work item, busy worker or earlier arm; it then has the mode, target and count asked for and the current generation. |
| PendingIoLease.IdentifiersAreNotReused | minifilter_fixture_driver/PendingIo.cpp:398-407 | After a disconnection its identifier names no client ever again. |
| PendingIoEffects.StepChanges | minifilter_fixture_driver/PendingIo.cpp:54-965 | What every step of every thread changes, field by field and by cause: the lease ends for one of five causes and is taken by a successful arm alone; what retires an arm, sets it and takes a reservation of it; which steps begin a topology generation; connections; the exact reason and wake-up each step means for each operation, and what of an operation changes at all; what is queued and in which order; what the event and each counter follow. |
| PendingIoDecisions.LowerAdmission | minifilter_fixture_driver/PendingIo.cpp:832-910 | A read at a running lower instance claims the first listed upper whose very I/O it is: same data, file and process, current owner and generation, not released, woken or claimed; exactly that one, and the lower operation carries its data, its mode only for FAIL_READ_LOCK, and starts as its mode says; without such an upper nothing changes. |
| PendingIoDecisions.UpperAdmission | minifilter_fixture_driver/PendingIo.cpp:811-831 | A request of the armed process at a running upper instance, of the kind that the mode is for, is published with the armed mode, the current owner and generation and its own data, file and process, unless memory is refused or the mode is FAIL_ALLOC. |
| PendingIoDecisions.OtherAdmission | minifilter_fixture_driver/PendingIo.cpp:804-883 | Every other request passes by and changes nothing. |
| PendingIoDecisions.QueueDecision | minifilter_fixture_driver/PendingIo.cpp:207-237 | A data goes to the worker exactly if nothing is stopping, the reason is below 2 and the mode does not refuse it; a post starts with its reason and event cleared; a refusal leaves the I/O with the callback. |
| PendingIoDecisions.LockDecision | minifilter_fixture_driver/PendingIo.cpp:913-940 | A read goes on exactly with its pages locked, never in FAIL_READ_LOCK; otherwise the callback finishes it. |
| PendingIoDecisions.PostDecision | minifilter_fixture_driver/PendingIo.cpp:947-965 | A post is offered to the worker exactly in POST, BOTH and FAIL_POST_QUEUE, and only if it does not drain. |
| PendingIoDecisions.WorkerDecision | minifilter_fixture_driver/PendingIo.cpp:341-355 | The worker cancels a pre exactly if its wait failed, its reason is 2 or more, something is stopping, or a read has no locked pages; otherwise it forwards it. |
| PendingIoDecisions.WorkerCompletion | minifilter_fixture_driver/PendingIo.cpp:356-374 | The worker completes the data it holds; a post or a cancelled pre leads into FinishLogical, a forwarded pre leaves its logical share to its post. |
| PendingIoDecisions.WorkerLoop | minifilter_fixture_driver/PendingIo.cpp:294-323 | The worker probes exactly if something is armed, waits with a time limit exactly if something is armed at its sample, and ends exactly if it finds the list empty and the driver stopping. |
| PendingIoDecisions.DropDecision | minifilter_fixture_driver/PendingIo.cpp:54-56 | A share is let go: exactly at zero the life of the operation ends, and the worker that read zero goes on to unlink it. |
| PendingIoDecisions.UnlinkDecision | minifilter_fixture_driver/PendingIo.cpp:57-62 | The unlink takes this one operation out of the list and keeps the order of the others. |
| PendingIoDecisions.ControlCourse | minifilter_fixture_driver/PendingIo.cpp:187-205 | Where every section under g_Control leaves it. |
| PendingIoDecisions.MessageDecision | minifilter_fixture_driver/PendingIo.cpp:526-575 | Which status a message gets, for every sender, action and state; a refused message changes nothing. |
| PendingIoDecisions.ReplyKeeps | minifilter_fixture_driver/PendingIo.cpp:576-589 | A reply that arrives changes nothing but the release of g_Control: arm, lease, operations and references stay. |
| PendingIoDecisions.LeaseEnds | minifilter_fixture_driver/PendingIo.cpp:187-205 | A lease ends only by its owner's disconnection, the exit of its process, its release request, the stop, or a reply to it that was lost. |
| PendingIoDecisions.WorkIsFifo | minifilter_fixture_driver/PendingIo.cpp:230-326 | Along every run, what was handed to the worker is what it has taken up, in the same order, followed by the work list: first come, first served. |
| PendingIoDecisions.GenerationsRise | minifilter_fixture_driver/PendingIo.cpp:100-105 | The topology generation never falls, and each accepted setup and each teardown in between has raised it. |
| PendingIoDecisions.TopologyEndsPairs | minifilter_fixture_driver/PendingIo.cpp:842-858 | After an instance came or went, no upper published before is claimed any more. |
| PendingIoDecisions.ExitedIsCancelled | minifilter_fixture_driver/PendingIo.cpp:676-711 | A pre that waits when its process is found to have exited, by the notification or by the watcher, is cancelled, never forwarded. |
| PendingIoGrowth.StepGrows | minifilter_fixture_driver/PendingIo.cpp:81-85 | Every action keeps what must not be undone: unlinked stays unlinked, high reasons, stopping flags, a terminated worker and, once stopping, the set of hand-overs. |
| PendingIoGrowth.RunGrows | minifilter_fixture_driver/PendingIo.cpp:207-237 | The same between any two states of a run. |
| PendingIoOrder.StepFrame | minifilter_fixture_driver/PendingIo.cpp:54-965 | What any one step of any thread leaves alone: an operation it does not act on keeps stage and life, only its own free and unlink end one, reasons, deaths, releases and claims are not undone; the worker, its queue and g_Control are moved by their own sections; the lease is given up or taken when free; identifiers are not given out again; after the stop nothing is created or pended. |
| PendingIoOrder.OthersLeaveOperation | minifilter_fixture_driver/PendingIo.cpp:54-77 | Only the steps of the holders of its shares move an operation to another stage or end its life. |
| PendingIoOrder.OthersLeaveWorker | minifilter_fixture_driver/PendingIo.cpp:294-380 | No step outside the worker's own code moves the worker. |
| PendingIoOrder.ControlIsHeld | minifilter_fixture_driver/PendingIo.cpp:187-205 | While a thread holds g_Control no other takes it or moves it, and each of the holder's sections leaves fewer to its release. |
| PendingIoDrain.WorkerProgress | minifilter_fixture_driver/PendingIo.cpp:294-380 | Unless it stands at the head of its loop while another thread holds g_Control, or is parked untimed on an unsignalled event, the worker's next step is enabled: the operation it needs is there, in the stage it needs. |
| PendingIoDrain.WorkerDecreases | minifilter_fixture_driver/PendingIo.cpp:294-380 | Each such step lowers a bound on the steps left. |
| PendingIoDrain.StopDrains | minifilter_fixture_driver/PendingIo.cpp:636-657 | From the stop on, the worker takes at most that many steps in any interleaving. |
| PendingIoDrain.StopNeverBlocks | minifilter_fixture_driver/PendingIo.cpp:651-656 | In every stopping state before the worker's end, either the worker's next step is enabled, or it waits at the head of its loop for g_Control, whose holder's next section is enabled. |
| PendingIoDrain.ControlIsReturned | minifilter_fixture_driver/PendingIo.cpp:187-205 | In a stopping state each section of another holder of g_Control brings its release nearer, no other thread takes that back, and none of these steps raises the worker's bound. |
| PendingIoDrain.StopFinishes | minifilter_fixture_driver/PendingIo.cpp:636-657 | From every stopping state of the invariant a path of steps of the worker and of the holder of g_Control alone reaches the worker's end, within the two bounds: the join cannot be stuck. |
| PendingIoDrain.OthersCalm | minifilter_fixture_driver/PendingIo.cpp:207-219 | No step of any other thread raises that bound: nothing is queued any more. |
| PendingIoProvider.Context.Wake | minifilter_fixture_driver/PendingIo.cpp:81-85 | A stronger reason replaces a weaker one, never the reverse, and the event is set. |
| PendingIoProvider.Context.Visit | minifilter_fixture_driver/PendingIo.cpp:194-198 | The test and wake-up of one list entry is the protocol's sweep of that operation. |
| PendingIoProvider.Context.Hand | minifilter_fixture_driver/PendingIo.cpp:222-228 | Queueing gives the worker a reference and the data; a post starts with a clear event and no reason. |
| PendingIoProvider.Provider.constructor | minifilter_fixture_driver/PendingIo.cpp:593-608 | The initialised heap represents the protocol's initial state. |
| PendingIoProvider.Provider.WakeListed | minifilter_fixture_driver/PendingIo.cpp:194-198 | The loop over the list wakes exactly the operations that the sweep selects. |
| PendingIoProvider.Provider.Disarm | minifilter_fixture_driver/PendingIo.cpp:89-98 | Refines the protocol's disarming and hands back the arm's process. |
| PendingIoProvider.Provider.ChangeTopology | minifilter_fixture_driver/PendingIo.cpp:100-105 | Refines the protocol's change of topology. |
| PendingIoProvider.Provider.ReleaseOwner | minifilter_fixture_driver/PendingIo.cpp:187-205 | Disarming, sweep and release in one section refine the protocol's release of the lease. |
| PendingIoProvider.Provider.Connect | minifilter_fixture_driver/PendingIo.cpp:390-413 | Refines connection; a client gets an identifier exactly if the driver is not stopping, identifiers are left and a slot is free. |
| PendingIoProvider.Provider.DisconnectRelease | minifilter_fixture_driver/PendingIo.cpp:415-419 | A disconnecting owner is released. |
| PendingIoProvider.Provider.DisconnectRemove | minifilter_fixture_driver/PendingIo.cpp:420-432 | The client leaves the table. |
| PendingIoProvider.Provider.LockUserBuffer | minifilter_fixture_driver/PendingIo.cpp:913-940 | A read is queued only with its pages locked; a failure is counted and the callback finishes the I/O. |
| PendingIoProvider.Provider.EnterPost | minifilter_fixture_driver/PendingIo.cpp:947-962 | The post is counted; only an undrained post of a post mode goes on to queue. |
| PendingIoProvider.Provider.SwapReleased | minifilter_fixture_driver/PendingIo.cpp:70 | The compare-exchange tells the caller whether it released the share. |
| PendingIoProvider.Provider.CountReleased | minifilter_fixture_driver/PendingIo.cpp:71-77 | The first release is counted as completion, any other as a violation. |
| PendingIoProvider.Provider.Decrement | minifilter_fixture_driver/PendingIo.cpp:54-56 | One reference goes; exactly the caller that reads zero goes on to unlink. |
| PendingIoProvider.Provider.DropLogicalDrops | minifilter_fixture_driver/PendingIo.cpp:76 | The drop at the end of FinishLogical is such a decrement. |
| PendingIoProvider.Provider.DropWorkerDrops | minifilter_fixture_driver/PendingIo.cpp:374 | So is the worker's drop of its own share. |
| PendingIoProvider.Provider.Unlink | minifilter_fixture_driver/PendingIo.cpp:57-62 | The section of DropReference removes this one context and keeps the order of the others. |
| PendingIoProvider.RemovedLists | minifilter_fixture_driver/PendingIo.cpp:59 | Removing a context from the list removes its name from the order. |
| PendingIoProvider.Provider.Free | minifilter_fixture_driver/PendingIo.cpp:63-66 | The reference on its target goes with an unlinked context that is not queued; the rest of the heap is as it was. |
| PendingIoProvider.Provider.Queue | minifilter_fixture_driver/PendingIo.cpp:207-237 | The answer is the protocol's refusal; on acceptance the context is appended with its own reference, counters and event. |
| PendingIoProvider.Provider.Pop | minifilter_fixture_driver/PendingIo.cpp:313-329 | The head of the drain loop takes the oldest entry, or says whether to terminate. |
| PendingIoProvider.Provider.Decide | minifilter_fixture_driver/PendingIo.cpp:341-355 | The cancel decision and its counters are the protocol's. |
| PendingIoProvider.Provider.WorkerTail | minifilter_fixture_driver/PendingIo.cpp:376-378 | The worker's item ends. |
| PendingIoProvider.Provider.FindPair | minifilter_fixture_driver/PendingIo.cpp:834-873 | The loop returns the first listed context that this lower read may claim, or none exists. |
| PendingIoProvider.Provider.Consume | minifilter_fixture_driver/PendingIo.cpp:814-825 | One reservation goes, and the arm's process reference is handed over exactly with the last one. |
| PendingIoProvider.Provider.Claim | minifilter_fixture_driver/PendingIo.cpp:866-872 | The upper is marked as claimed and a reference taken on the requestor; nothing else changes. |
| PendingIoProvider.Provider.Publish | minifilter_fixture_driver/PendingIo.cpp:884-910 | A context is allocated, filled and appended under the same section, or nothing changes. |
| PendingIoProvider.Provider.Admit | minifilter_fixture_driver/PendingIo.cpp:804-910 | The whole section of the pre callback refines the protocol's admission. |
| PendingIoProvider.Provider.Snapshot | minifilter_fixture_driver/PendingIo.cpp:151-160 | The watcher takes control, the armed target and a reference on it. |
| PendingIoProvider.Provider.Verdict | minifilter_fixture_driver/PendingIo.cpp:165-183 | An exited target that is still armed is retired and its operations woken; otherwise nothing changes. |
| PendingIoProvider.Provider.Message | minifilter_fixture_driver/PendingIo.cpp:529-574 | The section of a control message refines the protocol's; arming and resuming happen inside it. |
| PendingIoProvider.Provider.MessageRelease | minifilter_fixture_driver/PendingIo.cpp:575 | A release request releases the lease. |
| PendingIoProvider.Provider.Reply | minifilter_fixture_driver/PendingIo.cpp:576-589 | A reply that was lost releases the lease of its sender. |
| PendingIoProvider.Provider.ExitRelease | minifilter_fixture_driver/PendingIo.cpp:676-679 | The exit of the owner's process releases the lease. |
| PendingIoProvider.Provider.ExitSweep | minifilter_fixture_driver/PendingIo.cpp:680-700 | The exit of a process retires its arm and wakes its operations. |
| PendingIoProvider.Provider.StopMark | minifilter_fixture_driver/PendingIo.cpp:636-645 | Stopping wakes every listed operation with reason 3 and signals the worker. |
| PendingIoProvider.Provider.StopRelease | minifilter_fixture_driver/PendingIo.cpp:646-647 | The stop releases the lease. |
| PendingIoProvider.Provider.SetupInstance | minifilter_fixture_driver/PendingIo.cpp:746-760 | An instance is accepted, with a change of topology, exactly if the driver is not stopping. |
| PendingIoProvider.Provider.TeardownInstance | minifilter_fixture_driver/PendingIo.cpp:764-784 | A stopping instance changes the topology and wakes its operations with reason 3. |
| PendingIoTraces.StandsMeanwhile | minifilter_fixture_driver/PendingIo.cpp:54-77 | Whatever other threads do between two sections of a callback or of the worker on an operation, the thread finds it allocated, in the same stage of the same life. |
| PendingIoTraces.HolderMeanwhile | minifilter_fixture_driver/PendingIo.cpp:415-432 | Whatever other threads do, g_Control is still held for the same section. |
| PendingIoTraces.TraceExtendsRun | minifilter_fixture_driver/PendingIo.cpp:593-965 | What a procedure did from a state of a run, other threads' steps included, continues that run, so every theorem about runs applies to it. |
| PendingIoSections.SwapTaken | minifilter_fixture_driver/PendingIo.cpp:70-76 | The swap finds the share unreleased, and leads to where the count is enabled. |
| PendingIoSections.DropLogicalTaken | minifilter_fixture_driver/PendingIo.cpp:54-58 | After the logical drop exactly a callback can be the last: the worker that runs it still has its own share. |
| PendingIoSections.DropWorkerTaken | minifilter_fixture_driver/PendingIo.cpp:374 | After the worker's drop it ends the context if the count is zero, and its item otherwise. |
| PendingIoSections.QueueTaken | minifilter_fixture_driver/PendingIo.cpp:207-237 | The queue section's answer decides whether the worker owns the data, the post will run, or the post callback must finish. |
| PendingIoSections.CompleteTaken | minifilter_fixture_driver/PendingIo.cpp:356-373 | Completing a post or a cancelled pre leads into FinishLogical, forwarding a pre does not. |
| PendingIoThreads.EndContext | minifilter_fixture_driver/PendingIo.cpp:57-66 | The thread that read a zero count unlinks and then frees the context, and the context it frees is on neither list. |
| PendingIoThreads.DropReference | minifilter_fixture_driver/PendingIo.cpp:54-66 | A decrement, and exactly if it reads zero the unlink and the free, with any other threads in between. |
| PendingIoThreads.FinishLogical | minifilter_fixture_driver/PendingIo.cpp:68-77 | Swap, count and drop run in this order on the heap; the share is released exactly once, a callback may end the context, the worker never does. |
| PendingIoThreads.PreOperation | minifilter_fixture_driver/PendingIo.cpp:794-945 | The pre callback from its admission to its answer. A mode that does not pend is passed on; in one that does the I/O is completed exactly if a read's pages could not be locked, and otherwise pended exactly if nothing was revoked when it asked to queue and the mode does not refuse; the answer is where the operation is, and a process reference taken for an operation that could not be allocated is dropped. |
| PendingIoThreads.PostOperation | minifilter_fixture_driver/PendingIo.cpp:947-965 | The post callback: it asks to queue exactly if it does not drain and its mode is POST, BOTH or FAIL_POST_QUEUE; it is queued exactly if nothing was revoked in the state it asked in and the mode does not refuse, and whoever is not queued finishes the operation. |
| PendingIoThreads.WatchTarget | minifilter_fixture_driver/PendingIo.cpp:151-185 | The worker's look at the armed target: snapshot, a probe only with a target, verdict, the drops of the snapshot's reference and of a retired arm's, and a timed wait exactly if a target is armed then. |
| PendingIoThreads.WakeUp | minifilter_fixture_driver/PendingIo.cpp:312 | The wait consumes a signal, or ends by time only if it was timed. |
| PendingIoThreads.HandleItem | minifilter_fixture_driver/PendingIo.cpp:341-378 | A work item from its wait to the end: decision, completion, FinishLogical exactly for a post or a cancelled pre, the worker's drop, the context's end if it is the last, and the count of active workers. |
| PendingIoThreads.DrainStep | minifilter_fixture_driver/PendingIo.cpp:313-379 | One turn of the drain loop: the oldest item is handled to its end, or an empty list ends the loop, and the thread if the driver is stopping. |
| PendingIoThreads.TraceRemaining | minifilter_fixture_driver/PendingIo.cpp:294-380 | In a stopping driver each section of the worker lowers the bound, and no step in between, nor a drop of a process reference, raises it. |
| PendingIoThreads.DrainStopped | minifilter_fixture_driver/PendingIo.cpp:313-379 | The drain loop of a stopping driver terminates, whatever other threads do between its sections, with every work item handled and the thread at its end. |
| PendingIoThreads.WaitForControl | minifilter_fixture_driver/PendingIo.cpp:151-153 | On the schedules in which the present holder of g_Control runs on and nobody else takes the lock before the worker, the wait ends, within the holder's sections. |
| PendingIoThreads.RunStopped | minifilter_fixture_driver/PendingIo.cpp:294-380 | The worker of a stopping driver from the head of its loop to its end: the wait for g_Control, the look at the arm, the signalled wait and the drain, with every work item handled and within the bound. For the wait the schedule is that of WaitForControl; from then on other threads do whatever they may between any two sections. |
| PendingIoThreads.StartStopped | minifilter_fixture_driver/PendingIo.cpp:294-380 | The same, with the same assumption on the schedule of the wait for g_Control, from the creation of the thread. |
| PendingIoThreads.DropLocal | minifilter_fixture_driver/PendingIo.cpp:179-205 | A dereference of a local: the reference is still there, whatever other threads do, and goes. |
| PendingIoThreads.InstanceSetup | minifilter_fixture_driver/PendingIo.cpp:746-761 | The end of instance setup: published exactly if the driver is not stopping, and a retired target is dropped. |
| PendingIoThreads.InstanceTeardown | minifilter_fixture_driver/PendingIo.cpp:764-783 | The start of a teardown, and the drop of the retired target. |
| PendingIoThreads.StopDriver | minifilter_fixture_driver/PendingIo.cpp:636-647 | The stop under g_Control: mark and sweep, then release; when g_Control is let go nobody owns the provider, and the references of arm and lease are dropped. |
| PendingIoThreads.DisconnectClient | minifilter_fixture_driver/PendingIo.cpp:415-432 | A disconnection: release, the drops of its references, then removal; afterwards the identifier names nobody. |
| PendingIoThreads.ProcessExit | minifilter_fixture_driver/PendingIo.cpp:676-700 | A process exit: release, then sweep, and the drops of their references; when g_Control is let go the process is neither the owner nor the target. |
| PendingIoThreads.HandleMessage | minifilter_fixture_driver/PendingIo.cpp:526-590 | A control message: a refused one changes nothing and drops the target it looked up; one that succeeds and is answered leaves the lease with the sender of an arm, as it was after a resume and free after a release; one whose reply is lost leaves its sender without it; every reference of its locals is dropped. |
| ManagedCallbacksInvariant.ApplyKeeps | minifilter_fixture_driver/ManagedCallbacks.cpp:48-400 | Every action of callbacks, queries and the holder of g_Control keeps the invariant of masks, rundown references, threads, lease and stop. |
| ManagedCallbacksTheorems.RunKeeps | minifilter_fixture_driver/ManagedCallbacks.cpp:343-353 | The invariant holds in every state of every run. |
| ManagedCallbacksTheorems.BodiesFollowMasks | minifilter_fixture_driver/ManagedCallbacks.cpp:48-72 | Always: no body is both enabled and draining, an enabled body's rundown is live, a body in neither mask is empty and its rundown complete, and the active counter is the number of threads inside. |
| ManagedCallbacksTheorems.QueriesAreConsistent | minifilter_fixture_driver/ManagedCallbacks.cpp:209-252 | A query taken without the control lock at any moment shows disjoint masks, no activity in a paused body, and both bodies enabled if it shows no owner before the stop. |
| ManagedCallbacksTheorems.EnabledAcquires | minifilter_fixture_driver/ManagedCallbacks.cpp:297-325 | RunBody runs the body exactly if its bit is set: the acquisition under the lock never fails. |
| ManagedCallbacksTheorems.ReinitialisedAfterRundown | minifilter_fixture_driver/ManagedCallbacks.cpp:59-65 | A rundown reference becomes live again only after it was closed and nobody held it. |
| ManagedCallbacksTheorems.QuietUntilEnabled | minifilter_fixture_driver/ManagedCallbacks.cpp:48-72 | Once paused a body stays empty until its bit is set again, over any number of steps. |
| ManagedCallbacksTheorems.AnswersAreTrue | minifilter_fixture_driver/ManagedCallbacks.cpp:209-264 | When a request is answered, bit by bit exactly what it asked for is enabled: before or asked for after an enable, before and not asked for after a disable, as before after a hold, both after a release; nothing is draining, the bodies it paused are empty, and its sender owns the control, or nobody after a release. |
| ManagedCallbacksTheorems.LeaseHolds | minifilter_fixture_driver/ManagedCallbacks.cpp:74-94 | An owner is a connected client with its process; without an owner and before the stop both bodies are enabled; a hold is armed only for an owner. |
| ManagedCallbacksTheorems.MasksChangeOnlyIfEntitled | minifilter_fixture_driver/ManagedCallbacks.cpp:74-94 | Masks change only by the holder of g_Control acting for the owner's own request, for its release, or for the stop. |
| ManagedCallbacksTheorems.StopIsFinal | minifilter_fixture_driver/ManagedCallbacks.cpp:376-400 | After ManagedCallbacksStop both masks and both counts are zero for ever, with no owner, hold or thread inside. |
| ManagedCallbacksTheorems.HoldsAreConserved | minifilter_fixture_driver/ManagedCallbacks.cpp:268-340 | Every test hold that was entered is over or held by exactly one thread. |
| ManagedCallbacksTheorems.IdentifiersAreNotReused | minifilter_fixture_driver/ManagedCallbacks.cpp:117-131 | After a disconnection its identifier names no client ever again. |
| ManagedCallbacksTheorems.GenerationTells | minifilter_fixture_driver/ManagedCallbacks.cpp:66-71 | The generation never falls, and while it stands still the committed mask does not change. |
| ManagedCallbacksTheorems.WaitDrains | minifilter_fixture_driver/ManagedCallbacks.cpp:59-65 | A wait for rundown is blocked only by threads that can go on; nobody joins them and each of their steps brings the end nearer. |
| ManagedCallbacksTheorems.ControlEnds | minifilter_fixture_driver/ManagedCallbacks.cpp:48-94 | Every step of the holder of g_Control lowers a bound on the steps it has left, and no other thread raises it. |
| ManagedCallbacksEffects.StepChanges | minifilter_fixture_driver/ManagedCallbacks.cpp:74-386 | What every step changes besides the masks, by cause: the lease is taken by a granted request and given up at the end of a release alone; a release begins for one of five causes and for no other; a hold is armed by its request, taken once by the matching body and process and disarmed by a release or the stop; where each entry point, each reply and each step of the holder of g_Control leads; connections. |
| ManagedCallbacksEffects.ReleaseDrains | minifilter_fixture_driver/ManagedCallbacks.cpp:74-94 | A release restores only after it has disarmed the hold and paused both bodies, and everybody has left them. |
| ManagedCallbacksEffects.MessageDecision | minifilter_fixture_driver/ManagedCallbacks.cpp:198-218 | Which status a message gets, for every sender and state; a refused message changes nothing. |
| ManagedCallbacksTraces.ThreadMeanwhile | minifilter_fixture_driver/ManagedCallbacks.cpp:297-341 | Whatever other threads do, a callback between two sections of RunBody is still where it was. |
| ManagedCallbacksTraces.HolderMeanwhile | minifilter_fixture_driver/ManagedCallbacks.cpp:48-94 | While g_Control is held nobody else changes the masks, the lease, the generation, the closed references or the holder's position. |
| ManagedCallbacksTraces.TraceExtendsRun | minifilter_fixture_driver/ManagedCallbacks.cpp:48-400 | What a procedure did from a state of a run, other threads' steps included, continues that run. |
| ManagedCallbacksThreads.RunBody | minifilter_fixture_driver/ManagedCallbacks.cpp:297-341 | The body runs exactly if its bit is set when it is tested; a body that was entered is left and its reference released. |
| ManagedCallbacksThreads.TestHold | minifilter_fixture_driver/ManagedCallbacks.cpp:268-295 | The hold before a body with its delay. |
| ManagedCallbacksThreads.WaitForRelease | minifilter_fixture_driver/ManagedCallbacks.cpp:61-62 | The wait for a rundown release ends: the callbacks inside run on, nobody joins them, and the last one brings the count to zero. |
| ManagedCallbacksThreads.SwitchOne | minifilter_fixture_driver/ManagedCallbacks.cpp:59-65 | One turn of the loop of SetEnabled: the wait if the body is paused, the restart of its reference only when it is run down. |
| ManagedCallbacksThreads.SetEnabled | minifilter_fixture_driver/ManagedCallbacks.cpp:48-72 | SetEnabled terminates with the desired mask in force, nothing draining, no callback inside or on its way out of a paused body, and the lease unchanged. |
| ManagedCallbacksThreads.ReleaseOwner | minifilter_fixture_driver/ManagedCallbacks.cpp:74-94 | ReleaseOwner terminates with no owner, and both bodies enabled, or disabled if the driver is stopping. |
| ManagedCallbacksThreads.HandleRequest | minifilter_fixture_driver/ManagedCallbacks.cpp:177-266 | A control message: a refused one changes nothing; an accepted one whose reply arrives has bit by bit the masks it asked for in force, nothing draining and paused bodies empty, with the lease taken or released as asked; one whose reply is lost leaves its sender without the lease. |
| ManagedCallbacksThreads.DisconnectClient | minifilter_fixture_driver/ManagedCallbacks.cpp:140-159 | A disconnection: an owner is released, with its pauses taken back, before it leaves the table; afterwards the identifier neither owns nor names anybody. |
| ManagedCallbacksThreads.NotifyExit | minifilter_fixture_driver/ManagedCallbacks.cpp:96-104 | A process exit: an owner is released, and afterwards the process does not own the control. |
| ManagedCallbacksThreads.StopControl | minifilter_fixture_driver/ManagedCallbacks.cpp:376-388 | The stop terminates with no owner, both bodies disabled and no callback left in either. |
| ManagedCallbacksControl.Provider.Query | minifilter_fixture_driver/ManagedCallbacks.cpp:243-252 | What a client may conclude from a query at any moment: a set bit means the next callback gets in, a draining bit that a pause is under way, the counters are the callbacks inside, a body in neither mask has none, and without an owner before the stop both are enabled. |
| ManagedCallbacksControl.RundownReference.Reinitialize | minifilter_fixture_driver/ManagedCallbacks.cpp:63-64 | Initialising a reference again demands that it is closed and run down. |
| ManagedCallbacksControl.Provider.constructor | minifilter_fixture_driver/ManagedCallbacks.cpp:343-353 | The initialised object represents the initial state. |
| ManagedCallbacksControl.Provider.TestHoldBeforeBody | minifilter_fixture_driver/ManagedCallbacks.cpp:268-295 | The hold before a body is taken once, by the armed body and process only. |
| ManagedCallbacksControl.Provider.EnterBody | minifilter_fixture_driver/ManagedCallbacks.cpp:297-321 | The first section of RunBody refines entering: mask test, acquisition, counters and hold in one section. |
| ManagedCallbacksControl.Provider.LeaveBody | minifilter_fixture_driver/ManagedCallbacks.cpp:330-336 | The last section refines leaving. |
| ManagedCallbacksControl.Provider.ReleaseBody | minifilter_fixture_driver/ManagedCallbacks.cpp:337 | The rundown reference is released after the section; its count is above zero. |
| ManagedCallbacksControl.Provider.Mark | minifilter_fixture_driver/ManagedCallbacks.cpp:48-57 | The first section of SetEnabled. |
| ManagedCallbacksControl.Provider.SwitchBody | minifilter_fixture_driver/ManagedCallbacks.cpp:59-65 | Each step of the loop; the precondition of starting a reference again follows from the invariant. |
| ManagedCallbacksControl.Provider.Commit | minifilter_fixture_driver/ManagedCallbacks.cpp:67-71 | The last section; the generation rises exactly if the mask changed. |
| ManagedCallbacksControl.Provider.DisarmHold | minifilter_fixture_driver/ManagedCallbacks.cpp:79-82 | A release disarms the hold first. |
| ManagedCallbacksControl.Provider.Disown | minifilter_fixture_driver/ManagedCallbacks.cpp:85-93 | A release clears the owner last. |
| ManagedCallbacksControl.Provider.Connect | minifilter_fixture_driver/ManagedCallbacks.cpp:106-138 | Refines connection with identifiers that are never used twice. |
| ManagedCallbacksControl.Provider.RemoveClient | minifilter_fixture_driver/ManagedCallbacks.cpp:148-156 | The client leaves the table. |
| ManagedCallbacksControl.Provider.Take | minifilter_fixture_driver/ManagedCallbacks.cpp:217-227 | The lease is taken exactly if it is free. |
| ManagedCallbacksControl.Provider.ArmHold | minifilter_fixture_driver/ManagedCallbacks.cpp:228-236 | A hold request replaces the armed hold. |
| ManagedCallbacksControl.Provider.MarkStopping | minifilter_fixture_driver/ManagedCallbacks.cpp:376-384 | The stop disarms holds and begins the release. |
| Bits.AndOnes | driver/Driver.cpp:43-48 | Masking with a low mask is the remainder by the power of two above it, for words of any width. |
| Bits.AndField | driver/Driver.cpp:43-48 | Masking with a mask of n ones above k zeros takes the n bits from bit k and leaves them in their place. |
| Paging.BaseMask4K | driver/Driver.cpp:43-48 | The driver's 4 KB base mask yields the base of a page or table that the recursive walk divides out. |
| Paging.BaseMask2M | driver/Driver.cpp:43-48 | The same for the 2 MB mask. |
| Paging.BaseMask1G | driver/Driver.cpp:43-48 | The same for the 1 GB mask. |
| Paging.EntryCheckFields | shared/KnLiveDbgPaging.h:8-36 | The masked tests of the shared header accept an entry exactly if it is present, is a leaf only at a leaf level and has its reserved field clear. |
| Paging.CanonicalIsSignExtended | driver/Driver.cpp:973-996 | The canonical test holds exactly for sign-extended addresses, in both paging modes. |
| Paging.WalkPt | driver/Driver.cpp:1485-1508 | The last level of the unrolled walk agrees with the recursive walk and fills the record. |
| Paging.WalkPd | driver/Driver.cpp:1455-1483 | The same for the page directory with its 2 MB leaves. |
| Paging.WalkPdpt | driver/Driver.cpp:1425-1453 | The same for the pointer table with its 1 GB leaves. |
| Paging.WalkPml4 | driver/Driver.cpp:1406-1424 | The same for the fourth level. |
| Paging.WalkPml5 | driver/Driver.cpp:1384-1404 | The same for the fifth level. |
| Paging.TranslateVirtualAddress | driver/Driver.cpp:1324-1508 | The unrolled walk has the status and result of the recursive radix walk of depth 4 or 5 behind the same checks, reads the same entries, records where it read them and what, and translates the whole request or up to the end of the page. |
| PagingTheorems.ReadsStayInTables | driver/Driver.cpp:1384-1486 | Every entry read lies inside its table's page, at the place that the nine bits of the address for its level say, and there are at most as many reads as levels. |
| PagingTheorems.ReadsDescend | driver/Driver.cpp:1384-1486 | Each table after the first is the one the entry read before it points to. |
| PagingTheorems.LastReadIsLeaf | driver/Driver.cpp:1439-1508 | A successful walk ends at its leaf, after exactly the levels above it. |
| PagingTheorems.WalkEndsWithReads | driver/Driver.cpp:1384-1508 | The walk reads on exactly while the entry is present and points to a table, and its outcome is that of the last entry read. |
| PagingTheorems.LeafMaskDropsOnlyAttributes | shared/KnLiveDbgPaging.h:8-36 | A present leaf entry is accepted if and only if the base mask drops nothing but attribute bits and, in a large leaf, the PAT bit. |
| PagingTheorems.IndicesDetermineBlock | driver/Driver.cpp:1384-1411 | Canonical addresses with the same indices from the top level down lie in the same block: the walk tells pages apart. |
| PagingTheorems.SpanFits | driver/Driver.cpp:279-295 | The span that a translation returns does not wrap around. |
| PagingTheorems.TranslationIsLinear | driver/Driver.cpp:1324-1508 | For every k inside the returned span, translating k bytes further on succeeds with the physical address k bytes further on, the same page size and the rest of the span. |
| PagingTheorems.TranslationIsBounded | driver/Driver.cpp:1439-1508 | The span is not empty, stays in one page, keeps the offset modulo the page size, lies below 2^52, and is the whole request or reaches the end of the page. |
| PagingTheorems.TranslationDecision | driver/Driver.cpp:1335-1508 | For every input: which request gets which error, and otherwise the page size, base and length that the last entry of the walk gives, in terms of its bits. |
| TimelineRing.NormalizeCapacity | driver/Driver.cpp:407-426 | The allowed capacity nearest to the one asked for, or the default for none. |
| TimelineRing.Timeline.PushEvent | driver/Driver.cpp:443-491 | A thread event is dropped and counted exactly from three quarters full on; any other event, and a thread event before that, is appended with the next number, and pushes out and counts the oldest one exactly if the buffer is full; the circular buffer refines the plain queue's push. |
| TimelineRing.Timeline.Store | driver/Driver.cpp:466-487 | The write at the head keeps the newest events in order and counts what it displaced. |
| TimelineRing.Written | driver/Driver.cpp:466-487 | Writing at the head shifts the window of slots by one and widens it unless it is full. |
| TimelineRing.Timeline.ClearLocked | driver/Driver.cpp:493-501 | Clearing empties the queue, the drop count and the numbering. |
| TimelineRing.Timeline.EnsureRing | driver/Driver.cpp:503-553 | A ring of the right size is cleared, another is replaced by an empty one, a failed allocation changes nothing. |
| TimelineRing.Timeline.Copy | driver/Driver.cpp:1769-1780 | The copy loop delivers the oldest events in order, across the wrap. |
| TimelineRing.Timeline.DrainTo | driver/Driver.cpp:1751-1787 | A drain delivers the oldest events, as many as are there or as may be asked for, removes exactly those and leaves the rest of the caller's buffer and the counts. |
| TimelineRing.PerformConsistent | driver/Driver.cpp:443-553 | The account of taken, drained, buffered, dropped and displaced events is consistent after every run of pushes, drains, clears and resizes. |
| TimelineRing.WindowIsNewest | driver/Driver.cpp:465-487 | The buffer holds exactly the newest events taken, numbered without a gap up to the next number. |
| TimelineRing.OfferedIsAccountedFor | driver/Driver.cpp:459-487 | Since the last clear, offered = drained + buffered + dropped. |
| TimelineRing.DrainsAreInOrder | driver/Driver.cpp:1764-1787 | Drained records come in rising sequence and each is the record that was taken under its number. |
| TimelineRing.TakenAsOffered | driver/Driver.cpp:467-487 | The k-th record taken since the last clear has the kind and payload of the k-th accepted push, and the number k. |
| TimelineRing.DrainsEmpty | driver/Driver.cpp:1764-1787 | After any run, drains of n events take the oldest n at a time and lose none, and enough of them empty the buffer. |
| TimelineRing.ThreadNeverOverwrites | driver/Driver.cpp:455-463 | A thread event is appended or dropped but never displaces anything. |
| TimelineRing.ReserveHolds | driver/Driver.cpp:455-487 | From at most three quarters full, rounded up, no push displaces anything while at most a quarter of the capacity is pushed of important events, in any interleaving with thread events and drains. |
| TimelineRing.ReserveIsTight | driver/Driver.cpp:455-487 | One important event more displaces one, for every capacity. |
| ControllerLease.ApplyKeeps | driver/Driver.cpp:556-628 | Every action of creates, closes, requests and registration keeps the invariant. |
| ControllerLease.RunKeeps | driver/Driver.cpp:1104-1169 | The invariant holds in every state of every run. |
| ControllerLease.StepChanges | driver/Driver.cpp:556-628 | What every step changes, by cause: who enters and leaves, when the door closes and opens, which registration sets and which turn clears each callback, when collecting begins and ends, and where START, STOP and each registration lead. |
| ControllerLease.CountIsContexts | driver/Driver.cpp:1104-1136 | The open count is the number of open contexts, all of them the owner's, and there is an owner exactly while there are contexts or the last close runs. |
| ControllerLease.CloseCountsDown | driver/Driver.cpp:1138-1169 | Every close counts down by one, and exactly the one that reaches zero starts the closing phase. |
| ControllerLease.NobodyEntersWhileClosing | driver/Driver.cpp:1117-1130 | A create succeeds exactly if nothing is closing and the owner is absent or the same process. |
| ControllerLease.RegistrationIsWhole | driver/Driver.cpp:578-628 | Whenever the control lock is free, all three callbacks are registered and collection is on, or none is and it is off, whatever failed before. |
| ControllerLease.NeverPartlyRegistered | driver/Driver.cpp:592-598 | The branch for a partial registration is never taken. |
| ControllerLease.NoOwnerNoCollector | driver/Driver.cpp:3589-3616 | Without an owner nothing is registered, enabled, in flight or notified. |
| ControllerLease.HandoverIsSilent | driver/Driver.cpp:3600-3614 | Between two owners there is a moment without any callback. |
| ControllerLease.LockIsReturned | driver/Driver.cpp:556-628 | Whoever holds the control lock always has a step, each of its steps lowers a bound, and no other thread moves it. |
| ControllerLease.ClosingEnds | driver/Driver.cpp:3589-3616 | The closing phase ends: the closer never waits for a request, always has a step, and at most six are left, whatever else runs. |
| ControllerLease.Driver.UnregisterCallbacks | driver/Driver.cpp:556-575 | The method's assignments are the four steps of the protocol's unregistration, after which nothing is registered or collecting. |
| ControllerLease.Driver.RegisterCallbacks | driver/Driver.cpp:578-628 | The method's course is a path of the protocol that frees the lock; success means everything is registered and collecting, failure that nothing is registered, and it succeeds exactly if it was complete or the kernel grants all three. |
| ControllerLease.Driver.AcquireController | driver/Driver.cpp:1104-1136 | Refines the create: busy exactly if closing or owned by another process, and otherwise the process owns one context more and the context is marked as owning. |
| ControllerLease.Driver.ReleaseController | driver/Driver.cpp:1138-1169 | Refines the close, and tells whether it was the last, which closes the door. |
| ControllerLease.Driver.OpenDoor | driver/Driver.cpp:3611-3614 | New owners are let in again. |
| Coverage.Sorted | tools/measure-kmon-image-coverage.py:14 | Sorting gives the same ranges in order. |
| Coverage.Merge | tools/measure-kmon-image-coverage.py:12-18 | Merging succeeds exactly if every range is non-empty and within the 64-bit address space, and gives the sorted, disjoint, non-touching list of the same addresses. |
| Coverage.CanonicalIsUnique | tools/measure-kmon-image-coverage.py:12-18 | A set of addresses has only one such list, so merging forgets order, overlap and repetition and nothing else. |
| Coverage.SizeAdds | tools/measure-kmon-image-coverage.py:19 | The total length of a list is the sum of the lengths of its ranges. |
| Coverage.SizeCountsDisjoint | tools/measure-kmon-image-coverage.py:19 | The total length is at least the number of addresses, and equal if and only if no two ranges overlap. |
| Coverage.CanonicalSize | tools/measure-kmon-image-coverage.py:19 | The size of a merged list is the number of its addresses. |
| Coverage.Cohort | tools/measure-kmon-image-coverage.py:73-74 | The cohort is exactly the processes that every run identified, neither watched nor the kernel. |
| Coverage.SharedSize | tools/measure-kmon-image-coverage.py:81-82 | For any accepted lists: the merged sum counts the union, and the two sizes less it exceed the shared addresses by exactly what each list counts twice within itself. |
| Coverage.OverlapCountsTwice | tools/measure-kmon-image-coverage.py:81-82 | The ranges [0,2) and [1,3) against none report one shared address where there is none. |
| Coverage.TallyStep | tools/measure-kmon-image-coverage.py:80-82 | One more process adds its addresses and shared addresses to the totals, and its excess if a list of it overlaps itself. |
| Coverage.Tally | tools/measure-kmon-image-coverage.py:79-82 | In any order of traversal the loop fails exactly if a range is unacceptable, and otherwise each total is the number of addresses if and only if no list of that run overlaps itself. |
| Coverage.MeasuresSets | tools/measure-kmon-image-coverage.py:85-86 | The reported differences, union, symmetric difference and ratio are those of the two sets; the ratio lies between 0 and 1, is 1 exactly for equal sets and absent exactly for empty ones. |
| Coverage.Compare | tools/measure-kmon-image-coverage.py:76-86 | For every input: the cohort is the given one or what both runs identified; a process that one of them did not identify, or an unacceptable range, is an error; otherwise the union is right, every other figure is off by exactly the two excesses, and the report measures the two address sets if and only if no list of the cohort overlaps itself. |

## Left out

- The timed test gates of the pended-I/O provider and their counters: a delay only lengthens an interval in which every interleaving is already considered.
- Counters that only report (owner restores, topology disarms, failed allocations, refused queues, drained posts, skipped or rejected lowers, watcher and query counters): nothing else reads them.
- Decide: takes the outcome of the worker's wait as a parameter, so any result of the cancellable wait, including an early one, is covered; the polling loop of that wait is not modelled.
- Which of several locals a thread drops first: locals are a multiset per process, and a process is identified with its object.
- The counter of instance contexts is modelled as a number; their own reference counts, and the release of an instance's context by an operation, are not.
- Validation of request fields in both message functions beyond the bound of a batch, and copying to and from user memory beyond whether a reply arrives.
- Others: two threads at the same place of the managed control are told apart only by their number.
- HandleMessage: starts when the target of an arm has been looked up and g_Control taken; the procedures that hold g_Control start with it just taken, only the worker's wait for it is put together.
- WaitForControl: covers the schedules in which the thread that holds g_Control runs its remaining sections and nobody else takes the lock before the worker; the lock itself promises no order. RunStopped and StartStopped inherit this.
- RunStopped: see WaitForControl; StopDrains and StopNeverBlocks speak of every schedule.
- StartStopped: see WaitForControl.
- InstanceSetup: the count of an instance's context, taken and given back, and the count of finished teardowns are actions of the protocol only.
- Queue: joins queueing with the callback's return of PENDING or MORE_PROCESSING_REQUIRED, as Filter Manager accepts a completion that comes before the return.
- Connect: does not say which of the sixteen slots a client gets; the client table is a map with at most sixteen entries.
- In the managed control, process identifiers of held callbacks stand for the requestor; entered and skipped counts and the count of automatic restores are not modelled.
- PushEvent: does not model the wrap of the 64-bit sequence and drop counters; counters are unbounded, here and in the status blocks.
- TranslateVirtualAddress: reads memory that does not change during the walk; a read gives a word or a failure. The large-page and address-space flags are three booleans and the record's size field is omitted.
- The enabled flag is read before the timeline lock is taken: an event counts as offered once it reaches the lock with a ring present.
- DrainTo: does not zero the caller's buffer before the copy; record fields other than kind and sequence are one payload.
- The dispatch interposition that the last close disarms, its ring, and the driver's unload.
- The other device requests, logging, and the parsing and measuring half of the coverage tool, with its counts of fully compared images and of processes without any compared byte.
- Compare: reports the exact ratio where Python's is a floating-point quotient.
