/**
The next section of a thread: from where a thread stands after one of its sections, the protocol step of its next
section is enabled, and where that step leads.
*/
module PendingIoSections {

  import opened Options
  import opened PendingIo
  import opened PendingIoInvariant
  import opened PendingIoRuns
  import opened PendingIoOrder
  import opened PendingIoTraces

  /** One section of its own took the thread from `s` to `t`. */
  ghost predicate Took(me: Thread, s: State, l: Label, t: State) {
    Enabled(s, l) && t == Apply(s, l) && Ran(me, s, [Mine(l)], t, [l])
  }

  /** The thread that runs FinishLogical. */
  function RunnerOf(me: Thread): Runner {
    if me.Worker? then InWorker else InCallback
  }

  lemma Takes(me: Thread, s: State, l: Label)
    requires Invariant(s) && Enabled(s, l) && Belongs(me, s, l)
    ensures Took(me, s, l, Apply(s, l))
  {
    hide Invariant, Enabled, Apply, Belongs, Ran;
    Own(me, s, l);
  }

  lemma OperationFacts(s: State, i: OperationId)
    requires Invariant(s) && i in s.ops
    ensures Owned(s, i, s.ops[i]) && s.ops[i].instance in s.instances
    ensures Outstanding(s.ops[i].stage, false) || Outstanding(s.ops[i].stage, true) ==> s.ops[i].data.Some?
  {
    hide Lists, WorkerFits, ArmFits, LeaseFits, WatchFits, EventFits, Balanced, Bounded, Referenced, Ticketed, Claimed,
      Owned, Swept;
    Facts(s, i);
  }

  /** A local's reference is dropped. */
  lemma DereferenceTaken(me: Thread, s: State, p: Process)
    requires Invariant(s) && p in s.locals
    ensures Took(me, s, LDereference(p), Dereference(s, p))
    ensures var t := Dereference(s, p);
            && t.locals == s.locals - multiset{p} && t.worker == s.worker && t.control == s.control
            && t.stopping == s.stopping
  {
    hide Invariant, Took, CallbackEnabled, CallbackApply, WorkerEnabled, WorkerApply, ControlEnabled, ControlApply;
    Takes(me, s, LDereference(p));
  }

  // ---------------------------------------------------------------------------------------------
  // FinishLogical and DropReference
  // ---------------------------------------------------------------------------------------------

  /** The steps of FinishLogical and DropReference belong to the thread that stands there. */
  lemma FinishBelongs(me: Thread, s: State, i: OperationId)
    requires Stands(me, s, i) && Owned(s, i, s.ops[i])
    ensures RunsIn(s.ops[i].stage, RunnerOf(me)) ==>
              Belongs(me, s, LSwap(i)) && Belongs(me, s, LCount(i)) && Belongs(me, s, LDropLogical(i))
    ensures (me.Worker? ==> s.worker == Freeing(i)) ==> Belongs(me, s, LUnlink(i)) && Belongs(me, s, LFree(i))
  {
  }

  lemma SwapNext(me: Thread, s: State, i: OperationId)
    requires Stands(me, s, i) && s.ops[i].stage == FinishSwap(RunnerOf(me)) && Owned(s, i, s.ops[i])
    ensures !s.ops[i].logicalReleased
    ensures var t := SwapReleased(s, i);
            i in t.ops && t.ops[i].stage == FinishCount(RunnerOf(me), true) && Stands(me, t, i) && t.worker == s.worker
  {
  }

  /** The swap finds the share unreleased, so the count takes its first branch. */
  lemma SwapTaken(me: Thread, s: State, i: OperationId)
    requires Invariant(s) && Stands(me, s, i) && s.ops[i].stage == FinishSwap(RunnerOf(me))
    ensures Took(me, s, LSwap(i), SwapReleased(s, i)) && !s.ops[i].logicalReleased
    ensures var t := SwapReleased(s, i);
            i in t.ops && t.ops[i].stage == FinishCount(RunnerOf(me), true) && Stands(me, t, i) && t.worker == s.worker
  {
    hide Invariant, Took, Owned, Belongs, SwapReleased, WorkerEnabled, WorkerApply, ControlEnabled, ControlApply,
      SetupEnabled, SetupApply;
    OperationFacts(s, i);
    SwapNext(me, s, i);
    FinishBelongs(me, s, i);
    Takes(me, s, LSwap(i));
  }

  lemma CountNext(me: Thread, s: State, i: OperationId)
    requires Stands(me, s, i) && s.ops[i].stage == FinishCount(RunnerOf(me), true)
    ensures var t := CountReleased(s, i);
            i in t.ops && t.ops[i].stage == FinishDrop(RunnerOf(me)) && Stands(me, t, i) && t.worker == s.worker
  {
  }

  lemma CountTaken(me: Thread, s: State, i: OperationId)
    requires Invariant(s) && Stands(me, s, i) && s.ops[i].stage == FinishCount(RunnerOf(me), true)
    ensures Took(me, s, LCount(i), CountReleased(s, i))
    ensures var t := CountReleased(s, i);
            i in t.ops && t.ops[i].stage == FinishDrop(RunnerOf(me)) && Stands(me, t, i) && t.worker == s.worker
  {
    hide Invariant, Took, Owned, Belongs, CountReleased, WorkerEnabled, WorkerApply, ControlEnabled, ControlApply,
      SetupEnabled, SetupApply;
    OperationFacts(s, i);
    CountNext(me, s, i);
    FinishBelongs(me, s, i);
    Takes(me, s, LCount(i));
  }

  /** After a drop: whoever reads zero is the one to unlink and free. */
  predicate Dropped(me: Thread, t: State, i: OperationId) {
    i in t.ops && (t.ops[i].references == 0 ==> t.ops[i].life == Unlinking && Stands(me, t, i))
  }

  lemma DropLogicalNext(me: Thread, s: State, i: OperationId)
    requires Stands(me, s, i) && s.ops[i].stage == FinishDrop(RunnerOf(me)) && Owned(s, i, s.ops[i])
    ensures s.ops[i].life == Linked && Dropped(me, DropLogical(s, i), i)
    ensures var t := DropLogical(s, i);
            i in t.ops && t.ops[i].stage == Done && t.worker == s.worker && (me.Worker? ==> t.ops[i].references > 0)
  {
  }

  /** The logical share goes; the worker still has its own, so only a callback can be the last. */
  lemma DropLogicalTaken(me: Thread, s: State, i: OperationId)
    requires Invariant(s) && Stands(me, s, i) && s.ops[i].stage == FinishDrop(RunnerOf(me))
    ensures Took(me, s, LDropLogical(i), DropLogical(s, i)) && s.ops[i].life == Linked
    ensures var t := DropLogical(s, i);
            && Dropped(me, t, i) && i in t.ops && t.ops[i].stage == Done && t.worker == s.worker
            && (me.Worker? ==> t.ops[i].references > 0)
  {
    hide Invariant, Took, Owned, Belongs, Dropped, DropLogical, WorkerEnabled, WorkerApply, ControlEnabled,
      ControlApply, SetupEnabled, SetupApply;
    OperationFacts(s, i);
    DropLogicalNext(me, s, i);
    FinishBelongs(me, s, i);
    Takes(me, s, LDropLogical(i));
  }

  lemma UnlinkTaken(me: Thread, s: State, i: OperationId)
    requires Invariant(s) && Stands(me, s, i) && s.ops[i].life == Unlinking && (me.Worker? ==> s.worker == Freeing(i))
    ensures Took(me, s, LUnlink(i), Unlink(s, i))
    ensures var t := Unlink(s, i); i in t.ops && t.ops[i].life == Unlinked && Stands(me, t, i) && t.worker == s.worker
  {
    hide Invariant, Took, Belongs, Without, WorkerEnabled, WorkerApply, ControlEnabled, ControlApply, SetupEnabled,
      SetupApply;
    OperationFacts(s, i);
    FinishBelongs(me, s, i);
    Takes(me, s, LUnlink(i));
  }

  /** A context that is freed is on neither list. */
  lemma FreeTaken(me: Thread, s: State, i: OperationId)
    requires Invariant(s) && Stands(me, s, i) && s.ops[i].life == Unlinked && (me.Worker? ==> s.worker == Freeing(i))
    ensures Took(me, s, LFree(i), FreeOperation(s, i)) && i !in s.work
    ensures i !in FreeOperation(s, i).ops && FreeOperation(s, i).worker == s.worker
  {
    hide Invariant, Took, Belongs, WorkerEnabled, WorkerApply, ControlEnabled, ControlApply, SetupEnabled, SetupApply;
    OperationFacts(s, i);
    UnlinkedUnqueued(s, i);
    FinishBelongs(me, s, i);
    Takes(me, s, LFree(i));
  }

  lemma UnlinkedUnqueued(s: State, i: OperationId)
    requires Invariant(s) && i in s.ops && s.ops[i].life == Unlinked && Owned(s, i, s.ops[i])
    ensures i !in s.work
  {
    hide WorkerFits, Operations, ArmFits, LeaseFits, WatchFits, EventFits, Balanced, Bounded, Referenced, Ticketed,
      Claimed;
  }

  // ---------------------------------------------------------------------------------------------
  // The callbacks
  // ---------------------------------------------------------------------------------------------

  lemma CreatedIsNew(s: State)
    requires Invariant(s)
    ensures s.ledger.created !in s.ops
  {
    hide WorkerFits, Operations, ArmFits, LeaseFits, WatchFits, EventFits, Balanced, Bounded, Referenced, Ticketed,
      Claimed;
  }

  /** The admission published an operation, in the stage its mode says. */
  predicate Published(t: State, i: OperationId) {
    i in t.ops ==> t.ops[i].stage == FirstStage(t.ops[i].lower, t.ops[i].mode, t.ops[i].read)
                   && Stands(Callback(i), t, i)
  }

  lemma PublishNext(s: State, o: Operation, granted: bool)
    requires s.ledger.created !in s.ops && o.stage == FirstStage(o.lower, o.mode, o.read)
    ensures Published(Publish(s, o, granted), s.ledger.created)
  {
  }

  lemma AdmitNext(s: State, data: DataId, instance: InstanceId, p: Process, file: FileId, read: bool, granted: bool)
    requires s.ledger.created !in s.ops && instance in s.instances
    ensures Published(Admit(s, data, instance, p, file, read, granted), s.ledger.created)
  {
    hide Eligible, AdmitsUpper, AdmitsLower, Publish, FirstStage;
    if AdmitsUpper(s, instance, p, read) {
      PublishNext(Consume(s, p), NewOperation(instance, false, file, p, data, s.armedGeneration, s.owner, s.armedMode,
                                              read), granted && s.armedMode != FailAlloc);
    } else if AdmitsLower(s, instance, read) && FindPair(s, s.order, data, file, p).Some? {
      var v := FindPair(s, s.order, data, file, p).value;
      PublishNext(Claim(s, v, p),
                  NewOperation(instance, true, file, p, data, s.ops[v].generation, s.ops[v].owner,
                               if s.ops[v].mode == FailReadLock then FailReadLock else Pre, read), granted);
    }
  }

  /** The admission: a new operation is named by the number created so far and stands at its first stage. */
  lemma AdmitTaken(me: Thread, s: State, data: DataId, instance: InstanceId, p: Process, file: FileId, read: bool,
                   granted: bool)
    requires Invariant(s) && instance in s.instances && DataIdle(s, data)
    requires me == Callback(s.ledger.created) || me == Visitor
    ensures var i, t := s.ledger.created, Admit(s, data, instance, p, file, read, granted);
            i !in s.ops && Took(me, s, LAdmit(data, instance, p, file, read, granted), t) && Published(t, i)
  {
    hide Invariant, Took, Admit, DataIdle, Published, WorkerEnabled, WorkerApply, ControlEnabled, ControlApply,
      SetupEnabled, SetupApply;
    CreatedIsNew(s);
    AdmitNext(s, data, instance, p, file, read, granted);
    Takes(me, s, LAdmit(data, instance, p, file, read, granted));
  }

  lemma LockTaken(s: State, i: OperationId, locked: bool)
    requires Invariant(s) && i in s.ops && s.ops[i].stage == LockBuffer
    ensures Took(Callback(i), s, LLockBuffer(i, locked), LockUserBuffer(s, i, locked))
    ensures var t, o := LockUserBuffer(s, i, locked), s.ops[i];
            && i in t.ops && Stands(Callback(i), t, i)
            && t.ops[i].stage == (if locked && o.mode != FailReadLock then TryPreQueue else FinishSwap(InCallback))
  {
    hide Invariant, Took, WorkerEnabled, WorkerApply, ControlEnabled, ControlApply, SetupEnabled, SetupApply;
    Takes(Callback(i), s, LLockBuffer(i, locked));
  }

  /** Where the queue section leaves the operation. */
  function AfterQueue(s: State, i: OperationId, post: bool): Stage
    requires i in s.ops && s.ops[i].instance in s.instances
  {
    if Refused(s, s.ops[i], post) then (if post then FinishSwap(InCallback) else AwaitPost)
    else if post then PostQueued
    else PreQueued
  }

  lemma RefusedNext(s: State, i: OperationId, post: bool)
    requires i in s.ops && s.ops[i].instance in s.instances && Refused(s, s.ops[i], post)
    ensures var t := Queue(s, i, post);
            && i in t.ops && t.ops[i].stage == AfterQueue(s, i, post) && (post ==> Stands(Callback(i), t, i))
  {
    hide Refused;
  }

  lemma AcceptedNext(s: State, i: OperationId, post: bool)
    requires i in s.ops && s.ops[i].instance in s.instances && !Refused(s, s.ops[i], post)
    ensures var t := Queue(s, i, post); i in t.ops && t.ops[i].stage == AfterQueue(s, i, post)
  {
    hide Refused;
  }

  lemma QueueTaken(s: State, i: OperationId, post: bool)
    requires Invariant(s) && i in s.ops && s.ops[i].stage == (if post then TryPostQueue else TryPreQueue)
    ensures s.ops[i].instance in s.instances && Took(Callback(i), s, LQueue(i, post), Queue(s, i, post))
    ensures var t := Queue(s, i, post);
            && i in t.ops && t.ops[i].stage == AfterQueue(s, i, post)
            && (post && Refused(s, s.ops[i], post) ==> Stands(Callback(i), t, i))
  {
    hide Invariant, Took, Refused, Queue, Stands, AfterQueue, WorkerEnabled, WorkerApply, ControlEnabled, ControlApply,
      SetupEnabled, SetupApply;
    OperationFacts(s, i);
    Takes(Callback(i), s, LQueue(i, post));
    if Refused(s, s.ops[i], post) {
      RefusedNext(s, i, post);
    } else {
      AcceptedNext(s, i, post);
    }
  }

  lemma PassTaken(s: State, i: OperationId)
    requires Invariant(s) && i in s.ops && s.ops[i].stage == PassThrough
    ensures Took(Callback(i), s, LPass(i), PassToPost(s, i))
    ensures i in PassToPost(s, i).ops && PassToPost(s, i).ops[i].stage == AwaitPost
  {
    hide Invariant, Took, WorkerEnabled, WorkerApply, ControlEnabled, ControlApply, SetupEnabled, SetupApply;
    Takes(Callback(i), s, LPass(i));
  }

  lemma EnterTaken(s: State, i: OperationId, draining: bool)
    requires Invariant(s) && i in s.ops && s.ops[i].stage == AwaitPost && DataIdle(s, s.ops[i].preIdentity)
    ensures Took(Callback(i), s, LEnterPost(i, draining), EnterPost(s, i, draining))
    ensures var t := EnterPost(s, i, draining);
            && i in t.ops && Stands(Callback(i), t, i)
            && t.ops[i].stage == (if !draining && PostMode(s.ops[i].mode) then TryPostQueue else FinishSwap(InCallback))
  {
    hide Invariant, Took, DataIdle, WorkerEnabled, WorkerApply, ControlEnabled, ControlApply, SetupEnabled, SetupApply;
    Takes(Callback(i), s, LEnterPost(i, draining));
  }

  // ---------------------------------------------------------------------------------------------
  // The worker
  // ---------------------------------------------------------------------------------------------

  lemma WorkerTakes(s: State, l: Label)
    requires Invariant(s) && WorkerCode(l) && WorkerEnabled(s, l)
    ensures Took(Worker, s, l, WorkerApply(s, l))
  {
    hide Invariant, Took, WorkerEnabled, WorkerApply, ControlEnabled, ControlApply, SetupEnabled, SetupApply,
      CallbackEnabled, CallbackApply;
    Takes(Worker, s, l);
  }

  /** The sections between two work items. */
  lemma WorkerTaken(s: State, l: Label)
    requires Invariant(s)
    ensures match l
            case LStart => s.worker == Starting ==> Took(Worker, s, l, s.(worker := Watch))
            case LSnapshot =>
              (s.worker == Watch && s.control == Free ==>
                 Took(Worker, s, l, Snapshot(s))
                 && Snapshot(s).worker == match s.target case None => Sample case Some(p) => Probing(p, s.armEpoch))
            case LVerdict(exited) =>
              (s.worker.Probing? ==> Took(Worker, s, l, Verdict(s, exited)) && Verdict(s, exited).worker == Sample)
            case LSample => s.worker == Sample ==> Took(Worker, s, l, s.(worker := Waiting(s.target.Some?)))
            case LWait(timedOut) =>
              (s.worker.Waiting? && (if timedOut then s.worker.armed else s.workAvailable) ==>
                 Took(Worker, s, l, WorkerWait(s, timedOut)) && WorkerWait(s, timedOut).worker == Draining)
            case LFinished =>
              (s.worker.Finishing? && s.worker.op in s.ops && s.ops[s.worker.op].stage == Done ==>
                 Took(Worker, s, l, s.(worker := Dropping(s.worker.op))))
            case LFreed =>
              s.worker.Freeing? && s.worker.op !in s.ops ==> Took(Worker, s, l, s.(worker := Tail))
            case LTail => s.worker == Tail ==> Took(Worker, s, l, WorkerTail(s)) && WorkerTail(s).worker == Draining
            case _ => true
  {
    hide Invariant, Took, WakeAll;
    if WorkerCode(l) && WorkerEnabled(s, l) {
      WorkerTakes(s, l);
    }
  }

  lemma PopTaken(s: State)
    requires Invariant(s) && s.worker == Draining
    ensures s.work != [] ==> s.work[0] in s.ops
    ensures Took(Worker, s, LPop, Pop(s))
    ensures var t := Pop(s);
            if s.work == [] then t.worker == if s.stopping then Terminated else Watch
            else var i := s.work[0]; i in t.ops && t.worker == Holding(i, s.ops[i].postWork)
  {
    hide Invariant, Took, Snapshot, Verdict, WorkerWait, Decide, Complete, DropWorker, WorkerTail;
    HeldFacts(s);
    WorkerTakes(s, LPop);
  }

  lemma DecideTaken(s: State, waited: bool, i: OperationId, post: bool)
    requires Invariant(s) && s.worker == Holding(i, post)
    ensures i in s.ops && s.ops[i].instance in s.instances && Took(Worker, s, LDecide(waited), Decide(s, waited))
    ensures var t := Decide(s, waited);
            && i in t.ops
            && t.worker == Completing(i, post, Cancels(s, s.ops[i], post, waited))
  {
    hide Invariant, Took, Cancels, Snapshot, Verdict, WorkerWait, Pop, Complete, DropWorker, WorkerTail;
    HeldFacts(s);
    WorkerTakes(s, LDecide(waited));
  }

  lemma CompleteTaken(s: State, i: OperationId, post: bool, cancel: bool)
    requires Invariant(s) && s.worker == Completing(i, post, cancel)
    ensures i in s.ops && s.ops[i].data.Some? && Took(Worker, s, LComplete, Complete(s))
    ensures var t := Complete(s);
            && i in t.ops && t.worker == (if post || cancel then Finishing(i) else Dropping(i))
            && (post || cancel ==> t.ops[i].stage == FinishSwap(InWorker) && Stands(Worker, t, i))
  {
    hide Invariant, Took, Snapshot, Verdict, WorkerWait, Pop, Decide, DropWorker, WorkerTail;
    HeldFacts(s);
    WorkerTakes(s, LComplete);
  }

  lemma DropWorkerNext(s: State, i: OperationId)
    requires s.worker == Dropping(i) && i in s.ops && Owned(s, i, s.ops[i])
    ensures s.ops[i].life == Linked && Dropped(Worker, DropWorker(s), i)
    ensures var t := DropWorker(s); t.worker == if t.ops[i].references == 0 then Freeing(i) else Tail
  {
  }

  lemma DropWorkerTaken(s: State, i: OperationId)
    requires Invariant(s) && s.worker == Dropping(i)
    ensures i in s.ops && Took(Worker, s, LDropWorker, DropWorker(s)) && s.ops[i].life == Linked
    ensures var t := DropWorker(s);
            Dropped(Worker, t, i) && i in t.ops && t.worker == if t.ops[i].references == 0 then Freeing(i) else Tail
  {
    hide Invariant, Took, WorkerFits, Owned, Snapshot, Verdict, WorkerWait, Pop, Decide, Complete, DropWorker,
      WorkerTail;
    HeldFacts(s);
    OperationFacts(s, i);
    DropWorkerNext(s, i);
    WorkerTakes(s, LDropWorker);
  }

  // ---------------------------------------------------------------------------------------------
  // The holder of g_Control
  // ---------------------------------------------------------------------------------------------

  lemma HolderTakes(s: State, l: Label)
    requires Invariant(s) && ControlCode(l) && ControlEnabled(s, l) && !l.LConnect?
    ensures Took(Holder, s, l, ControlApply(s, l))
  {
    hide Invariant, Took, WorkerEnabled, WorkerApply, ControlApply, SetupEnabled, SetupApply, CallbackEnabled,
      CallbackApply, ValidRequest;
    Takes(Holder, s, l);
  }

  /** Where g_Control goes with each of the sections under it. */
  lemma HolderTaken(s: State, l: Label)
    requires Invariant(s)
    ensures match l
            case LStop =>
              s.control == Free ==> Took(Holder, s, l, StopMark(s)) && StopMark(s).control == StopReleasing
            case LStopRelease =>
              (s.control == StopReleasing ==>
                 Took(Holder, s, l, StopRelease(s)) && StopRelease(s).control == Free && StopRelease(s).owner == 0)
            case LDisconnect(id) =>
              (s.control == Free && id != 0 ==>
                 Took(Holder, s, l, DisconnectRelease(s, id)) && DisconnectRelease(s, id).control == Disconnecting(id))
            case LDisconnectRemove =>
              (s.control.Disconnecting? ==>
                 && Took(Holder, s, l, DisconnectRemove(s)) && DisconnectRemove(s).control == Free
                 && s.control.client !in DisconnectRemove(s).clients)
            case LExit(p) =>
              s.control == Free ==> Took(Holder, s, l, ExitRelease(s, p)) && ExitRelease(s, p).control == Exiting(p)
            case LExitSweep =>
              (s.control.Exiting? ==>
                 && Took(Holder, s, l, ExitSweep(s)) && ExitSweep(s).control == Free
                 && ExitSweep(s).target != Some(s.control.process) && ExitSweep(s).ownerProcess == s.ownerProcess)
            case LMessageRelease =>
              (s.control.MessageReleasing? ==>
                 && Took(Holder, s, l, MessageRelease(s))
                 && MessageRelease(s).control == Replying(s.control.client))
            case LReply(copied) =>
              s.control.Replying? ==> Took(Holder, s, l, Reply(s, copied)) && Reply(s, copied).control == Free
            case _ => true
  {
    hide Invariant, Took, WakeAll;
    if ControlCode(l) && ControlEnabled(s, l) && !l.LConnect? {
      HolderTakes(s, l);
    }
  }

  lemma ExitingOwner(s: State, p: Process)
    requires Invariant(s) && s.control == Exiting(p)
    ensures s.ownerProcess != Some(p)
  {
    hide Lists, WorkerFits, Operations, ArmFits, WatchFits, EventFits, Balanced, Bounded, Referenced, Ticketed,
      Claimed;
  }

  /** Who may send this request: the target of an arm is one that the sender has looked up. */
  predicate Sendable(s: State, id: ClientId, action: Action) {
    s.control == Free && id != 0 && ValidRequest(action) && (action.Arm? ==> action.target in s.locals)
  }

  lemma MessageTaken(s: State, id: ClientId, caller: Process, action: Action)
    requires Invariant(s) && Sendable(s, id, action)
    ensures Took(Holder, s, LMessage(id, caller, action), Message(s, id, caller, action))
    ensures Message(s, id, caller, action).control ==
            if MessageStatus(s, id, caller, action) != Success then Free
            else if action.Release? then MessageReleasing(id)
            else Replying(id)
  {
    hide Invariant, Took, WakeAll, MessageStatus, ValidRequest;
    HolderTakes(s, LMessage(id, caller, action));
  }

  // ---------------------------------------------------------------------------------------------
  // Instances
  // ---------------------------------------------------------------------------------------------

  lemma InstanceTaken(s: State, i: InstanceId, lower: bool)
    requires Invariant(s)
    ensures i !in s.instances ==> Took(Visitor, s, LSetup(i, lower), SetupInstance(s, i, lower))
    ensures i in s.instances ==> Took(Visitor, s, LTeardown(i), TeardownInstance(s, i))
  {
    hide Invariant, Took, SetupInstance, TeardownInstance, CallbackEnabled, CallbackApply, WorkerEnabled, WorkerApply,
      ControlEnabled, ControlApply;
    if i in s.instances {
      Takes(Visitor, s, LTeardown(i));
    } else {
      Takes(Visitor, s, LSetup(i, lower));
    }
  }
}
