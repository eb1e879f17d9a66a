/**
Whose step is whose. A thread's position is moved by its own steps only: whatever other threads do, the worker
stays where it is, g_Control stays with its holder, and an operation keeps its stage and its life.
*/
module PendingIoOrder {

  import opened Options
  import opened PendingIo
  import opened PendingIoInvariant

  // ---------------------------------------------------------------------------------------------
  // Threads
  // ---------------------------------------------------------------------------------------------

  /** The steps of the worker thread, those of FinishLogical and DropReference on its own operation included. */
  predicate ByWorker(s: State, l: Label) {
    || WorkerCode(l)
    || ((l.LSwap? || l.LCount? || l.LDropLogical?) && s.worker == Finishing(l.op))
    || ((l.LUnlink? || l.LFree?) && s.worker == Freeing(l.op))
  }

  /** The steps of a thread that already holds g_Control. */
  predicate ByHolder(s: State, l: Label) {
    match s.control
    case Free => false
    case WorkerWatch => l.LVerdict?
    case Disconnecting(_) => l.LDisconnectRemove?
    case Exiting(_) => l.LExitSweep?
    case StopReleasing => l.LStopRelease?
    case MessageReleasing(_) => l.LMessageRelease?
    case Replying(_) => l.LReply?
  }

  /** The sections that begin by taking g_Control. */
  predicate TakesControl(l: Label) {
    l.LSnapshot? || l.LDisconnect? || l.LMessage? || l.LExit? || l.LStop?
  }

  /** The sections in which a callback or a finishing thread names its operation. */
  predicate NamesOperation(l: Label) {
    l.LLockBuffer? || l.LPass? || l.LQueue? || l.LEnterPost? || l.LSwap? || l.LCount? || l.LDropLogical?
    || l.LUnlink? || l.LFree?
  }

  /** The step moves the holder of one of this operation's shares. */
  predicate ActsOn(s: State, l: Label, i: OperationId) {
    || (NamesOperation(l) && l.op == i)
    || (l.LPop? && s.work != [] && s.work[0] == i)
    || (l.LDecide? && s.worker.Holding? && s.worker.op == i)
    || (l.LComplete? && s.worker.Completing? && s.worker.op == i)
    || (l.LDropWorker? && s.worker.Dropping? && s.worker.op == i)
  }

  // ---------------------------------------------------------------------------------------------
  // Operations
  // ---------------------------------------------------------------------------------------------

  /** The operation is still there, in the same stage of the same life. */
  predicate Stays(s: State, t: State, i: OperationId) {
    i in s.ops ==> i in t.ops && t.ops[i].stage == s.ops[i].stage && t.ops[i].life == s.ops[i].life
  }

  /** What never changes in an operation, and what is never undone. */
  predicate OperationGrows(u: Operation, o: Operation) {
    && o.instance == u.instance && o.owner == u.owner && o.generation == u.generation && o.mode == u.mode
    && o.preIdentity == u.preIdentity && o.target == u.target
    && (u.wakeReason >= 2 ==> o.wakeReason >= u.wakeReason)
    && Age(u.life) <= Age(o.life)
    && (u.logicalReleased ==> o.logicalReleased)
    && (u.lowerClaimed ==> o.lowerClaimed)
  }

  function Age(life: Life): nat {
    match life
    case Linked => 0
    case Unlinking => 1
    case Unlinked => 2
  }

  /** An operation that somebody holds a share of is on the list. */
  predicate Alive(s: State, i: OperationId) {
    i in s.ops ==> (s.ops[i].stage != Done || WorkerHolds(s.worker, i) ==> s.ops[i].life == Linked)
  }

  // ---------------------------------------------------------------------------------------------
  // What the invariant says of a thread's position
  // ---------------------------------------------------------------------------------------------

  lemma HeldFacts(s: State)
    requires Invariant(s)
    ensures s.work != [] ==> s.work[0] in s.ops
    ensures WorkerFits(s)
    ensures s.worker.Holding? || s.worker.Completing? || s.worker.Dropping? ==>
              s.worker.op in s.ops && s.ops[s.worker.op].instance in s.instances
    ensures s.worker.Completing? ==> s.ops[s.worker.op].data.Some?
    ensures s.worker.Freeing? && s.worker.op in s.ops ==> s.ops[s.worker.op].life != Linked
  {
    hide ArmFits, LeaseFits, WatchFits, EventFits, Balanced, Bounded, Referenced, Ticketed, Claimed, Swept;
    if s.work != [] {
      assert s.work[0] in s.work;
    }
    if (s.worker.Holding? || s.worker.Completing? || s.worker.Dropping? || s.worker.Freeing?) && s.worker.op in s.ops {
      Facts(s, s.worker.op);
    }
  }

  lemma Parts(s: State)
    requires Invariant(s)
    ensures Lists(s) && WorkerFits(s) && Operations(s) && WatchFits(s) && EventFits(s)
  {
    hide Lists, WorkerFits, Operations, ArmFits, LeaseFits, WatchFits, EventFits, Balanced, Bounded, Referenced,
      Ticketed, Claimed;
  }

  // ---------------------------------------------------------------------------------------------
  // The frame of a step
  // ---------------------------------------------------------------------------------------------

  /** Only its own free and unlink end an operation, and only who acts on it moves it. */
  predicate OperationFrame(s: State, l: Label, t: State, i: OperationId) {
    && (i in t.ops && i !in s.ops ==> i == s.ledger.created && !s.stopping)
    && (i in s.ops && i != s.ledger.created ==>
          && (i in t.ops || l == LFree(i))
          && (i in t.ops ==>
                && (t.ops[i].life == Unlinked ==> s.ops[i].life == Unlinked || l == LUnlink(i))
                && (Alive(s, i) ==> OperationGrows(s.ops[i], t.ops[i]))
                && (!ActsOn(s, l, i) ==> t.ops[i].stage == s.ops[i].stage && t.ops[i].life == s.ops[i].life)))
  }

  /** The sections that end with the release of g_Control. */
  predicate ReturnsControl(l: Label) {
    l.LVerdict? || l.LDisconnectRemove? || l.LExitSweep? || l.LStopRelease? || l.LReply?
  }

  /** The worker, its queue and g_Control are moved by their own sections only. */
  predicate PositionFrame(s: State, l: Label, t: State) {
    && (WorkerCode(l) || t.worker == s.worker)
    && (s.worker == Terminated ==> t.worker == Terminated)
    && (l.LPop? || (l.LQueue? && !s.stopping) || t.work == s.work)
    && (if l.LMessageRelease? then t.control.Replying?
        else if ReturnsControl(l) then t.control == Free
        else TakesControl(l) || t.control == s.control)
    && (l.LSnapshot? ==> t.control == s.control || t.control == WorkerWatch)
  }

  /** A client identifier is never given out again, and the lease is only given up or taken when it is free. */
  predicate LeaseFrame(s: State, l: Label, t: State) {
    && t.nextClient >= s.nextClient
    && (forall id | id <= s.nextClient && id !in s.clients :: id !in t.clients)
    && (|| t.owner == s.owner || t.owner == 0
        || (s.owner == 0 && l.LMessage? && l.action.Arm? && t.owner == l.client))
  }

  /** Stops are never undone, and after the driver's stop nothing is created or pended. */
  predicate StopFrame(s: State, t: State) {
    && s.ledger.created <= t.ledger.created
    && (s.stopping ==> t.stopping && t.pended == s.pended && t.ledger.created == s.ledger.created)
    && (forall k | k in s.instances :: k in t.instances && (s.instances[k].stopping ==> t.instances[k].stopping))
  }

  predicate Frame(s: State, l: Label, t: State, i: OperationId) {
    OperationFrame(s, l, t, i) && PositionFrame(s, l, t) && LeaseFrame(s, l, t) && StopFrame(s, t)
  }

  /** A sweep, and any step that leaves the operations as they are. */
  lemma WakeFrame(s: State, l: Label, t: State, sweep: Sweep, reason: nat, i: OperationId)
    requires t.ops == WakeAll(s.ops, sweep, reason) || t.ops == s.ops
    ensures !NamesOperation(l) ==> OperationFrame(s, l, t, i)
  {
    hide ActsOn;
  }

  /** A step that leaves clients, instances, history and stops alone, and gives the lease up or takes a free one. */
  lemma SettingsFrame(s: State, l: Label, t: State)
    requires t.clients == s.clients && t.nextClient == s.nextClient
    requires t.owner == s.owner || t.owner == 0 || (s.owner == 0 && l.LMessage? && l.action.Arm? && t.owner == l.client)
    requires t.instances == s.instances && (s.stopping ==> t.stopping) && t.pended == s.pended
    requires t.ledger.created == s.ledger.created
    ensures LeaseFrame(s, l, t) && StopFrame(s, t)
  {
  }

  lemma UpperFrame(s: State, l: Label, i: OperationId)
    requires CallbackEnabled(s, l) && l.LAdmit? && AdmitsUpper(s, l.instance, l.requestor, l.read) && !s.stopping
    ensures Frame(s, l, CallbackApply(s, l), i)
  {
    hide DataIdle, NewOperation, FindPair, AdmitsUpper, AdmitsLower;
  }

  lemma LowerFrame(s: State, l: Label, i: OperationId)
    requires CallbackEnabled(s, l) && l.LAdmit? && !AdmitsUpper(s, l.instance, l.requestor, l.read)
    ensures Frame(s, l, CallbackApply(s, l), i)
  {
    hide DataIdle, NewOperation, Eligible, AdmitsUpper;
  }

  lemma QueueFrame(s: State, l: Label, i: OperationId)
    requires CallbackEnabled(s, l) && l.LQueue?
    ensures Frame(s, l, CallbackApply(s, l), i)
  {
    hide Refused;
    if Refused(s, s.ops[l.op], l.post) {
    } else {
      NotRefused(s, l.op, l.post);
    }
  }

  lemma NotRefused(s: State, i: OperationId, post: bool)
    requires i in s.ops && s.ops[i].instance in s.instances && !Refused(s, s.ops[i], post)
    ensures !s.stopping && s.ops[i].wakeReason < 2
  {
  }

  lemma CallbackFrame(s: State, l: Label, i: OperationId)
    requires CallbackEnabled(s, l) && (l.LLockBuffer? || l.LPass? || l.LEnterPost?)
    ensures Frame(s, l, CallbackApply(s, l), i)
  {
    hide DataIdle, PostMode;
  }

  lemma FinishFrame(s: State, l: Label, i: OperationId)
    requires CallbackEnabled(s, l) && (l.LSwap? || l.LCount? || l.LDropLogical?)
    ensures Frame(s, l, CallbackApply(s, l), i)
  {
    hide LeaseFrame, StopFrame;
    SettingsFrame(s, l, CallbackApply(s, l));
  }

  lemma DeathFrame(s: State, l: Label, i: OperationId)
    requires CallbackEnabled(s, l) && (l.LUnlink? || l.LFree?)
    ensures Frame(s, l, CallbackApply(s, l), i)
  {
    hide Without;
  }

  lemma LoopFrame(s: State, l: Label, i: OperationId)
    requires WorkerEnabled(s, l) && (l.LStart? || l.LSample? || l.LWait? || l.LFinished? || l.LFreed? || l.LTail?)
    ensures Frame(s, l, WorkerApply(s, l), i)
  {
    hide OperationFrame;
    WakeFrame(s, l, WorkerApply(s, l), Everything, 0, i);
  }

  lemma SnapshotFrame(s: State, l: Label, i: OperationId)
    requires WorkerEnabled(s, l) && l.LSnapshot?
    ensures Frame(s, l, WorkerApply(s, l), i)
  {
    hide OperationFrame, LeaseFrame, StopFrame;
    var t := WorkerApply(s, l);
    if s.target.None? {
      WakeFrame(s, l, t, Everything, 0, i);
      SettingsFrame(s, l, t);
    } else {
      WakeFrame(s, l, t, Everything, 0, i);
      SettingsFrame(s, l, t);
    }
  }

  lemma VerdictFrame(s: State, l: Label, i: OperationId)
    requires WorkerEnabled(s, l) && l.LVerdict?
    ensures Frame(s, l, WorkerApply(s, l), i)
  {
    hide OperationFrame, LeaseFrame, StopFrame, WakeAll;
    WakeFrame(s, l, WorkerApply(s, l), Targeting(s.worker.target), 2, i);
    SettingsFrame(s, l, WorkerApply(s, l));
  }

  lemma EmptyPopFrame(s: State, l: Label, i: OperationId)
    requires WorkerEnabled(s, l) && l.LPop? && s.work == []
    ensures Frame(s, l, WorkerApply(s, l), i)
  {
    hide OperationFrame, LeaseFrame, StopFrame;
    WakeFrame(s, l, WorkerApply(s, l), Everything, 0, i);
    SettingsFrame(s, l, WorkerApply(s, l));
  }

  lemma PopFrame(s: State, l: Label, i: OperationId)
    requires WorkerEnabled(s, l) && l.LPop? && s.work != []
    ensures Frame(s, l, WorkerApply(s, l), i)
  {
    hide LeaseFrame, StopFrame;
    SettingsFrame(s, l, WorkerApply(s, l));
    assert ActsOn(s, l, s.work[0]);
  }

  lemma DecideFrame(s: State, l: Label, i: OperationId)
    requires WorkerEnabled(s, l) && l.LDecide?
    ensures Frame(s, l, WorkerApply(s, l), i)
  {
    hide Cancels;
  }

  lemma ItemFrame(s: State, l: Label, i: OperationId)
    requires WorkerEnabled(s, l) && (l.LComplete? || l.LDropWorker?)
    ensures Frame(s, l, WorkerApply(s, l), i)
  {
  }

  /** The section gives the lease up if its cause concerns the owner. */
  predicate Releases(s: State, l: Label) {
    match l
    case LDisconnect(id) => s.owner == id
    case LExit(p) => s.ownerProcess == Some(p)
    case LReply(copied) => !copied && s.control.Replying? && s.owner == s.control.client
    case _ => true
  }

  /** What giving the lease up changes. */
  lemma GivenUp(s: State)
    ensures var t := ReleaseOwner(s);
            && t.ops == WakeAll(s.ops, OwnedBy(s.owner), 2) && t.owner == 0
            && t == s.(ops := t.ops, owner := 0, ownerProcess := None, locals := t.locals, target := None,
                       armedMode := NoMode, armedRemaining := 0, armedGeneration := 0)
  {
    hide WakeAll;
  }

  lemma ReleaseFrame(s: State, l: Label, i: OperationId)
    requires ControlEnabled(s, l) && (l.LDisconnect? || l.LExit? || l.LStopRelease? || l.LMessageRelease? || l.LReply?)
    ensures Frame(s, l, ControlApply(s, l), i)
  {
    hide OperationFrame, LeaseFrame, StopFrame, WakeAll, ReleaseOwner;
    GivenUp(s);
    var t := ControlApply(s, l);
    if Releases(s, l) {
      WakeFrame(s, l, t, OwnedBy(s.owner), 2, i);
      SettingsFrame(s, l, t);
    } else {
      WakeFrame(s, l, t, OwnedBy(s.owner), 2, i);
      SettingsFrame(s, l, t);
    }
  }

  lemma ArmFrame(s: State, l: Label, i: OperationId)
    requires ControlEnabled(s, l) && l.LMessage? && MessageStatus(s, l.client, l.caller, l.action) == Success
    requires l.action.Arm?
    ensures Frame(s, l, ControlApply(s, l), i)
  {
    hide OperationFrame, LeaseFrame, StopFrame, WakeAll, MessageStatus, ValidRequest;
    var t := ControlApply(s, l);
    if s.owner == 0 {
      WakeFrame(s, l, t, Everything, 1, i);
      SettingsFrame(s, l, t);
    } else {
      WakeFrame(s, l, t, Everything, 1, i);
      SettingsFrame(s, l, t);
    }
  }

  lemma RequestFrame(s: State, l: Label, i: OperationId)
    requires ControlEnabled(s, l) && l.LMessage?
    requires MessageStatus(s, l.client, l.caller, l.action) != Success || !l.action.Arm?
    ensures Frame(s, l, ControlApply(s, l), i)
  {
    hide OperationFrame, LeaseFrame, StopFrame, WakeAll, MessageStatus, ValidRequest;
    var t := Message(s, l.client, l.caller, l.action);
    assert t == (if MessageStatus(s, l.client, l.caller, l.action) != Success then s
                 else if l.action.Resume? then
                   s.(ops := WakeAll(s.ops, OwnedBy(l.client), 1), control := Replying(l.client))
                 else s.(control := MessageReleasing(l.client)));
    WakeFrame(s, l, t, OwnedBy(l.client), 1, i);
    SettingsFrame(s, l, t);
  }

  lemma SweepFrame(s: State, l: Label, i: OperationId)
    requires ControlEnabled(s, l) && (l.LExitSweep? || l.LStop?)
    ensures Frame(s, l, ControlApply(s, l), i)
  {
    hide OperationFrame, WakeAll;
    match l
    case LExitSweep => WakeFrame(s, l, ExitSweep(s), Targeting(s.control.process), 2, i);
    case LStop => WakeFrame(s, l, StopMark(s), Everything, 3, i);
  }

  lemma ClientFrame(s: State, l: Label, i: OperationId)
    requires ControlEnabled(s, l) && (l.LConnect? || l.LDisconnectRemove?)
    ensures Frame(s, l, ControlApply(s, l), i)
  {
    hide OperationFrame;
    WakeFrame(s, l, ControlApply(s, l), Everything, 0, i);
  }

  lemma InstanceFrame(s: State, l: Label, i: OperationId)
    requires SetupEnabled(s, l) && (l.LSetup? || l.LTeardown?)
    ensures Frame(s, l, SetupApply(s, l), i)
  {
    hide OperationFrame, WakeAll;
    WakeFrame(s, l, SetupApply(s, l), Inside(l.instance), 3, i);
  }

  /** Steps that touch none of this. */
  lemma PlainFrame(s: State, l: Label, t: State, i: OperationId)
    requires t.ops == s.ops && t.worker == s.worker && t.work == s.work && t.control == s.control
    requires t.clients == s.clients && t.nextClient == s.nextClient && t.owner == s.owner
    requires t.instances == s.instances && t.stopping == s.stopping && t.pended == s.pended
    requires t.ledger.created == s.ledger.created && !CallbackCode(l) && !WorkerCode(l) && !ControlCode(l)
    ensures Frame(s, l, t, i)
  {
    hide OperationFrame, LeaseFrame, StopFrame;
    WakeFrame(s, l, t, Everything, 0, i);
    SettingsFrame(s, l, t);
  }

  lemma ReferenceFrame(s: State, l: Label, i: OperationId)
    requires SetupEnabled(s, l) && (l.LLookup? || l.LDereference?)
    ensures Frame(s, l, SetupApply(s, l), i)
  {
    hide Frame, SetupInstance, TeardownInstance, ContextCount, TeardownComplete;
    PlainFrame(s, l, SetupApply(s, l), i);
  }

  lemma CountFrame(s: State, l: Label, i: OperationId)
    requires SetupEnabled(s, l) && (l.LContextAllocated? || l.LContextCleaned? || l.LTeardownComplete?)
    ensures Frame(s, l, SetupApply(s, l), i)
  {
    hide Frame, SetupInstance, TeardownInstance, LookupProcess, Dereference;
    PlainFrame(s, l, SetupApply(s, l), i);
  }

  lemma AdmitFrame(s: State, l: Label, i: OperationId)
    requires CallbackEnabled(s, l) && l.LAdmit?
    ensures Frame(s, l, CallbackApply(s, l), i)
  {
    hide Frame, CallbackApply, DataIdle;
    if AdmitsUpper(s, l.instance, l.requestor, l.read) {
      UpperFrame(s, l, i);
    } else {
      LowerFrame(s, l, i);
    }
  }

  /** What every step leaves alone. */
  lemma StepFrame(s: State, l: Label, i: OperationId)
    requires Enabled(s, l)
    ensures Frame(s, l, Apply(s, l), i)
  {
    hide Frame, CallbackEnabled, WorkerEnabled, ControlEnabled, SetupEnabled, CallbackApply, WorkerApply, ControlApply,
      SetupApply, MessageStatus;
    if l.LAdmit? {
      AdmitFrame(s, l, i);
    } else if l.LQueue? {
      QueueFrame(s, l, i);
    } else if l.LLockBuffer? || l.LPass? || l.LEnterPost? {
      CallbackFrame(s, l, i);
    } else if l.LSwap? || l.LCount? || l.LDropLogical? {
      FinishFrame(s, l, i);
    } else if l.LUnlink? || l.LFree? {
      DeathFrame(s, l, i);
    } else if l.LSnapshot? {
      SnapshotFrame(s, l, i);
    } else if l.LVerdict? {
      VerdictFrame(s, l, i);
    } else if l.LPop? {
      if s.work == [] {
        EmptyPopFrame(s, l, i);
      } else {
        PopFrame(s, l, i);
      }
    } else if l.LDecide? {
      DecideFrame(s, l, i);
    } else if l.LComplete? || l.LDropWorker? {
      ItemFrame(s, l, i);
    } else if WorkerCode(l) {
      LoopFrame(s, l, i);
    } else if l.LMessage? {
      if MessageStatus(s, l.client, l.caller, l.action) == Success && l.action.Arm? {
        ArmFrame(s, l, i);
      } else {
        RequestFrame(s, l, i);
      }
    } else if l.LExitSweep? || l.LStop? {
      SweepFrame(s, l, i);
    } else if l.LConnect? || l.LDisconnectRemove? {
      ClientFrame(s, l, i);
    } else if ControlCode(l) {
      ReleaseFrame(s, l, i);
    } else if l.LSetup? || l.LTeardown? {
      InstanceFrame(s, l, i);
    } else if l.LLookup? || l.LDereference? {
      ReferenceFrame(s, l, i);
    } else {
      CountFrame(s, l, i);
    }
  }

  // ---------------------------------------------------------------------------------------------
  // Results
  // ---------------------------------------------------------------------------------------------

  /** Only the holders of its shares move an operation. */
  lemma OthersLeaveOperation(s: State, l: Label, i: OperationId)
    requires Lists(s) && Enabled(s, l) && i in s.ops && !ActsOn(s, l, i)
    ensures i in Apply(s, l).ops && Stays(s, Apply(s, l), i)
  {
    hide Enabled, Apply, PositionFrame, LeaseFrame, StopFrame, Alive, OperationGrows;
    StepFrame(s, l, i);
  }

  /** The worker's position is moved by the worker's own code only. */
  lemma OthersLeaveWorker(s: State, l: Label)
    requires Enabled(s, l) && !WorkerCode(l)
    ensures Apply(s, l).worker == s.worker
  {
    hide Enabled, Apply, OperationFrame, LeaseFrame, StopFrame;
    StepFrame(s, l, 0);
  }

  /** The sections the holder of g_Control still has to run. */
  function HolderLeft(control: Control): nat {
    match control
    case Free => 0
    case MessageReleasing(_) => 2
    case _ => 1
  }

  /** While g_Control is held, the sections that return it are its holder's. */
  lemma HeldSections(s: State, l: Label)
    requires WatchFits(s) && Enabled(s, l) && s.control != Free
    ensures !TakesControl(l) && (ReturnsControl(l) || l.LMessageRelease? <==> ByHolder(s, l))
    ensures l.LMessageRelease? ==> s.control.MessageReleasing?
  {
    hide CallbackEnabled, SetupEnabled;
  }

  /** While g_Control is held, only its holder moves it, and each of the holder's sections brings the release nearer. */
  lemma ControlIsHeld(s: State, l: Label)
    requires WatchFits(s) && Enabled(s, l) && s.control != Free
    ensures !ByHolder(s, l) ==> Apply(s, l).control == s.control
    ensures ByHolder(s, l) ==> HolderLeft(Apply(s, l).control) < HolderLeft(s.control)
  {
    hide Enabled, Apply, OperationFrame, LeaseFrame, StopFrame, ByHolder, WatchFits;
    HeldSections(s, l);
    StepFrame(s, l, 0);
  }
}
