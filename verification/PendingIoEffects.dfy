/**
What each step changes, told field by field and by cause instead of section by section: who ends a lease, what retires
an arm, who wakes an operation and with which reason, what is queued and counted. Nothing here names a section.
*/
module PendingIoEffects {

  import opened Options
  import opened PendingIo
  import opened PendingIoInvariant
  import opened PendingIoRuns
  import opened PendingIoOrder

  // ---------------------------------------------------------------------------------------------
  // Causes
  // ---------------------------------------------------------------------------------------------

  /** The lease ends: its owner disconnects, asks for it or gets no reply, its process exits, or the driver stops. */
  predicate EndsLease(s: State, l: Label) {
    || (l.LDisconnect? && l.client == s.owner)
    || (l.LExit? && s.ownerProcess == Some(l.process))
    || l.LMessageRelease?
    || l.LStopRelease?
    || (l == LReply(false) && s.control == Replying(s.owner))
  }

  /** The sender is the connected client it says it is, and no other client has the lease. */
  predicate Entitled(s: State, l: Label)
    requires l.LMessage?
  {
    && l.client in s.clients && s.clients[l.client] == l.caller && !s.stopping
    && (s.owner == 0 || s.owner == l.client)
  }

  /** No arm, no context, nothing queued, no work item under way. */
  predicate Quiescent(s: State) {
    s.target.None? && s.order == [] && s.work == [] && !InWorkItem(s.worker)
  }

  predicate TeardownPending(s: State) {
    s.ledger.instanceStarts != s.ledger.instanceCompletes
  }

  predicate ArmSucceeds(s: State, l: Label) {
    && l.LMessage? && l.action.Arm? && Entitled(s, l)
    && l.action.alive && !TeardownPending(s) && s.ledger.liveInstances != 0 && Quiescent(s)
  }

  predicate ChangesTopology(s: State, l: Label) {
    l.LTeardown? || (l.LSetup? && !s.stopping)
  }

  /** The watcher's probe found the target of its snapshot exited, and it is still the armed one. */
  predicate FindsExited(s: State, l: Label) {
    l == LVerdict(true) && s.worker.Probing? && s.target == Some(s.worker.target)
  }

  predicate RetiresArm(s: State, l: Label) {
    || EndsLease(s, l) || ChangesTopology(s, l) || FindsExited(s, l)
    || (l.LExitSweep? && s.control.Exiting? && s.target == Some(s.control.process))
  }

  /** The admission finds the driver and its instance running. */
  predicate Runs(s: State, l: Label)
    requires l.LAdmit?
  {
    !s.stopping && l.instance in s.instances && !s.instances[l.instance].stopping
  }

  /** A request of the armed process at an upper instance, of the kind that the armed mode is for. */
  predicate ForArm(s: State, l: Label) {
    && l.LAdmit? && Runs(s, l) && !s.instances[l.instance].lower && s.target == Some(l.requestor)
    && (l.read <==> s.armedMode == DrainPair || s.armedMode == FailReadLock)
  }

  /** The wake-up that this step means for the operation: its reason, or 0 for none. */
  function Summons(s: State, l: Label, o: Operation): nat {
    if o.life == Unlinked then 0
    else if l.LStop? then 3
    else if l.LTeardown? && l.instance == o.instance then 3
    else if EndsLease(s, l) && o.owner == s.owner then 2
    else if FindsExited(s, l) && s.target == Some(o.target) then 2
    else if l.LExitSweep? && s.control == Exiting(o.target) then 2
    else if l.LMessage? && l.action.Resume? && Entitled(s, l) && l.client == o.owner then 1
    else 0
  }

  /** The worker takes the callback's data: nothing is revoked and the mode does not refuse. */
  predicate Accepts(s: State, o: Operation, post: bool) {
    && !s.stopping && o.instance in s.instances && !s.instances[o.instance].stopping && o.wakeReason < 2
    && !(post && o.mode == FailPostQueue) && !(!post && o.mode == FailPreQueue)
  }

  predicate Queues(s: State, l: Label) {
    l.LQueue? && l.op in s.ops && Accepts(s, s.ops[l.op], l.post)
  }

  /** The worker does not forward a pre: its wait failed, it was revoked, or a read has no locked pages. */
  predicate Revokes(s: State, o: Operation, post: bool, waited: bool) {
    || !waited || o.wakeReason >= 2 || s.stopping
    || (o.instance in s.instances && s.instances[o.instance].stopping)
    || (!post && o.read && !o.mdl)
  }

  /** A read may have its data handed to the worker only if its pages could be locked. */
  predicate LocksPages(s: State, l: Label) {
    l.LLockBuffer? && l.op in s.ops && l.locked && s.ops[l.op].mode != FailReadLock
  }

  // ---------------------------------------------------------------------------------------------
  // Changes
  // ---------------------------------------------------------------------------------------------

  predicate LeaseChange(s: State, l: Label, t: State) {
    if EndsLease(s, l) then t.owner == 0 && t.ownerProcess.None?
    else if ArmSucceeds(s, l) then t.owner == l.client && t.ownerProcess == Some(l.caller)
    else t.owner == s.owner && t.ownerProcess == s.ownerProcess
  }

  predicate Unarmed(t: State) {
    t.target.None? && t.armedMode == NoMode && t.armedRemaining == 0 && t.armedGeneration == 0
  }

  predicate SameArm(s: State, t: State) {
    t.target == s.target && t.armedMode == s.armedMode && t.armedGeneration == s.armedGeneration
  }

  predicate ArmChange(s: State, l: Label, t: State) {
    if RetiresArm(s, l) then Unarmed(t)
    else if ArmSucceeds(s, l) then
      && t.target == Some(l.action.target) && t.armedMode == l.action.mode && t.armedRemaining == l.action.count
      && t.armedGeneration == s.topologyGeneration
    else if ForArm(s, l) then
      if s.armedRemaining == 1 then Unarmed(t) else SameArm(s, t) && t.armedRemaining == s.armedRemaining - 1
    else SameArm(s, t) && t.armedRemaining == s.armedRemaining
  }

  predicate TopologyChange(s: State, l: Label, t: State) {
    && t.topologyGeneration == s.topologyGeneration + One(ChangesTopology(s, l))
    && t.stopping == (s.stopping || l.LStop?)
    && t.instances == (if !ChangesTopology(s, l) then s.instances
                       else if l.LSetup? then s.instances[l.instance := Instance(l.lower, false)]
                       else if l.instance in s.instances then
                         s.instances[l.instance := Instance(s.instances[l.instance].lower, true)]
                       else s.instances)
  }

  predicate TableChange(s: State, l: Label, t: State) {
    if l.LConnect? && !s.stopping && s.nextClient < 0xFFFF_FFFF_FFFF_FFFF && |s.clients| < 16 then
      t.nextClient == s.nextClient + 1 && t.clients == s.clients[t.nextClient := l.caller]
    else
      && t.nextClient == s.nextClient
      && t.clients == (if l.LDisconnectRemove? && s.control.Disconnecting? then s.clients - {s.control.client}
                       else s.clients)
  }

  /** Only a post that is queued forgets an earlier wake-up; every other step can only strengthen the reason. */
  predicate ReasonChange(s: State, l: Label, t: State, i: OperationId) {
    i in s.ops && i in t.ops && i != s.ledger.created ==>
      var o, n := s.ops[i], Summons(s, l, s.ops[i]);
      if l == LQueue(i, true) && Queues(s, l) then t.ops[i].wakeReason == 0 && !t.ops[i].resume
      else
        && t.ops[i].wakeReason == (if n > o.wakeReason then n else o.wakeReason)
        && t.ops[i].resume == (o.resume || n > 0)
  }

  /** What an operation is never changes; its pages, data, release and claim change by the sections they are for. */
  predicate FieldChange(s: State, l: Label, t: State, i: OperationId) {
    i in s.ops && i in t.ops && i != s.ledger.created ==>
      var o, u := s.ops[i], t.ops[i];
      && SameKind(o, u)
      && u.mdl == (o.mdl || (LocksPages(s, l) && l.op == i))
      && (if Queues(s, l) && l.op == i then u.data == Some(o.preIdentity) && u.postWork == l.post
          else u.data == o.data && u.postWork == o.postWork)
      && u.logicalReleased == (o.logicalReleased || l == LSwap(i))
      && (u.lowerClaimed == o.lowerClaimed || l.LAdmit?)
  }

  predicate SameKind(o: Operation, u: Operation) {
    && u.instance == o.instance && u.lower == o.lower && u.file == o.file && u.target == o.target && u.read == o.read
    && u.preIdentity == o.preIdentity && u.generation == o.generation && u.owner == o.owner && u.mode == o.mode
  }

  predicate WorkChange(s: State, l: Label, t: State) {
    && t.work == (if Queues(s, l) then s.work + [l.op]
                  else if l.LPop? && s.work != [] then s.work[1..]
                  else s.work)
    && t.pended == (if Queues(s, l) then s.pended + multiset{Ticket(l.op, s.ops[l.op].preIdentity, l.post)}
                    else s.pended)
    && t.workAvailable == (if Queues(s, l) || l.LStop? || ArmSucceeds(s, l) then true
                           else if l == LWait(false) then false
                           else s.workAvailable)
  }

  /** Each counter counts what it is called after. */
  predicate CounterChange(s: State, l: Label, t: State) {
    var a, b := s.ledger, t.ledger;
    && b.postCalled == a.postCalled + One(l.LEnterPost?)
    && b.bufferLockFailures == a.bufferLockFailures + One(l.LLockBuffer? && !LocksPages(s, l))
    && b.preQueued == a.preQueued + One(Queues(s, l) && !l.post)
    && b.postQueued == a.postQueued + One(Queues(s, l) && l.post)
    && b.preCompleted == a.preCompleted + One(l.LDecide? && s.worker.Holding? && !s.worker.post)
    && b.postCompleted == a.postCompleted + One(l.LDecide? && s.worker.Holding? && s.worker.post)
    && b.preCancelled == a.preCancelled
                         + One(l.LDecide? && s.worker.Holding? && !s.worker.post && s.worker.op in s.ops
                               && Revokes(s, s.ops[s.worker.op], false, l.waited))
    && b.freed == a.freed + One(l.LUnlink?)
    && b.liveInstances == a.liveInstances + One(l.LContextAllocated?) - One(l.LContextCleaned?)
    && b.instanceStarts == a.instanceStarts + One(l.LTeardown?)
    && b.instanceCompletes == a.instanceCompletes + One(l.LTeardownComplete?)
  }

  predicate Changes(s: State, l: Label, t: State, i: OperationId) {
    && LeaseChange(s, l, t) && ArmChange(s, l, t) && TopologyChange(s, l, t) && TableChange(s, l, t)
    && ReasonChange(s, l, t, i) && FieldChange(s, l, t, i) && WorkChange(s, l, t) && CounterChange(s, l, t)
  }

  // ---------------------------------------------------------------------------------------------
  // Sections that leave the settings alone
  // ---------------------------------------------------------------------------------------------

  predicate SameCourse(s: State, t: State) {
    && t.owner == s.owner && t.ownerProcess == s.ownerProcess
    && SameArm(s, t) && t.armedRemaining == s.armedRemaining
    && t.topologyGeneration == s.topologyGeneration && t.stopping == s.stopping && t.instances == s.instances
  }

  predicate SameSettings(s: State, t: State) {
    SameCourse(s, t) && t.nextClient == s.nextClient && t.clients == s.clients
  }

  predicate Quiet(l: Label) {
    || (CallbackCode(l) && !l.LAdmit?) || (WorkerCode(l) && !l.LVerdict?)
    || l.LLookup? || l.LDereference? || l.LContextAllocated? || l.LContextCleaned? || l.LTeardownComplete?
  }

  /** Which sections can be a cause at all. */
  lemma CauseLabels(s: State, l: Label, i: OperationId)
    ensures EndsLease(s, l) ==> l.LDisconnect? || l.LExit? || l.LMessageRelease? || l.LStopRelease? || l.LReply?
    ensures ArmSucceeds(s, l) ==> l.LMessage? && l.action.Arm?
    ensures ChangesTopology(s, l) ==> l.LTeardown? || l.LSetup?
    ensures FindsExited(s, l) ==> l.LVerdict?
    ensures RetiresArm(s, l) ==> EndsLease(s, l) || ChangesTopology(s, l) || FindsExited(s, l) || l.LExitSweep?
    ensures ForArm(s, l) ==> l.LAdmit?
    ensures i in s.ops && Summons(s, l, s.ops[i]) > 0 ==>
              l.LStop? || l.LTeardown? || EndsLease(s, l) || l.LVerdict? || l.LExitSweep?
              || (l.LMessage? && l.action.Resume?)
  {
  }

  /** The step is no reason to change the lease, the arm, the topology or an operation. */
  predicate Causeless(s: State, l: Label) {
    && !EndsLease(s, l) && !ArmSucceeds(s, l) && !RetiresArm(s, l) && !ForArm(s, l) && !ChangesTopology(s, l)
    && !l.LStop?
  }

  lemma QuietCauses(s: State, l: Label, i: OperationId)
    requires Quiet(l)
    ensures Causeless(s, l)
    ensures i in s.ops ==> Summons(s, l, s.ops[i]) == 0
  {
  }

  lemma Undisturbed(s: State, l: Label, t: State)
    requires Causeless(s, l) && SameCourse(s, t)
    ensures LeaseChange(s, l, t) && ArmChange(s, l, t) && TopologyChange(s, l, t)
  {
    hide EndsLease, ArmSucceeds, RetiresArm, ForArm, ChangesTopology;
  }

  lemma SameTable(s: State, l: Label, t: State)
    requires t.nextClient == s.nextClient && t.clients == s.clients && !l.LConnect? && !l.LDisconnectRemove?
    ensures TableChange(s, l, t)
  {
  }

  lemma QuietChanges(s: State, l: Label, t: State)
    requires Quiet(l) && SameSettings(s, t)
    ensures LeaseChange(s, l, t) && ArmChange(s, l, t) && TopologyChange(s, l, t) && TableChange(s, l, t)
  {
    hide Causeless, LeaseChange, ArmChange, TopologyChange, TableChange;
    QuietCauses(s, l, 0);
    Undisturbed(s, l, t);
    SameTable(s, l, t);
  }

  predicate SameReasons(s: State, t: State, i: OperationId) {
    i in s.ops && i in t.ops && i != s.ledger.created ==>
      t.ops[i].wakeReason == s.ops[i].wakeReason && t.ops[i].resume == s.ops[i].resume
  }

  lemma QuietReasons(s: State, l: Label, t: State, i: OperationId)
    requires Quiet(l) && !Queues(s, l) && SameReasons(s, t, i)
    ensures ReasonChange(s, l, t, i)
  {
    hide Queues, Summons;
    QuietCauses(s, l, i);
  }

  predicate SameFields(s: State, l: Label, t: State, i: OperationId) {
    i in s.ops && i in t.ops && i != s.ledger.created ==>
      var o, u := s.ops[i], t.ops[i];
      && SameKind(o, u) && u.mdl == o.mdl && u.data == o.data && u.postWork == o.postWork
      && u.logicalReleased == o.logicalReleased && (l.LAdmit? || u.lowerClaimed == o.lowerClaimed)
  }

  lemma PlainFields(s: State, l: Label, t: State, i: OperationId)
    requires SameFields(s, l, t, i) && !Queues(s, l) && !l.LLockBuffer? && !l.LSwap?
    ensures FieldChange(s, l, t, i)
  {
    hide Queues, SameKind;
  }

  lemma PlainWork(s: State, l: Label, t: State)
    requires t.work == s.work && t.pended == s.pended && t.workAvailable == s.workAvailable
    requires !l.LQueue? && !l.LPop? && !l.LStop? && !l.LMessage? && !l.LWait?
    ensures WorkChange(s, l, t)
  {
  }

  predicate Counts(l: Label) {
    l.LQueue? || l.LEnterPost? || l.LLockBuffer? || l.LDecide? || l.LUnlink? || l.LContextAllocated?
    || l.LContextCleaned? || l.LTeardown? || l.LTeardownComplete?
  }

  lemma PlainCounters(s: State, l: Label, t: State)
    requires !Counts(l)
    requires t.ledger == s.ledger.(created := t.ledger.created, liveContexts := t.ledger.liveContexts,
                                   logicalCompleted := t.ledger.logicalCompleted, violations := t.ledger.violations,
                                   queueDepth := t.ledger.queueDepth, activeWorkers := t.ledger.activeWorkers)
    ensures CounterChange(s, l, t)
  {
  }

  /** The sections that queue, take up, lock, release or wait. */
  predicate Special(l: Label) {
    l.LLockBuffer? || l.LSwap? || l.LPop? || l.LWait? || l.LQueue?
  }

  /** A step that moves an operation or a thread, and no more than references and counts of contexts with it. */
  lemma QuietStep(s: State, l: Label, t: State, i: OperationId)
    requires Quiet(l) && !Special(l) && !Counts(l) && !Queues(s, l)
    requires SameSettings(s, t) && SameReasons(s, t, i) && SameFields(s, l, t, i)
    requires t.work == s.work && t.pended == s.pended && t.workAvailable == s.workAvailable
    requires t.ledger == s.ledger.(created := t.ledger.created, liveContexts := t.ledger.liveContexts,
                                   logicalCompleted := t.ledger.logicalCompleted, violations := t.ledger.violations,
                                   queueDepth := t.ledger.queueDepth, activeWorkers := t.ledger.activeWorkers)
    ensures Changes(s, l, t, i)
  {
    hide LeaseChange, ArmChange, TopologyChange, TableChange, ReasonChange, FieldChange, WorkChange, CounterChange,
      Queues, SameSettings, SameReasons, SameFields;
    QuietChanges(s, l, t);
    QuietReasons(s, l, t, i);
    PlainFields(s, l, t, i);
    PlainWork(s, l, t);
    PlainCounters(s, l, t);
  }

  /** A step that moves its thread and no more than references and g_Control with it. */
  lemma MoveChanges(s: State, l: Label, t: State, i: OperationId)
    requires Quiet(l) && !Special(l) && !Counts(l) && !Queues(s, l)
    requires t == s.(worker := t.worker, control := t.control, references := t.references, locals := t.locals)
    ensures Changes(s, l, t, i)
  {
    hide Changes, Quiet, Counts, Queues, Special;
    QuietStep(s, l, t, i);
  }

  lemma RefusedChanges(s: State, l: Label, i: OperationId)
    requires CallbackEnabled(s, l) && l.LQueue? && Refused(s, s.ops[l.op], l.post) && !Queues(s, l)
    ensures Changes(s, l, CallbackApply(s, l), i)
  {
    hide LeaseChange, ArmChange, TopologyChange, TableChange, ReasonChange, Refused, Queues;
    QuietChanges(s, l, CallbackApply(s, l));
    QuietReasons(s, l, CallbackApply(s, l), i);
  }

  lemma AcceptedChanges(s: State, l: Label, i: OperationId)
    requires CallbackEnabled(s, l) && l.LQueue? && !Refused(s, s.ops[l.op], l.post) && Queues(s, l)
    ensures Changes(s, l, CallbackApply(s, l), i)
  {
    hide LeaseChange, ArmChange, TopologyChange, TableChange, Refused, Queues, Summons;
    QuietChanges(s, l, CallbackApply(s, l));
    QuietCauses(s, l, i);
  }

  lemma QueueChanges(s: State, l: Label, i: OperationId)
    requires CallbackEnabled(s, l) && l.LQueue?
    ensures Changes(s, l, CallbackApply(s, l), i)
  {
    assert Refused(s, s.ops[l.op], l.post) <==> !Queues(s, l);
    hide Changes, CallbackApply, Refused, Queues;
    if Queues(s, l) {
      AcceptedChanges(s, l, i);
    } else {
      RefusedChanges(s, l, i);
    }
  }

  lemma LockChanges(s: State, l: Label, i: OperationId)
    requires CallbackEnabled(s, l) && l.LLockBuffer?
    ensures Changes(s, l, CallbackApply(s, l), i)
  {
    var t := CallbackApply(s, l);
    hide LeaseChange, ArmChange, TopologyChange, TableChange, ReasonChange, WorkChange, DataIdle, PostMode;
    QuietChanges(s, l, t);
    QuietReasons(s, l, t, i);
    PlainWork(s, l, t);
  }

  lemma PassChanges(s: State, l: Label, i: OperationId)
    requires CallbackEnabled(s, l) && (l.LPass? || l.LEnterPost?)
    ensures Changes(s, l, CallbackApply(s, l), i)
  {
    var t := CallbackApply(s, l);
    hide LeaseChange, ArmChange, TopologyChange, TableChange, ReasonChange, FieldChange, WorkChange, DataIdle, PostMode;
    QuietChanges(s, l, t);
    QuietReasons(s, l, t, i);
    PlainFields(s, l, t, i);
    PlainWork(s, l, t);
  }

  lemma SwapChanges(s: State, l: Label, i: OperationId)
    requires CallbackEnabled(s, l) && l.LSwap?
    ensures Changes(s, l, CallbackApply(s, l), i)
  {
    var t := CallbackApply(s, l);
    hide LeaseChange, ArmChange, TopologyChange, TableChange, ReasonChange, WorkChange, CounterChange;
    QuietChanges(s, l, t);
    QuietReasons(s, l, t, i);
    PlainWork(s, l, t);
    PlainCounters(s, l, t);
  }

  lemma FinishChanges(s: State, l: Label, i: OperationId)
    requires CallbackEnabled(s, l) && (l.LCount? || l.LDropLogical?)
    ensures Changes(s, l, CallbackApply(s, l), i)
  {
    hide Changes;
    QuietStep(s, l, CallbackApply(s, l), i);
  }

  lemma DeathChanges(s: State, l: Label, i: OperationId)
    requires CallbackEnabled(s, l) && (l.LUnlink? || l.LFree?)
    ensures Changes(s, l, CallbackApply(s, l), i)
  {
    var t := CallbackApply(s, l);
    hide LeaseChange, ArmChange, TopologyChange, TableChange, ReasonChange, WorkChange,
      Without;
    QuietChanges(s, l, t);
    QuietReasons(s, l, t, i);
    PlainWork(s, l, t);
  }


  lemma LoopIsQuiet(s: State, l: Label)
    requires l.LStart? || l.LSnapshot? || l.LSample? || l.LFinished? || l.LFreed?
    ensures Quiet(l) && !Special(l) && !Counts(l) && !Queues(s, l)
  {
  }

  lemma PlainMove(s: State, l: Label)
    requires WorkerEnabled(s, l) && (l.LStart? || l.LSnapshot? || l.LSample? || l.LFinished? || l.LFreed?)
    requires l.LSnapshot? ==> s.target.None?
    ensures WorkerApply(s, l) == s.(worker := WorkerApply(s, l).worker)
  {
    hide Verdict, Pop, Decide, Complete, DropWorker, WorkerWait, WorkerTail;
  }

  lemma LoopChanges(s: State, l: Label, i: OperationId)
    requires WorkerEnabled(s, l) && (l.LStart? || l.LSnapshot? || l.LSample? || l.LFinished? || l.LFreed?)
    ensures Changes(s, l, WorkerApply(s, l), i)
  {
    hide Changes, Verdict, Pop, Decide, Complete, DropWorker, WorkerWait, WorkerTail, Quiet, Queues, Special,
      Counts;
    LoopIsQuiet(s, l);
    if l.LSnapshot? && s.target.Some? {
      MoveChanges(s, l, WorkerApply(s, l), i);
    } else {
      hide Snapshot;
      assert WorkerApply(s, l) == s.(worker := WorkerApply(s, l).worker) by {
        PlainMove(s, l);
      }
      MoveChanges(s, l, WorkerApply(s, l), i);
    }
  }

  lemma WaitChanges(s: State, l: Label, i: OperationId)
    requires WorkerEnabled(s, l) && (l.LWait? || l.LTail?)
    ensures Changes(s, l, WorkerApply(s, l), i)
  {
    var t := WorkerApply(s, l);
    hide LeaseChange, ArmChange, TopologyChange, TableChange, ReasonChange, CounterChange;
    QuietChanges(s, l, t);
    QuietReasons(s, l, t, i);
    PlainCounters(s, l, t);
  }

  lemma PoppedChanges(s: State, l: Label, t: State, i: OperationId)
    requires l.LPop? && SameSettings(s, t) && SameReasons(s, t, i) && SameFields(s, l, t, i)
    requires t.work == (if s.work == [] then [] else s.work[1..]) && t.pended == s.pended
    requires t.workAvailable == s.workAvailable
    requires t.ledger == s.ledger.(queueDepth := t.ledger.queueDepth, activeWorkers := t.ledger.activeWorkers)
    ensures Changes(s, l, t, i)
  {
    hide LeaseChange, ArmChange, TopologyChange, TableChange, ReasonChange, FieldChange, CounterChange;
    QuietChanges(s, l, t);
    QuietReasons(s, l, t, i);
    PlainFields(s, l, t, i);
    PlainCounters(s, l, t);
  }

  lemma PopChanges(s: State, l: Label, i: OperationId)
    requires WorkerEnabled(s, l) && l.LPop?
    ensures Changes(s, l, WorkerApply(s, l), i)
  {
    hide Changes;
    if s.work == [] {
      PoppedChanges(s, l, WorkerApply(s, l), i);
    } else {
      PoppedChanges(s, l, WorkerApply(s, l), i);
    }
  }

  lemma ItemChanges(s: State, l: Label, i: OperationId)
    requires WorkerEnabled(s, l) && (l.LComplete? || l.LDropWorker?)
    ensures Changes(s, l, WorkerApply(s, l), i)
  {
    hide Changes;
    QuietStep(s, l, WorkerApply(s, l), i);
  }

  lemma DecideChanges(s: State, l: Label, i: OperationId)
    requires WorkerEnabled(s, l) && l.LDecide?
    ensures Changes(s, l, WorkerApply(s, l), i)
  {
    hide LeaseChange, ArmChange, TopologyChange, TableChange, ReasonChange;
    QuietChanges(s, l, WorkerApply(s, l));
    QuietReasons(s, l, WorkerApply(s, l), i);
  }

  lemma ReferenceChanges(s: State, l: Label, i: OperationId)
    requires SetupEnabled(s, l) && (l.LLookup? || l.LDereference?)
    ensures Changes(s, l, SetupApply(s, l), i)
  {
    hide Changes, SetupInstance, TeardownInstance, ContextCount, TeardownComplete;
    MoveChanges(s, l, SetupApply(s, l), i);
  }

  lemma CountChanges(s: State, l: Label, i: OperationId)
    requires SetupEnabled(s, l) && (l.LContextAllocated? || l.LContextCleaned? || l.LTeardownComplete?)
    ensures Changes(s, l, SetupApply(s, l), i)
  {
    hide LeaseChange, ArmChange, TopologyChange, TableChange, ReasonChange, WorkChange, SetupInstance,
      TeardownInstance, LookupProcess, Dereference;
    QuietChanges(s, l, SetupApply(s, l));
    QuietReasons(s, l, SetupApply(s, l), i);
    PlainWork(s, l, SetupApply(s, l));
  }

  // ---------------------------------------------------------------------------------------------
  // Sections that change the settings
  // ---------------------------------------------------------------------------------------------

  /** A step whose settings and reasons are those of the state it starts in. */
  lemma StillChanges(s: State, l: Label, t: State, i: OperationId)
    requires Causeless(s, l) && SameSettings(s, t) && SameReasons(s, t, i) && !l.LConnect? && !l.LDisconnectRemove?
    requires l.LMessage? || l.LVerdict? || ControlCode(l)
    requires i in s.ops ==> Summons(s, l, s.ops[i]) == 0
    ensures LeaseChange(s, l, t) && ArmChange(s, l, t) && TopologyChange(s, l, t) && TableChange(s, l, t)
    ensures ReasonChange(s, l, t, i)
  {
    hide Causeless, Summons, LeaseChange, ArmChange, TopologyChange, TableChange;
    Undisturbed(s, l, t);
    SameTable(s, l, t);
  }

  lemma SetupOperations(s: State, l: Label, t: State, i: OperationId)
    requires l.LSetup? && t.ops == s.ops
    ensures ReasonChange(s, l, t, i) && FieldChange(s, l, t, i)
  {
  }

  lemma TeardownOperations(s: State, l: Label, t: State, i: OperationId)
    requires l.LTeardown? && t.ops == WakeAll(s.ops, Inside(l.instance), 3)
    ensures ReasonChange(s, l, t, i) && FieldChange(s, l, t, i)
  {
  }

  lemma InstanceChanges(s: State, l: Label, i: OperationId)
    requires SetupEnabled(s, l) && (l.LSetup? || l.LTeardown?)
    ensures Changes(s, l, SetupApply(s, l), i)
  {
    var t := SetupApply(s, l);
    hide WorkChange, ReasonChange, FieldChange, WakeAll;
    PlainWork(s, l, t);
    if l.LSetup? {
      hide Summons, ChangeTopology;
      SetupOperations(s, l, t, i);
    } else {
      TeardownOperations(s, l, t, i);
    }
  }

  lemma ExitedReasons(s: State, l: Label, t: State, i: OperationId)
    requires FindsExited(s, l) && t.ops == WakeAll(s.ops, Targeting(s.worker.target), 2)
    ensures ReasonChange(s, l, t, i) && FieldChange(s, l, t, i)
  {
  }

  lemma VerdictChanges(s: State, l: Label, i: OperationId)
    requires WorkerEnabled(s, l) && l.LVerdict?
    ensures Changes(s, l, WorkerApply(s, l), i)
  {
    var t := WorkerApply(s, l);
    CauseLabels(s, l, i);
    hide WorkChange, CounterChange, EndsLease, ArmSucceeds, ForArm, ChangesTopology;
    PlainWork(s, l, t);
    PlainCounters(s, l, t);
    SameTable(s, l, t);
    if FindsExited(s, l) {
      hide Summons, ReasonChange, FieldChange;
      ExitedReasons(s, l, t, i);
    } else {
      hide LeaseChange, ArmChange, TopologyChange, TableChange, ReasonChange, FindsExited, WakeAll, Disarm;
      StillChanges(s, l, t, i);
    }
  }

  lemma ReleaseReasons(s: State, l: Label, t: State, i: OperationId)
    requires EndsLease(s, l) && t.ops == WakeAll(s.ops, OwnedBy(s.owner), 2) && !ChangesTopology(s, l) && !l.LStop?
    requires t.topologyGeneration == s.topologyGeneration && t.instances == s.instances && t.stopping == s.stopping
    requires !l.LQueue? && !l.LSwap? && !l.LLockBuffer?
    ensures ReasonChange(s, l, t, i) && FieldChange(s, l, t, i) && TopologyChange(s, l, t)
  {
    CauseLabels(s, l, i);
    hide EndsLease, FindsExited, ChangesTopology;
  }

  lemma ReleaseEffect(s: State, l: Label, t: State, i: OperationId)
    requires ControlEnabled(s, l) && (l.LDisconnect? || l.LExit? || l.LStopRelease? || l.LMessageRelease? || l.LReply?)
    requires EndsLease(s, l) && t == ReleaseOwner(s).(control := t.control)
    ensures Changes(s, l, t, i)
  {
    CauseLabels(s, l, i);
    GivenUp(s);
    hide WorkChange, CounterChange, ReleaseOwner, WakeAll, EndsLease, ArmSucceeds, ForArm, ChangesTopology, FindsExited,
      TopologyChange, TableChange, ReasonChange, FieldChange;
    PlainWork(s, l, t);
    PlainCounters(s, l, t);
    SameTable(s, l, t);
    ReleaseReasons(s, l, t, i);
  }

  /** The section would have released the lease for another owner. */
  lemma NoReleaseEffect(s: State, l: Label, t: State, i: OperationId)
    requires ControlEnabled(s, l) && (l.LDisconnect? || l.LExit? || l.LReply?)
    requires !EndsLease(s, l) && t == s.(control := t.control)
    ensures Changes(s, l, t, i)
  {
    hide WorkChange, CounterChange, LeaseChange, ArmChange, TopologyChange, TableChange, ReasonChange, EndsLease;
    PlainWork(s, l, t);
    PlainCounters(s, l, t);
    StillChanges(s, l, t, i);
  }

  lemma ReleaseChanges(s: State, l: Label, i: OperationId)
    requires ControlEnabled(s, l) && (l.LDisconnect? || l.LExit? || l.LStopRelease? || l.LMessageRelease? || l.LReply?)
    ensures Changes(s, l, ControlApply(s, l), i)
  {
    hide Changes, ReleaseOwner;
    if EndsLease(s, l) {
      ReleaseEffect(s, l, ControlApply(s, l), i);
    } else {
      NoReleaseEffect(s, l, ControlApply(s, l), i);
    }
  }

  lemma SweepReasons(s: State, l: Label, t: State, i: OperationId)
    requires l.LExitSweep? && s.control.Exiting? && t.ops == WakeAll(s.ops, Targeting(s.control.process), 2)
    ensures ReasonChange(s, l, t, i) && FieldChange(s, l, t, i)
  {
  }

  lemma ExitSweepChanges(s: State, l: Label, i: OperationId)
    requires ControlEnabled(s, l) && l.LExitSweep?
    ensures Changes(s, l, ControlApply(s, l), i)
  {
    var t := ControlApply(s, l);
    CauseLabels(s, l, i);
    hide WorkChange, CounterChange, ReasonChange, FieldChange, TableChange, EndsLease, ArmSucceeds, ForArm,
      ChangesTopology,
      FindsExited;
    PlainWork(s, l, t);
    PlainCounters(s, l, t);
    SameTable(s, l, t);
    SweepReasons(s, l, t, i);
    if s.target == Some(s.control.process) {
      hide WakeAll;
    } else {
      hide WakeAll, Disarm;
    }
  }

  lemma StopChanges(s: State, l: Label, i: OperationId)
    requires ControlEnabled(s, l) && l.LStop?
    ensures Changes(s, l, ControlApply(s, l), i)
  {
    hide CounterChange;
    PlainCounters(s, l, ControlApply(s, l));
  }

  lemma ClientTable(s: State, l: Label)
    requires ControlEnabled(s, l) && (l.LConnect? || l.LDisconnectRemove?)
    ensures TableChange(s, l, ControlApply(s, l))
  {
  }

  lemma TableOnlyChanges(s: State, l: Label, t: State, i: OperationId)
    requires (l.LConnect? || l.LDisconnectRemove?) && TableChange(s, l, t)
    requires t == s.(nextClient := t.nextClient, clients := t.clients, control := t.control)
    ensures Changes(s, l, t, i)
  {
    CauseLabels(s, l, i);
    hide WorkChange, CounterChange, LeaseChange, ArmChange, TopologyChange, TableChange, EndsLease, ArmSucceeds, ForArm,
      ChangesTopology, FindsExited, RetiresArm, Summons;
    Undisturbed(s, l, t);
    PlainWork(s, l, t);
    PlainCounters(s, l, t);
  }

  lemma ClientChanges(s: State, l: Label, i: OperationId)
    requires ControlEnabled(s, l) && (l.LConnect? || l.LDisconnectRemove?)
    ensures Changes(s, l, ControlApply(s, l), i)
  {
    hide Changes, TableChange;
    var t := ControlApply(s, l);
    assert TableChange(s, l, t) by {
      ClientTable(s, l);
    }
    TableOnlyChanges(s, l, t, i);
  }

  lemma QuiescentIs(s: State)
    requires Invariant(s)
    ensures Quiescent(s) <==> Idle(s)
    ensures s.owner != 0 ==> s.owner in s.clients && s.ownerProcess == Some(s.clients[s.owner])
  {
    hide Operations, WatchFits, EventFits, Balanced, Bounded, Referenced, Ticketed, Claimed;
  }

  /** When a message succeeds. */
  lemma MessageSucceeds(s: State, l: Label)
    requires Invariant(s) && l.LMessage?
    ensures MessageStatus(s, l.client, l.caller, l.action) == Success <==>
            if l.action.Arm? then ArmSucceeds(s, l) else Entitled(s, l)
  {
    QuiescentIs(s);
    hide Invariant, Quiescent, Idle;
  }

  lemma SucceedsEntitled(s: State, l: Label)
    requires ArmSucceeds(s, l)
    ensures l.LMessage? && l.client in s.clients && s.clients[l.client] == l.caller
    ensures s.owner == 0 || s.owner == l.client
  {
  }

  /** A refused message changes nothing. */
  lemma DeniedChanges(s: State, l: Label, i: OperationId)
    requires l.LMessage? && !ArmSucceeds(s, l) && (l.action.Arm? || !Entitled(s, l))
    ensures Changes(s, l, s, i)
  {
    CauseLabels(s, l, i);
    hide ArmSucceeds, CounterChange, LeaseChange, ArmChange, TopologyChange, TableChange, ReasonChange;
    PlainCounters(s, l, s);
    StillChanges(s, l, s, i);
  }

  lemma ArmedChanges(s: State, l: Label, t: State, i: OperationId)
    requires ArmSucceeds(s, l) && l.LMessage? && l.action.Arm?
    requires t.owner == l.client && t.ownerProcess == Some(l.caller)
    requires t.target == Some(l.action.target) && t.armedMode == l.action.mode && t.armedRemaining == l.action.count
    requires t.armedGeneration == s.topologyGeneration == t.topologyGeneration && t.workAvailable
    requires t.stopping == s.stopping && t.instances == s.instances && t.clients == s.clients
    requires t.nextClient == s.nextClient && t.ops == s.ops && t.work == s.work && t.pended == s.pended
    requires t.ledger == s.ledger
    ensures Changes(s, l, t, i)
  {
    CauseLabels(s, l, i);
    hide ArmSucceeds, EndsLease, ForArm, ChangesTopology, FindsExited, Summons, CounterChange;
    PlainCounters(s, l, t);
  }

  lemma ArmChanges(s: State, l: Label, i: OperationId)
    requires Invariant(s) && ControlEnabled(s, l) && l.LMessage? && l.action.Arm?
    ensures Changes(s, l, ControlApply(s, l), i)
  {
    var t := ControlApply(s, l);
    MessageSucceeds(s, l);
    hide Invariant, MessageStatus, ValidRequest, ArmSucceeds, Changes;
    if ArmSucceeds(s, l) {
      SucceedsEntitled(s, l);
      QuiescentIs(s);
      ArmedChanges(s, l, t, i);
    } else {
      assert t == s;
      DeniedChanges(s, l, i);
    }
  }

  lemma GrantedChanges(s: State, l: Label, t: State, i: OperationId)
    requires l.LMessage? && Entitled(s, l) && !l.action.Arm?
    requires t == s.(control := t.control, ops := t.ops)
    requires t.ops == if l.action.Resume? then WakeAll(s.ops, OwnedBy(l.client), 1) else s.ops
    ensures Changes(s, l, t, i)
  {
    CauseLabels(s, l, i);
    hide CounterChange, LeaseChange, ArmChange, TopologyChange, TableChange, Entitled, EndsLease, ArmSucceeds,
      RetiresArm, ForArm, ChangesTopology, FindsExited;
    PlainCounters(s, l, t);
    Undisturbed(s, l, t);
    SameTable(s, l, t);
  }

  lemma RequestChanges(s: State, l: Label, i: OperationId)
    requires Invariant(s) && ControlEnabled(s, l) && l.LMessage? && !l.action.Arm?
    ensures Changes(s, l, ControlApply(s, l), i)
  {
    var t := ControlApply(s, l);
    MessageSucceeds(s, l);
    CauseLabels(s, l, i);
    hide Invariant, MessageStatus, ValidRequest, Entitled, Changes, ArmSucceeds;
    if Entitled(s, l) {
      GrantedChanges(s, l, t, i);
    } else {
      assert t == s;
      DeniedChanges(s, l, i);
    }
  }

  lemma ArmedHas(s: State)
    requires Invariant(s)
    ensures s.armedMode != NoMode <==> s.target.Some?
    ensures s.target.Some? ==> s.armedRemaining > 0 && s.owner != 0 && s.armedGeneration == s.topologyGeneration
  {
    hide Lists, WorkerFits, Operations, LeaseFits, WatchFits, EventFits, Balanced, Bounded, Referenced, Ticketed,
      Claimed;
  }

  predicate SameWork(s: State, t: State) {
    && t.work == s.work && t.pended == s.pended && t.workAvailable == s.workAvailable
    && t.ledger == s.ledger.(created := t.ledger.created, liveContexts := t.ledger.liveContexts)
  }

  lemma PublishKeeps(s: State, l: Label, o: Operation, granted: bool, i: OperationId)
    ensures SameSettings(s, Publish(s, o, granted)) && SameWork(s, Publish(s, o, granted))
    ensures SameReasons(s, Publish(s, o, granted), i) && SameFields(s, l, Publish(s, o, granted), i)
  {
  }

  lemma ConsumeKeeps(s: State, p: Process)
    ensures var t := Consume(s, p);
            && t == s.(target := t.target, armedMode := t.armedMode, armedGeneration := t.armedGeneration,
                       armedRemaining := t.armedRemaining, references := t.references)
            && if s.armedRemaining == 1 then Unarmed(t)
               else SameArm(s, t) && t.armedRemaining == s.armedRemaining - 1
  {
  }

  lemma ClaimKeeps(s: State, l: Label, u: OperationId, p: Process, i: OperationId)
    requires u in s.ops && l.LAdmit?
    ensures SameFields(s, l, Claim(s, u, p), i)
    ensures SameSettings(s, Claim(s, u, p)) && SameWork(s, Claim(s, u, p)) && SameReasons(s, Claim(s, u, p), i)
    ensures Claim(s, u, p).ledger == s.ledger && (i in s.ops ==> i in Claim(s, u, p).ops)
  {
  }

  /** An admission that the arm is for. */
  lemma ForArmChanges(s: State, l: Label, c: State, t: State, i: OperationId)
    requires ForArm(s, l) && SameSettings(c, t) && SameWork(c, t) && SameReasons(c, t, i) && SameFields(c, l, t, i)
    requires c == s.(target := c.target, armedMode := c.armedMode, armedGeneration := c.armedGeneration,
                     armedRemaining := c.armedRemaining, references := c.references)
    requires if s.armedRemaining == 1 then Unarmed(c)
             else SameArm(s, c) && c.armedRemaining == s.armedRemaining - 1
    ensures Changes(s, l, t, i)
  {
    CauseLabels(s, l, i);
    hide WorkChange, CounterChange, FieldChange, SameKind, EndsLease, ArmSucceeds, ForArm, ChangesTopology,
      FindsExited, Summons;
    PlainFields(s, l, t, i);
    PlainWork(s, l, t);
    PlainCounters(s, l, t);
    SameTable(s, l, t);
  }

  lemma UpperChanges(s: State, l: Label, i: OperationId)
    requires CallbackEnabled(s, l) && l.LAdmit? && AdmitsUpper(s, l.instance, l.requestor, l.read) && ForArm(s, l)
    ensures Changes(s, l, CallbackApply(s, l), i)
  {
    var c := Consume(s, l.requestor);
    ConsumeKeeps(s, l.requestor);
    PublishKeeps(c, l, NewOperation(l.instance, false, l.file, l.requestor, l.data, s.armedGeneration, s.owner,
                                 s.armedMode, l.read), l.granted && s.armedMode != FailAlloc, i);
    hide Changes, DataIdle, AdmitsUpper, NewOperation, Publish, Consume, ForArm;
    ForArmChanges(s, l, c, CallbackApply(s, l), i);
  }

  /** The arm has no part in this admission. */
  lemma LowerChanges(s: State, l: Label, i: OperationId)
    requires CallbackEnabled(s, l) && l.LAdmit? && !AdmitsUpper(s, l.instance, l.requestor, l.read) && !ForArm(s, l)
    ensures Changes(s, l, CallbackApply(s, l), i)
  {
    hide Changes, DataIdle, Eligible, AdmitsUpper, NewOperation, ForArm, Publish, Claim;
    var t := CallbackApply(s, l);
    var found := FindPair(s, s.order, l.data, l.file, l.requestor);
    if AdmitsLower(s, l.instance, l.read) && found.Some? {
      var u := s.ops[found.value];
      var c := Claim(s, found.value, l.requestor);
      ClaimKeeps(s, l, found.value, l.requestor, i);
      PublishKeeps(c, l, NewOperation(l.instance, true, l.file, l.requestor, l.data, u.generation, u.owner,
                                   if u.mode == FailReadLock then FailReadLock else Pre, l.read), l.granted, i);
    }
    AsideChanges(s, l, t, i);
  }

  lemma AsideChanges(s: State, l: Label, t: State, i: OperationId)
    requires l.LAdmit? && !ForArm(s, l) && SameSettings(s, t) && SameWork(s, t) && SameReasons(s, t, i)
    requires SameFields(s, l, t, i)
    ensures Changes(s, l, t, i)
  {
    CauseLabels(s, l, i);
    hide WorkChange, CounterChange, FieldChange, LeaseChange, ArmChange, TopologyChange, TableChange, EndsLease,
      ArmSucceeds,
      ForArm, ChangesTopology, FindsExited, RetiresArm, Summons;
    PlainFields(s, l, t, i);
    PlainWork(s, l, t);
    PlainCounters(s, l, t);
    SameTable(s, l, t);
    Undisturbed(s, l, t);
  }

  lemma AdmitChanges(s: State, l: Label, i: OperationId)
    requires Invariant(s) && CallbackEnabled(s, l) && l.LAdmit?
    ensures Changes(s, l, CallbackApply(s, l), i)
  {
    ArmedHas(s);
    hide Invariant, DataIdle, Changes, CallbackApply;
    if AdmitsUpper(s, l.instance, l.requestor, l.read) {
      UpperChanges(s, l, i);
    } else {
      LowerChanges(s, l, i);
    }
  }

  /** Every step of every thread changes exactly what its causes say. */
  lemma StepChanges(s: State, l: Label, i: OperationId)
    requires Invariant(s) && Enabled(s, l)
    ensures Changes(s, l, Apply(s, l), i)
  {
    hide Invariant, Changes, CallbackEnabled, WorkerEnabled, ControlEnabled, SetupEnabled, CallbackApply, WorkerApply,
      ControlApply, SetupApply;
    if l.LAdmit? {
      AdmitChanges(s, l, i);
    } else if l.LQueue? {
      QueueChanges(s, l, i);
    } else if l.LLockBuffer? {
      LockChanges(s, l, i);
    } else if l.LPass? || l.LEnterPost? {
      PassChanges(s, l, i);
    } else if l.LSwap? {
      SwapChanges(s, l, i);
    } else if l.LCount? || l.LDropLogical? {
      FinishChanges(s, l, i);
    } else if CallbackCode(l) {
      DeathChanges(s, l, i);
    } else if l.LVerdict? {
      VerdictChanges(s, l, i);
    } else if l.LWait? || l.LTail? {
      WaitChanges(s, l, i);
    } else if l.LPop? {
      PopChanges(s, l, i);
    } else if l.LDecide? {
      DecideChanges(s, l, i);
    } else if l.LComplete? || l.LDropWorker? {
      ItemChanges(s, l, i);
    } else if WorkerCode(l) {
      LoopChanges(s, l, i);
    } else if l.LMessage? {
      if l.action.Arm? {
        ArmChanges(s, l, i);
      } else {
        RequestChanges(s, l, i);
      }
    } else if l.LExitSweep? {
      ExitSweepChanges(s, l, i);
    } else if l.LStop? {
      StopChanges(s, l, i);
    } else if l.LConnect? || l.LDisconnectRemove? {
      ClientChanges(s, l, i);
    } else if ControlCode(l) {
      ReleaseChanges(s, l, i);
    } else if l.LSetup? || l.LTeardown? {
      InstanceChanges(s, l, i);
    } else if l.LLookup? || l.LDereference? {
      ReferenceChanges(s, l, i);
    } else {
      CountChanges(s, l, i);
    }
  }

  lemma LeaseStep(s: State, l: Label)
    requires Invariant(s) && Enabled(s, l)
    ensures LeaseChange(s, l, Apply(s, l))
    ensures EndsLease(s, l) ==> l.LDisconnect? || l.LExit? || l.LMessageRelease? || l.LStopRelease? || l.LReply?
    ensures ArmSucceeds(s, l) ==> l.LMessage?
  {
    hide Invariant, Enabled, Apply, LeaseChange, ArmChange, TopologyChange, TableChange, ReasonChange, WorkChange,
      CounterChange;
    StepChanges(s, l, 0);
  }
}
