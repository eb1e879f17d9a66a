/**
Every action of the completion worker keeps the invariant.
*/
module PendingIoWorker {

  import opened Options
  import opened PendingIo
  import opened PendingIoInvariant

  // ---------------------------------------------------------------------------------------------
  // Moves that concern no operation's state
  // ---------------------------------------------------------------------------------------------

  /** `t` is `s` with the worker elsewhere; the event, the control lock and the references may change too. */
  predicate WorkerOnly(s: State, t: State) {
    t == s.(worker := t.worker, workAvailable := t.workAvailable, control := t.control,
            references := t.references, locals := t.locals,
            ledger := s.ledger.(activeWorkers := t.ledger.activeWorkers))
  }

  lemma WorkerOnlyLists(s: State, t: State)
    requires Lists(s) && Balanced(s) && Bounded(s) && Ticketed(s) && Claimed(s) && WorkerOnly(s, t)
    ensures Lists(t) && Balanced(t) && Bounded(t) && Ticketed(t) && Claimed(t)
  {
    forall k: Ticket ensures TicketFits(t, k) { assert TicketFits(s, k); }
    forall j: OperationId ensures ClaimFits(t, j) { assert ClaimFits(s, j); }
  }

  lemma WorkerOnlyOperations(s: State, t: State)
    requires Operations(s) && WorkerOnly(s, t)
    requires forall i | i in s.ops :: WorkerHolds(t.worker, i) <==> WorkerHolds(s.worker, i)
    requires forall i | i in s.ops && WorkerHolds(s.worker, i) ::
               t.worker == s.worker || (t.worker.Dropping? && s.ops[i].stage == Done)
    ensures Operations(t)
  {
    forall i | i in t.ops ensures Owned(t, i, t.ops[i]) && Routed(t, t.ops[i]) && Swept(t, t.ops[i]) {
      assert Owned(s, i, s.ops[i]) && Routed(s, s.ops[i]) && Swept(s, s.ops[i]);
    }
  }

  lemma WorkerOnlyReferenced(s: State, t: State)
    requires Referenced(s) && WorkerOnly(s, t)
    requires t.references == s.references && t.locals == s.locals && !s.worker.Probing? && !t.worker.Probing?
    ensures Referenced(t)
  {
    forall p: Process ensures t.references[p] == Holders(t, p) { assert s.references[p] == Holders(s, p); }
  }

  lemma WorkerOnlyControl(s: State, t: State)
    requires ArmFits(s) && LeaseFits(s) && WorkerOnly(s, t)
    requires t.control == s.control
             || ((t.control == Free || t.control == WorkerWatch) && s.control in {Free, WorkerWatch})
    ensures ArmFits(t) && LeaseFits(t)
  {
  }

  /** A move between two positions at which the worker works on nothing. */
  lemma IdleMove(s: State, t: State)
    requires Invariant(s) && WorkerOnly(s, t)
    requires t.references == s.references && t.locals == s.locals && t.control == s.control
    requires !s.worker.Probing? && !t.worker.Probing?
    requires !InWorkItem(t.worker) || t.worker.Tail?
    requires !InWorkItem(s.worker) || s.worker.Tail? || (s.worker.Freeing? && s.worker.op !in s.ops)
    requires t.ledger.activeWorkers == One(t.worker.Tail?)
    requires EventFits(t)
    ensures Invariant(t)
  {
    hide Lists, Operations, ArmFits, LeaseFits, Balanced, Bounded, Referenced, Ticketed, Claimed;
    WorkerOnlyLists(s, t);
    WorkerOnlyOperations(s, t);
    WorkerOnlyReferenced(s, t);
    WorkerOnlyControl(s, t);
  }

  /** The worker's sections between two work items. */
  predicate MovesIdly(s: State, l: Label) {
    l.LStart? || l.LSample? || l.LWait? || l.LFreed? || l.LTail? || (l.LPop? && s.work == [])
  }

  lemma IdleKeeps(s: State, l: Label)
    requires Invariant(s) && WorkerEnabled(s, l) && MovesIdly(s, l)
    ensures Invariant(WorkerApply(s, l))
  {
    hide Lists, Operations, ArmFits, LeaseFits, Balanced, Bounded, Referenced, Ticketed, Claimed;
    IdleMove(s, WorkerApply(s, l));
  }

  lemma FinishedKeeps(s: State)
    requires Invariant(s) && s.worker.Finishing? && s.worker.op in s.ops && s.ops[s.worker.op].stage == Done
    ensures Invariant(s.(worker := Dropping(s.worker.op)))
  {
    hide Lists, Operations, ArmFits, LeaseFits, Balanced, Bounded, Referenced, Ticketed, Claimed;
    var t := s.(worker := Dropping(s.worker.op));
    WorkerOnlyLists(s, t);
    WorkerOnlyOperations(s, t);
    WorkerOnlyReferenced(s, t);
    WorkerOnlyControl(s, t);
  }

  lemma SnapshotKeeps(s: State)
    requires Invariant(s) && s.worker == Watch && s.control == Free
    ensures Invariant(Snapshot(s))
  {
    hide Lists, Operations, ArmFits, LeaseFits, Balanced, Bounded, Referenced, Ticketed, Claimed;
    var t := Snapshot(s);
    if s.target.None? {
      IdleMove(s, t);
    } else {
      WorkerOnlyLists(s, t);
      WorkerOnlyOperations(s, t);
      SnapshotReferenced(s);
      WorkerOnlyControl(s, t);
    }
  }

  lemma SnapshotReferenced(s: State)
    requires Referenced(s) && s.worker == Watch && s.target.Some?
    ensures Referenced(Snapshot(s))
  {
    var t := Snapshot(s);
    forall p: Process ensures t.references[p] == Holders(t, p) { assert s.references[p] == Holders(s, p); }
  }

  // ---------------------------------------------------------------------------------------------
  // One work item: take, decide, complete, drop
  // ---------------------------------------------------------------------------------------------

  /** What the accounts need to know about the step of one work item. */
  lemma ItemAfter(s: State, t: State, i: OperationId, o: Operation)
    requires ArmFits(s) && LeaseFits(s) && WatchFits(s) && Bounded(s) && Referenced(s) && Claimed(s)
    requires i in s.ops && ChangesOnly(s, t, i, o) && SameIdentity(s.ops[i], o)
    requires (o.life == Unlinked) == (s.ops[i].life == Unlinked)
    requires !s.worker.Probing? && !t.worker.Probing? && t.ledger.created == s.ledger.created
    ensures ArmFits(t) && LeaseFits(t) && WatchFits(t) && Bounded(t) && Referenced(t) && Claimed(t)
  {
    hide ArmFits, LeaseFits, WatchFits, Bounded, Referenced, Claimed, SameIdentity;
    ControlAfter(s, t, i, o);
    BoundedAfter(s, t, i, o);
    ReferencedAfter(s, t, i, o);
    ClaimedAfter(s, t, i, o);
  }

  predicate Takes(s: State, t: State, i: OperationId, o: Operation)
    requires i in s.ops
  {
    && s.worker == Draining && s.work != [] && s.work[0] == i
    && o == s.ops[i].(stage := if s.ops[i].postWork then PostHeld else PreHeld)
    && t == s.(ops := s.ops[i := o], work := s.work[1..], worker := Holding(i, s.ops[i].postWork),
               ledger := s.ledger.(queueDepth := s.ledger.queueDepth - 1, activeWorkers := s.ledger.activeWorkers + 1))
  }

  lemma TakeLists(s: State, t: State, i: OperationId, o: Operation)
    requires Lists(s) && i in s.ops && Takes(s, t, i, o)
    ensures Lists(t)
  {
    Uncons(s.work);
  }

  lemma TakeOwned(s: State, t: State, i: OperationId, o: Operation)
    requires i in s.ops && Takes(s, t, i, o) && Queued(s.ops[i].stage)
    requires Owned(s, i, s.ops[i]) && Routed(s, s.ops[i]) && Swept(s, s.ops[i])
    ensures Owned(t, i, o) && Routed(t, o) && Swept(t, o)
    ensures SameHandOver(s.ops[i].stage, o.stage) && SameIdentity(s.ops[i], o) && ChangesOnly(s, t, i, o)
    ensures o.life != Unlinked && s.ops[i].life != Unlinked
    ensures forall c :: InClass(o, c) == InClass(s.ops[i], c)
    ensures MovesAt(s.worker, t.worker, i)
  {
  }

  lemma TakeWorker(s: State, t: State, i: OperationId, o: Operation)
    requires WorkerFits(s) && EventFits(s) && i in s.ops && Takes(s, t, i, o)
    ensures WorkerFits(t) && EventFits(t)
  {
  }

  lemma WorkQueued(s: State)
    requires Lists(s) && s.work != []
    ensures s.work[0] in s.ops && Queued(s.ops[s.work[0]].stage)
  {
    assert s.work[0] in s.work;
  }

  lemma TakeKeeps(s: State)
    requires Invariant(s) && s.worker == Draining && s.work != [] && s.work[0] in s.ops
    ensures Invariant(Pop(s))
  {
    hide Lists, WorkerFits, Operations, ArmFits, LeaseFits, WatchFits, EventFits, Balanced, Bounded, Referenced,
      Ticketed, Claimed, Owned, Routed, Swept, SameIdentity, SameHandOver, InClass;
    var t, i := Pop(s), s.work[0];
    var o := t.ops[i];
    Facts(s, i);
    WorkQueued(s);
    TakeOwned(s, t, i, o);
    TakeLists(s, t, i, o);
    TakeWorker(s, t, i, o);
    OperationsAfter(s, t, i, o);
    BalancedAfter(s, t, i, o);
    TicketedAfter(s, t, i, o);
    ItemAfter(s, t, i, o);
  }

  predicate Decides(s: State, t: State, i: OperationId, o: Operation, post: bool, cancel: bool)
    requires i in s.ops
  {
    && s.worker == Holding(i, post)
    && o == s.ops[i].(stage := if post then PostDecided else PreDecided(cancel))
    && t == s.(ops := s.ops[i := o], worker := Completing(i, post, cancel),
               ledger := s.ledger.(postCompleted := s.ledger.postCompleted + One(post),
                                   preCompleted := s.ledger.preCompleted + One(!post),
                                   preCancelled := s.ledger.preCancelled + One(!post && cancel)))
  }

  lemma DecideOwned(s: State, t: State, i: OperationId, o: Operation, post: bool, cancel: bool)
    requires i in s.ops && Decides(s, t, i, o, post, cancel) && WorkerFits(s)
    requires Owned(s, i, s.ops[i]) && Routed(s, s.ops[i]) && Swept(s, s.ops[i])
    ensures Owned(t, i, o) && Routed(t, o) && Swept(t, o)
    ensures SameHandOver(s.ops[i].stage, o.stage) && SameIdentity(s.ops[i], o) && ChangesOnly(s, t, i, o)
    ensures o.life != Unlinked && s.ops[i].life != Unlinked && !Queued(o.stage) && !Queued(s.ops[i].stage)
    ensures MovesAt(s.worker, t.worker, i)
  {
  }

  lemma DecideAccounts(s: State, t: State, i: OperationId, o: Operation, post: bool, cancel: bool)
    requires WorkerFits(s) && EventFits(s) && Balanced(s) && i in s.ops && Decides(s, t, i, o, post, cancel)
    ensures WorkerFits(t) && EventFits(t) && Balanced(t)
  {
    hide Balanced;
    BalancedAfter(s, t, i, o);
  }

  lemma DecidedKeeps(s: State, t: State, i: OperationId, o: Operation, post: bool, cancel: bool)
    requires Invariant(s) && i in s.ops && Decides(s, t, i, o, post, cancel)
    ensures Invariant(t)
  {
    hide Lists, WorkerFits, Operations, ArmFits, LeaseFits, WatchFits, EventFits, Balanced, Bounded, Referenced,
      Ticketed, Claimed, Owned, Routed, Swept, SameIdentity, SameHandOver, InClass;
    Facts(s, i);
    DecideOwned(s, t, i, o, post, cancel);
    DecideAccounts(s, t, i, o, post, cancel);
    ListsAfter(s, t, i, o);
    OperationsAfter(s, t, i, o);
    TicketedAfter(s, t, i, o);
    ItemAfter(s, t, i, o);
  }

  /** A queued READ always has its pages locked, so the worker's guard against a missing MDL never fires. */
  lemma MdlPresent(s: State)
    requires Operations(s) && WorkerFits(s) && s.worker.Holding?
    ensures s.worker.op in s.ops && s.ops[s.worker.op].instance in s.instances
    ensures !s.worker.post && s.ops[s.worker.op].read ==> s.ops[s.worker.op].mdl
  {
    Facts(s, s.worker.op);
  }

  lemma DecideKeeps(s: State, waited: bool)
    requires Invariant(s) && s.worker.Holding? && s.worker.op in s.ops && s.ops[s.worker.op].instance in s.instances
    ensures Invariant(Decide(s, waited))
  {
    hide Lists, WorkerFits, Operations, ArmFits, LeaseFits, WatchFits, EventFits, Balanced, Bounded, Referenced,
      Ticketed, Claimed;
    MdlPresent(s);
    var t, i, post := Decide(s, waited), s.worker.op, s.worker.post;
    DecidedKeeps(s, t, i, t.ops[i], post, Cancels(s, s.ops[i], post, waited));
  }

  predicate Completes(s: State, t: State, i: OperationId, o: Operation, post: bool, cancel: bool)
    requires i in s.ops
  {
    && s.worker == Completing(i, post, cancel)
    && s.ops[i].data.Some?
    && o == s.ops[i].(stage := if post || cancel then FinishSwap(InWorker) else AwaitPost)
    && t == s.(ops := s.ops[i := o], worker := if post || cancel then Finishing(i) else Dropping(i),
               completed := s.completed + multiset{Ticket(i, s.ops[i].data.value, post)})
  }

  lemma CompleteOwned(s: State, t: State, i: OperationId, o: Operation, post: bool, cancel: bool)
    requires i in s.ops && Completes(s, t, i, o, post, cancel) && WorkerFits(s)
    requires Owned(s, i, s.ops[i]) && Routed(s, s.ops[i]) && Swept(s, s.ops[i])
    ensures Owned(t, i, o) && Routed(t, o) && Swept(t, o)
    ensures SameIdentity(s.ops[i], o) && ChangesOnly(s, t, i, o)
    ensures o.life != Unlinked && s.ops[i].life != Unlinked && !Queued(o.stage) && !Queued(s.ops[i].stage)
    ensures MovesAt(s.worker, t.worker, i)
    ensures Outstanding(s.ops[i].stage, post) && s.ops[i].data == Some(s.ops[i].preIdentity)
  {
  }

  lemma CompleteAccounts(s: State, t: State, i: OperationId, o: Operation, post: bool, cancel: bool)
    requires WorkerFits(s) && EventFits(s) && Balanced(s) && i in s.ops && Completes(s, t, i, o, post, cancel)
    ensures WorkerFits(t) && EventFits(t) && Balanced(t)
  {
    hide Balanced;
    BalancedAfter(s, t, i, o);
  }

  lemma CompleteTicketed(s: State, t: State, i: OperationId, o: Operation, post: bool, cancel: bool)
    requires Ticketed(s) && i in s.ops && Completes(s, t, i, o, post, cancel)
    requires Outstanding(s.ops[i].stage, post) && s.ops[i].data == Some(s.ops[i].preIdentity)
    ensures Ticketed(t)
  {
    var mine := Ticket(i, s.ops[i].preIdentity, post);
    forall k: Ticket ensures TicketFits(t, k) {
      assert TicketFits(s, k);
      assert t.completed[k] == s.completed[k] + One(k == mine);
    }
  }

  lemma CompletedKeeps(s: State, t: State, i: OperationId, o: Operation, post: bool, cancel: bool)
    requires Invariant(s) && i in s.ops && Completes(s, t, i, o, post, cancel)
    ensures Invariant(t)
  {
    hide Lists, WorkerFits, Operations, ArmFits, LeaseFits, WatchFits, EventFits, Balanced, Bounded, Referenced,
      Ticketed, Claimed, Owned, Routed, Swept, SameIdentity, InClass;
    Facts(s, i);
    CompleteOwned(s, t, i, o, post, cancel);
    CompleteAccounts(s, t, i, o, post, cancel);
    CompleteTicketed(s, t, i, o, post, cancel);
    ListsAfter(s, t, i, o);
    OperationsAfter(s, t, i, o);
    ItemAfter(s, t, i, o);
  }

  lemma CompleteKeeps(s: State)
    requires Invariant(s) && s.worker.Completing? && s.worker.op in s.ops && s.ops[s.worker.op].data.Some?
    ensures Invariant(Complete(s))
  {
    hide Invariant;
    var t, i := Complete(s), s.worker.op;
    CompletedKeeps(s, t, i, t.ops[i], s.worker.post, s.worker.cancel);
  }

  predicate Drops(s: State, t: State, i: OperationId, o: Operation)
    requires i in s.ops
  {
    && s.worker == Dropping(i) && o == Drop(s.ops[i])
    && t == s.(ops := s.ops[i := o], worker := if o.references == 0 then Freeing(i) else Tail)
  }

  lemma DropOwned(s: State, t: State, i: OperationId, o: Operation)
    requires i in s.ops && Drops(s, t, i, o) && WorkerFits(s)
    requires Owned(s, i, s.ops[i]) && Routed(s, s.ops[i]) && Swept(s, s.ops[i])
    ensures Owned(t, i, o) && Routed(t, o) && Swept(t, o)
    ensures SameIdentity(s.ops[i], o) && ChangesOnly(s, t, i, o) && o.stage == s.ops[i].stage
    ensures o.life != Unlinked && s.ops[i].life != Unlinked
    ensures forall c :: InClass(o, c) == InClass(s.ops[i], c)
    ensures MovesAt(s.worker, t.worker, i)
  {
  }

  lemma DropWorkerFits(s: State, t: State, i: OperationId, o: Operation)
    requires WorkerFits(s) && EventFits(s) && i in s.ops && i < s.ledger.created && Drops(s, t, i, o)
    ensures WorkerFits(t) && EventFits(t)
  {
  }

  lemma DroppedKeeps(s: State, t: State, i: OperationId, o: Operation)
    requires Invariant(s) && i in s.ops && Drops(s, t, i, o)
    ensures Invariant(t)
  {
    hide Lists, WorkerFits, Operations, ArmFits, LeaseFits, WatchFits, EventFits, Balanced, Bounded, Referenced,
      Ticketed, Claimed, Owned, Routed, Swept, SameIdentity, InClass;
    Facts(s, i);
    CreatedBefore(s, i);
    DropOwned(s, t, i, o);
    DropWorkerFits(s, t, i, o);
    ListsAfter(s, t, i, o);
    OperationsAfter(s, t, i, o);
    BalancedAfter(s, t, i, o);
    TicketedAfter(s, t, i, o);
    ItemAfter(s, t, i, o);
  }

  lemma DropWorkerKeeps(s: State)
    requires Invariant(s) && s.worker.Dropping? && s.worker.op in s.ops
    ensures Invariant(DropWorker(s))
  {
    hide Invariant;
    var t, i := DropWorker(s), s.worker.op;
    DroppedKeeps(s, t, i, t.ops[i]);
  }
}
