/**
Every action of the callbacks keeps the invariant.
*/
module PendingIoCallbacks {

  import opened Options
  import opened PendingIo
  import opened PendingIoInvariant

  /** The moves of a logical share that is neither queued nor held by the worker. */
  predicate Edge(a: Stage, b: Stage) {
    match a
    case LockBuffer => b == TryPreQueue || b == FinishSwap(InCallback)
    case PassThrough => b == AwaitPost
    case TryPreQueue => b == AwaitPost
    case AwaitPost => b == TryPostQueue || b == FinishSwap(InCallback)
    case TryPostQueue => b == FinishSwap(InCallback)
    case FinishSwap(r) => b == FinishCount(r, true)
    case FinishCount(r, first) => first && b == FinishDrop(r)
    case FinishDrop(r) => b == Done
    case _ => false
  }

  /** The operation after such a move: the release flag and the share follow the stage. */
  predicate Advances(u: Operation, o: Operation) {
    && Edge(u.stage, o.stage)
    && o == u.(stage := o.stage, mdl := o.mdl, logicalReleased := o.logicalReleased,
               references := o.references, life := o.life)
    && (if u.stage == LockBuffer then o.stage == TryPreQueue ==> o.mdl && u.mode != FailReadLock else o.mdl == u.mdl)
    && (o.logicalReleased <==> u.logicalReleased || u.stage.FinishSwap?)
    && o.references == u.references - One(o.stage == Done)
    && o.life == (if o.stage == Done && o.references == 0 then Unlinking else u.life)
  }

  function Accounted(l: Ledger, a: Stage, b: Stage): Ledger {
    l.(postCalled := l.postCalled + One(a == AwaitPost),
       bufferLockFailures := l.bufferLockFailures + One(a == LockBuffer && b.FinishSwap?),
       logicalCompleted := l.logicalCompleted + One(a.FinishCount?))
  }

  lemma EdgeFacts(a: Stage, b: Stage)
    requires Edge(a, b)
    ensures SameHandOver(a, b) && !Queued(a) && !Queued(b)
    ensures RunsIn(b, InWorker) ==> RunsIn(a, InWorker)
    ensures RunsIn(a, InWorker) ==> RunsIn(b, InWorker) || b == Done
  {
  }

  lemma AdvanceIdentity(s: State, i: OperationId, o: Operation)
    requires i in s.ops && Owned(s, i, s.ops[i]) && Advances(s.ops[i], o)
    ensures SameIdentity(s.ops[i], o) && Edge(s.ops[i].stage, o.stage)
    ensures o.life != Unlinked && s.ops[i].life != Unlinked
  {
  }

  lemma AdvanceOwned(s: State, t: State, i: OperationId, o: Operation)
    requires i in s.ops && Owned(s, i, s.ops[i]) && Advances(s.ops[i], o) && t.worker == s.worker
    ensures Owned(t, i, o)
  {
    EdgeFacts(s.ops[i].stage, o.stage);
  }

  lemma AdvanceRouted(s: State, t: State, i: OperationId, o: Operation)
    requires i in s.ops && Routed(s, s.ops[i]) && Advances(s.ops[i], o) && t.instances == s.instances
    ensures Routed(t, o)
  {
    EdgeFacts(s.ops[i].stage, o.stage);
  }

  lemma AdvanceSwept(s: State, t: State, i: OperationId, o: Operation)
    requires i in s.ops && Routed(s, s.ops[i]) && Owned(s, i, s.ops[i]) && Swept(s, s.ops[i]) && Advances(s.ops[i], o)
    requires t.instances == s.instances && t.owner == s.owner && t.stopping == s.stopping
    requires t.topologyGeneration == s.topologyGeneration
    ensures o.instance in t.instances && Swept(t, o)
  {
  }

  lemma AdvanceWorker(s: State, t: State, i: OperationId, o: Operation)
    requires WorkerFits(s) && i in s.ops && Owned(s, i, s.ops[i]) && Advances(s.ops[i], o)
    requires t.worker == s.worker && t.ops == s.ops[i := o]
    requires t.ledger.activeWorkers == s.ledger.activeWorkers && t.ledger.created == s.ledger.created
    ensures WorkerFits(t)
  {
    EdgeFacts(s.ops[i].stage, o.stage);
  }

  lemma AdvanceBalanced(s: State, t: State, i: OperationId, o: Operation)
    requires Balanced(s) && i in s.ops && ChangesOnly(s, t, i, o) && Edge(s.ops[i].stage, o.stage)
    requires t.ledger == Accounted(s.ledger, s.ops[i].stage, o.stage)
    ensures Balanced(t)
  {
    BalancedAfter(s, t, i, o);
  }

  /** A thread that holds the logical share moves it on, without touching the lists or the hand-overs. */
  lemma ShareMoves(s: State, t: State, i: OperationId, o: Operation)
    requires Invariant(s) && i in s.ops && Advances(s.ops[i], o)
    requires t == s.(ops := s.ops[i := o], ledger := Accounted(s.ledger, s.ops[i].stage, o.stage))
    ensures Invariant(t)
  {
    hide Lists, WorkerFits, Operations, ArmFits, LeaseFits, WatchFits, Balanced, Bounded, Referenced, Ticketed, Claimed,
      Owned, Routed, Swept, Edge, Advances, SameHandOver, SameIdentity;
    Facts(s, i);
    AdvanceIdentity(s, i, o);
    EdgeFacts(s.ops[i].stage, o.stage);
    AdvanceOwned(s, t, i, o);
    AdvanceRouted(s, t, i, o);
    AdvanceSwept(s, t, i, o);
    AdvanceWorker(s, t, i, o);
    AdvanceBalanced(s, t, i, o);
    ListsAfter(s, t, i, o);
    OperationsAfter(s, t, i, o);
    ReferencedAfter(s, t, i, o);
    BoundedAfter(s, t, i, o);
    TicketedAfter(s, t, i, o);
    ClaimedAfter(s, t, i, o);
    ControlAfter(s, t, i, o);
  }

  /** The release flag and the count fit the stages of FinishLogical. */
  lemma FinishFacts(s: State, i: OperationId)
    requires Invariant(s) && i in s.ops
    ensures s.ops[i].stage.FinishSwap? ==> !s.ops[i].logicalReleased
    ensures s.ops[i].stage.FinishCount? ==> s.ops[i].stage.first
    ensures s.ops[i].life != Unlinked || s.ops[i].stage == Done
  {
    hide Lists, WorkerFits, ArmFits, LeaseFits, WatchFits, EventFits, Balanced, Bounded, Referenced, Ticketed, Claimed,
      Routed, Swept;
    Facts(s, i);
  }

  lemma DropKeeps(s: State, l: Label)
    requires Invariant(s) && CallbackEnabled(s, l) && l.LDropLogical?
    ensures Invariant(CallbackApply(s, l))
  {
    hide Invariant, DataIdle;
    var t := CallbackApply(s, l);
    ShareMoves(s, t, l.op, t.ops[l.op]);
  }

  /** The sections of a callback that only move the share on. */
  lemma MoveKeeps(s: State, l: Label)
    requires Invariant(s) && CallbackEnabled(s, l) && (l.LLockBuffer? || l.LPass? || l.LEnterPost?)
    ensures Invariant(CallbackApply(s, l))
  {
    hide Invariant, DataIdle, PostMode, Drop;
    var t := CallbackApply(s, l);
    ShareMoves(s, t, l.op, t.ops[l.op]);
  }

  /** The swap and the count of FinishLogical. */
  lemma FinishKeeps(s: State, l: Label)
    requires Invariant(s) && CallbackEnabled(s, l) && (l.LSwap? || l.LCount?)
    ensures Invariant(CallbackApply(s, l))
  {
    hide Invariant;
    var t := CallbackApply(s, l);
    FinishFacts(s, l.op);
    ShareMoves(s, t, l.op, t.ops[l.op]);
  }

  // ---------------------------------------------------------------------------------------------
  // Queue
  // ---------------------------------------------------------------------------------------------

  predicate Enqueues(s: State, t: State, i: OperationId, o: Operation, post: bool)
    requires i in s.ops
  {
    var u := s.ops[i];
    && u.stage == (if post then TryPostQueue else TryPreQueue)
    && u.wakeReason < 2
    && o == u.(references := u.references + 1, data := Some(u.preIdentity), postWork := post,
               wakeReason := o.wakeReason, resume := o.resume, stage := if post then PostQueued else PreQueued)
    && o.wakeReason == (if post then 0 else u.wakeReason)
    && t == s.(ops := s.ops[i := o], work := s.work + [i], workAvailable := true,
               pended := s.pended + multiset{Ticket(i, u.preIdentity, post)},
               ledger := s.ledger.(queueDepth := s.ledger.queueDepth + 1,
                                   preQueued := s.ledger.preQueued + One(!post),
                                   postQueued := s.ledger.postQueued + One(post)))
  }

  lemma EnqueueLists(s: State, t: State, i: OperationId, o: Operation, post: bool)
    requires Lists(s) && i in s.ops && Enqueues(s, t, i, o, post)
    ensures Lists(t)
  {
    Snoc(s.work, i);
  }

  lemma EnqueueOwned(s: State, t: State, i: OperationId, o: Operation, post: bool)
    requires i in s.ops && Enqueues(s, t, i, o, post)
    requires Owned(s, i, s.ops[i]) && Routed(s, s.ops[i]) && Swept(s, s.ops[i])
    requires !s.stopping && !s.instances[s.ops[i].instance].stopping
    ensures Owned(t, i, o) && Routed(t, o) && Swept(t, o)
  {
  }

  lemma EnqueueTicketed(s: State, t: State, i: OperationId, o: Operation, post: bool)
    requires Ticketed(s) && i in s.ops && i < s.ledger.created && Enqueues(s, t, i, o, post)
    ensures Ticketed(t)
  {
    var mine := Ticket(i, s.ops[i].preIdentity, post);
    forall k: Ticket ensures TicketFits(t, k) {
      assert TicketFits(s, k);
      assert t.pended[k] == s.pended[k] + One(k == mine);
    }
  }

  lemma EnqueueChanges(s: State, t: State, i: OperationId, o: Operation, post: bool)
    requires WorkerFits(s) && EventFits(s) && Balanced(s) && i in s.ops && Enqueues(s, t, i, o, post)
    requires Owned(s, i, s.ops[i])
    requires !s.stopping
    ensures ChangesOnly(s, t, i, o) && SameIdentity(s.ops[i], o) && o.life != Unlinked && s.ops[i].life != Unlinked
    ensures WorkerFits(t) && EventFits(t) && Balanced(t)
  {
    BalancedAfter(s, t, i, o);
  }

  lemma EnqueueKeeps(s: State, t: State, i: OperationId, o: Operation, post: bool)
    requires Invariant(s) && i in s.ops && Enqueues(s, t, i, o, post)
    requires s.ops[i].instance in s.instances && !s.stopping && !s.instances[s.ops[i].instance].stopping
    ensures Invariant(t)
  {
    hide Lists, WorkerFits, Operations, ArmFits, LeaseFits, WatchFits, EventFits, Balanced, Bounded, Referenced,
      Ticketed, Claimed, Owned, Routed, Swept;
    Facts(s, i);
    EnqueueChanges(s, t, i, o, post);
    EnqueueOwned(s, t, i, o, post);
    CreatedBefore(s, i);
    EnqueueLists(s, t, i, o, post);
    EnqueueTicketed(s, t, i, o, post);
    OperationsAfter(s, t, i, o);
    ReferencedAfter(s, t, i, o);
    BoundedAfter(s, t, i, o);
    ClaimedAfter(s, t, i, o);
    ControlAfter(s, t, i, o);
  }

  lemma RefusedKeeps(s: State, i: OperationId, post: bool)
    requires Invariant(s) && i in s.ops && s.ops[i].stage == (if post then TryPostQueue else TryPreQueue)
    requires s.ops[i].instance in s.instances && Refused(s, s.ops[i], post)
    ensures Invariant(Queue(s, i, post))
  {
    hide Invariant;
    var t := Queue(s, i, post);
    ShareMoves(s, t, i, t.ops[i]);
  }

  lemma QueueKeeps(s: State, i: OperationId, post: bool)
    requires Invariant(s) && i in s.ops && s.ops[i].stage == (if post then TryPostQueue else TryPreQueue)
    requires s.ops[i].instance in s.instances
    ensures Invariant(Queue(s, i, post))
  {
    hide Invariant;
    if Refused(s, s.ops[i], post) {
      RefusedKeeps(s, i, post);
    } else {
      var t := Queue(s, i, post);
      EnqueueKeeps(s, t, i, t.ops[i], post);
    }
  }

  // ---------------------------------------------------------------------------------------------
  // The end of an operation
  // ---------------------------------------------------------------------------------------------

  lemma UnlinkLists(s: State, i: OperationId)
    requires Lists(s) && i in s.ops && s.ops[i].life == Unlinking
    ensures Lists(Unlink(s, i)) && |Unlink(s, i).order| == |s.order| - 1
  {
    WithoutIs(s.order, i);
  }

  lemma UnlinkBounded(s: State, i: OperationId)
    requires Bounded(s) && i in s.ops && |Unlink(s, i).order| == |s.order| - 1
    ensures Bounded(Unlink(s, i))
  {
    CountSet(s.ops, i, s.ops[i].(life := Unlinked), UnclaimedUpper);
  }

  /** The part of unlinking that touches neither the list nor the bound on it. */
  lemma UnlinkOthers(s: State, i: OperationId)
    requires Operations(s) && WorkerFits(s) && EventFits(s) && Balanced(s) && Referenced(s) && Ticketed(s) && Claimed(s)
    requires i in s.ops && s.ops[i].life == Unlinking
    ensures Operations(Unlink(s, i)) && WorkerFits(Unlink(s, i)) && EventFits(Unlink(s, i))
    ensures Balanced(Unlink(s, i)) && Referenced(Unlink(s, i)) && Ticketed(Unlink(s, i)) && Claimed(Unlink(s, i))
  {
    hide Operations, Balanced, Referenced, Ticketed, Claimed, Swept, Routed, Without;
    var o := s.ops[i].(life := Unlinked);
    var t := Unlink(s, i);
    var mid := s.(ops := s.ops[i := o]);
    Facts(s, i);
    UnlinkOwned(s, i);
    OperationsAfter(s, mid, i, o);
    BalancedAfter(s, mid, i, o);
    ReferencedAfter(s, mid, i, o);
    TicketedAfter(s, mid, i, o);
    ClaimedAfter(s, mid, i, o);
    UnlinkRest(mid, t);
  }

  lemma UnlinkOwned(s: State, i: OperationId)
    requires i in s.ops && s.ops[i].life == Unlinking
    requires Owned(s, i, s.ops[i]) && Routed(s, s.ops[i]) && Swept(s, s.ops[i])
    ensures var o := s.ops[i].(life := Unlinked); var mid := s.(ops := s.ops[i := o]);
            Owned(mid, i, o) && Routed(mid, o) && Swept(mid, o)
  {
  }

  lemma UnlinkRest(s: State, t: State)
    requires t == s.(order := t.order,
                     ledger := s.ledger.(liveContexts := t.ledger.liveContexts, freed := t.ledger.freed))
    ensures Operations(s) ==> Operations(t)
    ensures Balanced(s) ==> Balanced(t)
    ensures Referenced(s) ==> Referenced(t)
    ensures Ticketed(s) ==> Ticketed(t)
    ensures Claimed(s) ==> Claimed(t)
  {
    if Referenced(s) {
      forall p: Process ensures t.references[p] == Holders(t, p) { assert s.references[p] == Holders(s, p); }
    }
    if Ticketed(s) {
      forall k: Ticket ensures TicketFits(t, k) { assert TicketFits(s, k); }
    }
    if Claimed(s) {
      forall i: OperationId ensures ClaimFits(t, i) { assert ClaimFits(s, i); }
    }
  }

  lemma UnlinkKeeps(s: State, i: OperationId)
    requires Invariant(s) && i in s.ops && s.ops[i].life == Unlinking
    ensures Invariant(Unlink(s, i))
  {
    hide Lists, WorkerFits, Operations, EventFits, Balanced, Bounded, Referenced, Ticketed, Claimed;
    UnlinkLists(s, i);
    UnlinkBounded(s, i);
    UnlinkOthers(s, i);
  }

  lemma FreeCounts(s: State, i: OperationId)
    requires Balanced(s) && Bounded(s) && i in s.ops && s.ops[i].life == Unlinked && s.ops[i].stage == Done
    ensures Balanced(FreeOperation(s, i)) && Bounded(FreeOperation(s, i))
  {
    CountRemove(s.ops, i, Unsettled);
    CountRemove(s.ops, i, Uncounted);
    CountRemove(s.ops, i, PreOutstanding);
    CountRemove(s.ops, i, PostOutstanding);
    CountRemove(s.ops, i, UnclaimedUpper);
  }

  lemma FreeStructure(s: State, i: OperationId)
    requires Lists(s) && WorkerFits(s) && EventFits(s)
    requires i in s.ops && s.ops[i].life == Unlinked && Owned(s, i, s.ops[i])
    ensures s.ops[i].stage == Done
    ensures Lists(FreeOperation(s, i)) && WorkerFits(FreeOperation(s, i)) && EventFits(FreeOperation(s, i))
  {
  }

  lemma FreeHistory(s: State, i: OperationId)
    requires Ticketed(s) && Claimed(s) && Referenced(s) && i in s.ops && s.ops[i].stage == Done
    ensures Ticketed(FreeOperation(s, i)) && Claimed(FreeOperation(s, i)) && Referenced(FreeOperation(s, i))
  {
    hide Count;
    var t := FreeOperation(s, i);
    forall k: Ticket ensures TicketFits(t, k) { assert TicketFits(s, k); }
    forall j: OperationId ensures ClaimFits(t, j) { assert ClaimFits(s, j); }
    forall p: Process ensures t.references[p] == Holders(t, p) {
      assert s.references[p] == Holders(s, p);
      CountRemove(s.ops, i, For(p));
    }
  }

  lemma FreeOperations(s: State, i: OperationId)
    requires Operations(s) && i in s.ops
    ensures Operations(FreeOperation(s, i))
  {
    var t := FreeOperation(s, i);
    forall j | j in t.ops ensures Owned(t, j, t.ops[j]) && Routed(t, t.ops[j]) && Swept(t, t.ops[j]) {
      Facts(s, j);
    }
  }

  lemma FreeKeeps(s: State, i: OperationId)
    requires Invariant(s) && i in s.ops && s.ops[i].life == Unlinked
    ensures Invariant(FreeOperation(s, i))
  {
    hide Lists, WorkerFits, Operations, EventFits, Balanced, Bounded, Referenced, Ticketed, Claimed, Owned, Routed,
      Swept;
    Facts(s, i);
    FreeStructure(s, i);
    FreeCounts(s, i);
    FreeHistory(s, i);
    FreeOperations(s, i);
  }
}
