/**
What every run of the pended-I/O protocol guarantees.
*/
module PendingIoTheorems {

  import opened Options
  import opened PendingIo
  import opened PendingIoInvariant
  import opened PendingIoRuns
  import opened PendingIoGrowth
  import opened PendingIoOrder

  // ---------------------------------------------------------------------------------------------
  // Lifetime
  // ---------------------------------------------------------------------------------------------

  /** The reference count is the sum of the three shares, and only its end unlinks the operation. */
  lemma Lifetime(r: Run, k: nat, i: OperationId)
    requires IsRun(r) && k < |r.states| && i in r.states[k].ops
    ensures var s := r.states[k]; var o := s.ops[i];
            && o.references == LogicalShare(o) + QueueShare(o) + WorkerShare(s.worker, i)
            && 0 <= o.references <= 3
            && (o.references == 0 <==> o.life != Linked)
            && (o.life != Linked ==> o.stage == Done && o.logicalReleased)
  {
    hide IsRun, Lists, WorkerFits, ArmFits, LeaseFits, WatchFits, EventFits, Balanced, Bounded, Referenced, Ticketed,
      Claimed, Routed, Swept;
    RunKeeps(r, k);
    Facts(r.states[k], i);
  }

  /** Whoever can still touch an operation finds it allocated, and a share holder finds its count above zero. */
  lemma NoUseAfterFree(r: Run, k: nat, i: OperationId)
    requires IsRun(r) && k < |r.states|
    requires var s := r.states[k]; WorkerHolds(s.worker, i) || i in s.work || i in s.order
    ensures i in r.states[k].ops
    ensures WorkerHolds(r.states[k].worker, i) || i in r.states[k].work ==> r.states[k].ops[i].references > 0
  {
    hide IsRun, ArmFits, LeaseFits, WatchFits, EventFits, Balanced, Bounded, Referenced, Ticketed, Claimed, Routed,
      Swept;
    RunKeeps(r, k);
    Facts(r.states[k], i);
  }

  /** An operation is freed at most once, and never seen again afterwards. */
  lemma FreedOnce(r: Run, j: nat, k: nat, i: OperationId)
    requires IsRun(r) && j < |r.labels| && r.labels[j] == LFree(i) && j < k < |r.states|
    ensures i !in r.states[k].ops
    ensures k < |r.labels| ==> r.labels[k] != LFree(i) && r.labels[k] != LUnlink(i)
  {
    hide Invariant, Grows;
    RunCreated(r, j);
    RunGrows(r, j + 1, k);
    GoneStays(r.states[j + 1], r.states[k], i);
  }

  lemma GoneStays(s: State, t: State, i: OperationId)
    requires Grows(s, t) && i !in s.ops && i < s.ledger.created
    ensures i !in t.ops
  {
  }

  /** It leaves g_Operations at most once. */
  lemma UnlinkedOnce(r: Run, j: nat, k: nat, i: OperationId)
    requires IsRun(r) && j < k < |r.labels| && r.labels[j] == LUnlink(i)
    ensures r.labels[k] != LUnlink(i)
  {
    hide Invariant, Grows;
    RunCreated(r, j);
    RunGrows(r, j + 1, k);
    UnlinkedStays(r.states[j + 1], r.states[k], i);
  }

  lemma UnlinkedStays(s: State, t: State, i: OperationId)
    requires Grows(s, t) && i in s.ops && s.ops[i].life == Unlinked
    ensures i in t.ops ==> t.ops[i].life == Unlinked
  {
    assert i in t.ops ==> OperationGrows(s.ops[i], t.ops[i]);
  }

  /** The branch of FinishLogical that finds the share already released is never taken. */
  lemma NeverReleasedTwice(r: Run, k: nat)
    requires IsRun(r) && k < |r.states|
    ensures r.states[k].ledger.violations == 0
    ensures forall i | i in r.states[k].ops && r.states[k].ops[i].stage.FinishSwap? ::
              !r.states[k].ops[i].logicalReleased
  {
    hide IsRun, Lists, WorkerFits, ArmFits, LeaseFits, WatchFits, EventFits, Bounded, Referenced, Ticketed, Claimed,
      Routed, Swept, Count;
    RunKeeps(r, k);
  }

  // ---------------------------------------------------------------------------------------------
  // Exactly-once completion
  // ---------------------------------------------------------------------------------------------

  /**
  A data is completed at most once per hand-over and only after one, with the data that was handed over;
  what is handed over and not completed is queued or in the worker's hands.
  */
  lemma ExactlyOnce(r: Run, k: nat, t: Ticket)
    requires IsRun(r) && k < |r.states|
    ensures var s := r.states[k];
            && s.completed[t] <= s.pended[t] <= 1
            && (s.completed[t] < s.pended[t] <==>
                  t.op in s.ops && s.ops[t.op].preIdentity == t.data && Outstanding(s.ops[t.op].stage, t.post))
            && (s.completed[t] < s.pended[t] ==> t.op in s.work || WorkerHolds(s.worker, t.op))
  {
    hide IsRun, ArmFits, LeaseFits, WatchFits, EventFits, Balanced, Bounded, Referenced, Claimed, Routed, Swept,
      WorkerFits;
    RunKeeps(r, k);
    var s := r.states[k];
    assert TicketFits(s, t);
    if t.op in s.ops {
      Facts(s, t.op);
    }
  }

  lemma QueuedOnce(r: Run, k: nat, x: nat, y: nat)
    requires IsRun(r) && k < |r.states| && x < y < |r.states[k].work|
    ensures r.states[k].work[x] != r.states[k].work[y]
  {
    hide IsRun, WorkerFits, Operations, ArmFits, LeaseFits, WatchFits, EventFits, Balanced, Bounded, Referenced,
      Ticketed, Claimed;
    RunKeeps(r, k);
  }

  /** Once the worker has terminated nothing is queued, nothing is stranded and nothing is pended any more. */
  lemma NothingStranded(r: Run, j: nat, k: nat)
    requires IsRun(r) && j <= k < |r.states| && r.states[j].worker == Terminated
    ensures r.states[k].worker == Terminated && r.states[k].work == [] && r.states[k].stopping
    ensures r.states[k].pended == r.states[j].pended == r.states[k].completed
  {
    hide IsRun, Invariant, Grows;
    RunGrows(r, j, k);
    RunKeeps(r, j);
    RunKeeps(r, k);
    TerminatedGrows(r.states[j], r.states[k]);
    TerminatedTickets(r.states[k]);
  }

  lemma TerminatedGrows(s: State, t: State)
    requires Invariant(s) && Grows(s, t) && s.worker == Terminated
    ensures t.worker == Terminated && t.pended == s.pended
  {
    hide Lists, WorkerFits, Operations, ArmFits, LeaseFits, WatchFits, Balanced, Bounded, Referenced, Ticketed, Claimed,
      OperationsGrow;
  }

  lemma TerminatedTickets(s: State)
    requires Invariant(s) && s.worker == Terminated
    ensures s.work == [] && s.stopping && s.pended == s.completed
  {
    hide ArmFits, LeaseFits, WatchFits, Balanced, Bounded, Referenced, Claimed, Routed, Swept;
    forall t: Ticket ensures s.pended[t] == s.completed[t] {
      assert TicketFits(s, t);
      if t.op in s.ops {
        Facts(s, t.op);
      }
    }
  }

  // ---------------------------------------------------------------------------------------------
  // Cancellation
  // ---------------------------------------------------------------------------------------------

  /** The owner of the operation released, its instance is stopping, or the driver is. */
  predicate Revoked(s: State, i: OperationId)
    requires i in s.ops && s.ops[i].instance in s.instances
  {
    s.ops[i].owner != s.owner || s.stopping || s.instances[s.ops[i].instance].stopping
  }

  /** Always: every listed operation that is revoked has been woken, with reason 3 for a stop. */
  lemma SweepsMissNothing(r: Run, k: nat, i: OperationId)
    requires IsRun(r) && k < |r.states| && i in r.states[k].order
    ensures var s := r.states[k];
            && i in s.ops && s.ops[i].instance in s.instances
            && (s.ops[i].owner == s.owner || s.ops[i].wakeReason >= 2)
            && (s.stopping ==> s.ops[i].wakeReason == 3)
            && (s.instances[s.ops[i].instance].stopping ==> s.ops[i].wakeReason == 3)
  {
    hide IsRun, WorkerFits, ArmFits, LeaseFits, WatchFits, EventFits, Balanced, Bounded, Referenced, Ticketed, Claimed,
      Owned;
    RunKeeps(r, k);
    Facts(r.states[k], i);
  }

  /** A reason of two or more never decreases, not even when a post is queued. */
  lemma ReasonsRise(r: Run, j: nat, k: nat, i: OperationId)
    requires IsRun(r) && j <= k < |r.states| && i in r.states[j].ops && i in r.states[k].ops
    requires r.states[j].ops[i].wakeReason >= 2
    ensures r.states[k].ops[i].wakeReason >= r.states[j].ops[i].wakeReason
  {
    hide IsRun;
    RunGrows(r, j, k);
    assert OperationGrows(r.states[j].ops[i], r.states[k].ops[i]);
  }

  lemma RevokedWoken(s: State, i: OperationId)
    requires Invariant(s) && i in s.order && i in s.ops && s.ops[i].instance in s.instances && Revoked(s, i)
    ensures s.ops[i].wakeReason >= 2
  {
    hide WorkerFits, ArmFits, LeaseFits, WatchFits, EventFits, Balanced, Bounded, Referenced, Ticketed, Claimed, Owned;
    Facts(s, i);
  }

  /** A pre that was revoked at any earlier moment is cancelled by the worker, never forwarded. */
  lemma RevokedIsCancelled(r: Run, j: nat, k: nat, i: OperationId)
    requires IsRun(r) && j <= k < |r.labels| && i in r.states[j].order
    requires i in r.states[j].ops && r.states[j].ops[i].instance in r.states[j].instances && Revoked(r.states[j], i)
    requires r.labels[k].LDecide? && r.states[k].worker == Holding(i, false)
    ensures r.states[k + 1].worker == Completing(i, false, true)
  {
    hide Invariant, Revoked;
    RunKeeps(r, j);
    RevokedWoken(r.states[j], i);
    assert Enabled(r.states[k], r.labels[k]);
    ReasonsRise(r, j, k, i);
  }

  /** Nor does a revoked operation get queued again: the callback keeps the I/O. */
  lemma RevokedIsNotQueued(r: Run, j: nat, k: nat, i: OperationId, post: bool)
    requires IsRun(r) && j <= k < |r.labels| && i in r.states[j].order
    requires i in r.states[j].ops && r.states[j].ops[i].instance in r.states[j].instances && Revoked(r.states[j], i)
    requires r.labels[k] == LQueue(i, post)
    ensures r.states[k + 1].work == r.states[k].work && r.states[k + 1].pended == r.states[k].pended
  {
    hide Invariant, Revoked;
    RunKeeps(r, j);
    RevokedWoken(r.states[j], i);
    assert Enabled(r.states[k], r.labels[k]);
    ReasonsRise(r, j, k, i);
  }

  /** What the worker forwards is current at that moment: same owner, nothing stopping, and its pages locked. */
  lemma ForwardedIsCurrent(r: Run, k: nat, i: OperationId)
    requires IsRun(r) && k < |r.labels| && r.labels[k].LDecide?
    requires r.states[k + 1].worker == Completing(i, false, false)
    ensures i in r.states[k].ops && r.states[k].ops[i].instance in r.states[k].instances && !Revoked(r.states[k], i)
    ensures r.states[k].owner != 0 && (r.states[k].ops[i].read ==> r.states[k].ops[i].mdl)
  {
    var s := r.states[k];
    assert Enabled(s, r.labels[k]) && r.states[k + 1] == Apply(s, r.labels[k]);
    hide IsRun, Invariant, Enabled;
    assert s.worker == Holding(i, false);
    RunKeeps(r, k);
    HeldKnown(s, i);
  }

  lemma HeldKnown(s: State, i: OperationId)
    requires Invariant(s) && WorkerHolds(s.worker, i)
    ensures i in s.ops && i in s.order && s.ops[i].instance in s.instances && s.ops[i].owner != 0
    ensures s.ops[i].owner == s.owner || s.ops[i].wakeReason >= 2
    ensures s.ops[i].stage == PreHeld ==> s.ops[i].read ==> s.ops[i].mdl
  {
    hide ArmFits, LeaseFits, WatchFits, EventFits, Balanced, Bounded, Referenced, Ticketed, Claimed;
    Facts(s, i);
  }

  // ---------------------------------------------------------------------------------------------
  // Ledger
  // ---------------------------------------------------------------------------------------------

  lemma LedgerConserved(r: Run, k: nat)
    requires IsRun(r) && k < |r.states|
    ensures var s := r.states[k]; var l := s.ledger;
            && l.created == l.freed + l.liveContexts
            && l.liveContexts == |s.order| && l.queueDepth == |s.work|
            && (l.activeWorkers == 0 || l.activeWorkers == 1)
            && l.created == l.postCalled + l.preCancelled + l.bufferLockFailures + Count(s.ops, Unsettled)
            && l.created == l.logicalCompleted + Count(s.ops, Uncounted)
            && l.preQueued == l.preCompleted + Count(s.ops, PreOutstanding)
            && l.postQueued == l.postCompleted + Count(s.ops, PostOutstanding)
  {
    hide IsRun, Operations, ArmFits, LeaseFits, WatchFits, EventFits, Bounded, Referenced, Ticketed, Claimed;
    RunKeeps(r, k);
  }

  lemma QuietIsDone(s: State)
    requires Invariant(s) && s.ledger.liveContexts == 0
    ensures forall i | i in s.ops :: s.ops[i].stage == Done
  {
    hide WorkerFits, ArmFits, LeaseFits, WatchFits, EventFits, Balanced, Bounded, Referenced, Ticketed, Claimed, Routed,
      Swept;
    assert s.order == [];
    forall i | i in s.ops ensures s.ops[i].stage == Done {
      Facts(s, i);
      assert i !in s.order;
    }
  }

  lemma DoneCounts(s: State)
    requires forall i | i in s.ops :: s.ops[i].stage == Done
    ensures Count(s.ops, Unsettled) == Count(s.ops, Uncounted) == 0
    ensures Count(s.ops, PreOutstanding) == Count(s.ops, PostOutstanding) == 0
  {
    assert Where(s.ops, Unsettled) == {};
    assert Where(s.ops, Uncounted) == {};
    assert Where(s.ops, PreOutstanding) == {};
    assert Where(s.ops, PostOutstanding) == {};
  }

  /** Whenever no context is live every started pair is balanced. */
  lemma AuditBalances(r: Run, k: nat)
    requires IsRun(r) && k < |r.states| && r.states[k].ledger.liveContexts == 0
    ensures var l := r.states[k].ledger;
            && l.created == l.freed == l.logicalCompleted
            && l.created == l.postCalled + l.preCancelled + l.bufferLockFailures
            && l.preQueued == l.preCompleted && l.postQueued == l.postCompleted
            && l.violations == 0
  {
    hide IsRun, Invariant, Count;
    RunKeeps(r, k);
    QuietIsDone(r.states[k]);
    DoneCounts(r.states[k]);
    LedgerConserved(r, k);
    NeverReleasedTwice(r, k);
  }

  // ---------------------------------------------------------------------------------------------
  // Process references
  // ---------------------------------------------------------------------------------------------

  /** Each reference has one holder: the arm, the lease, an operation, the watcher or a local. */
  lemma ReferencesConserved(r: Run, k: nat, p: Process)
    requires IsRun(r) && k < |r.states|
    ensures var s := r.states[k];
            s.references[p] == One(s.target == Some(p)) + One(s.ownerProcess == Some(p))
                               + |set i | i in s.ops && s.ops[i].target == p|
                               + One(s.worker.Probing? && s.worker.target == p) + s.locals[p]
  {
    hide IsRun, Lists, WorkerFits, Operations, ArmFits, LeaseFits, WatchFits, EventFits, Balanced, Bounded, Ticketed,
      Claimed;
    RunKeeps(r, k);
    var s := r.states[k];
    assert s.references[p] == Holders(s, p);
    assert (set i | i in s.ops && s.ops[i].target == p) == Where(s.ops, For(p));
  }

  lemma NoTargets(ops: map<OperationId, Operation>, p: Process)
    ensures ops.Keys == {} ==> |set i | i in ops && ops[i].target == p| == 0
  {
    var targets := set i | i in ops && ops[i].target == p;
    assert targets <= ops.Keys;
    if ops.Keys == {} {
      assert targets == {};
    }
  }

  /** After the stop, the drain and the last locals, the driver holds no process. */
  lemma NoReferenceLeaks(r: Run, k: nat)
    requires IsRun(r) && k < |r.states|
    requires var s := r.states[k]; s.stopping && s.control == Free && s.ops == map[] && s.locals == multiset{}
    ensures r.states[k].references == multiset{}
  {
    var s := r.states[k];
    forall p: Process ensures s.references[p] == 0 {
      ReferencesConserved(r, k, p);
      NoTargets(s.ops, p);
      StoppedIsUnowned(r, k);
    }
  }

  /** Stopping is final: once its release is done nobody owns or arms the provider. */
  lemma StoppedIsUnowned(r: Run, k: nat)
    requires IsRun(r) && k < |r.states| && r.states[k].stopping && r.states[k].control != StopReleasing
    ensures r.states[k].owner == 0 && r.states[k].ownerProcess.None? && r.states[k].target.None?
    ensures r.states[k].control == Free ==> !r.states[k].worker.Probing?
  {
    hide IsRun, Lists, WorkerFits, Operations, EventFits, Balanced, Bounded, Referenced, Ticketed, Claimed;
    RunKeeps(r, k);
  }

  // ---------------------------------------------------------------------------------------------
  // Arm, bound and lease
  // ---------------------------------------------------------------------------------------------

  lemma ArmIsWhole(r: Run, k: nat)
    requires IsRun(r) && k < |r.states|
    ensures var s := r.states[k];
            && (s.armedMode != NoMode <==> s.target.Some?) && (s.target.Some? <==> s.armedRemaining > 0)
            && (s.target.Some? ==> s.owner in s.clients && s.ownerProcess == Some(s.clients[s.owner])
                                   && s.armedGeneration == s.topologyGeneration)
  {
    hide IsRun, Lists, WorkerFits, Operations, EventFits, Balanced, Bounded, Referenced, Ticketed, Claimed;
    RunKeeps(r, k);
  }

  /** A published operation, upper or lower, belongs to the current owner and the current topology. */
  lemma PublishedIsCurrent(r: Run, k: nat, i: OperationId)
    requires IsRun(r) && k < |r.labels| && r.labels[k].LAdmit?
    requires i in r.states[k + 1].ops && i !in r.states[k].ops
    ensures var s := r.states[k]; var o := r.states[k + 1].ops[i];
            && i == s.ledger.created
            && o.generation == s.topologyGeneration && o.owner == s.owner != 0 && o.target == r.labels[k].requestor
            && !s.stopping && o.instance in s.instances && !s.instances[o.instance].stopping
            && (!o.lower ==> s.target == Some(o.target))
  {
    var s, l := r.states[k], r.labels[k];
    assert Enabled(s, l) && r.states[k + 1] == Apply(s, l);
    hide IsRun, Invariant, DataIdle;
    RunKeeps(r, k);
    ArmKnown(s);
    AdmittedIsCurrent(s, l.data, l.instance, l.requestor, l.file, l.read, l.granted, i);
  }

  lemma AdmittedIsCurrent(s: State, data: DataId, instance: InstanceId, p: Process, file: FileId, read: bool,
                          granted: bool, i: OperationId)
    requires Invariant(s) && instance in s.instances
    requires s.armedMode != NoMode ==> s.owner != 0 && s.armedGeneration == s.topologyGeneration
    requires i in Admit(s, data, instance, p, file, read, granted).ops && i !in s.ops
    ensures i == s.ledger.created && !s.stopping && !s.instances[instance].stopping
    ensures var o := Admit(s, data, instance, p, file, read, granted).ops[i];
            && o.instance == instance && o.generation == s.topologyGeneration && o.owner == s.owner != 0
            && o.target == p && (!o.lower ==> s.target == Some(p))
  {
    hide Invariant;
    if AdmitsUpper(s, instance, p, read) {
    } else if AdmitsLower(s, instance, read) {
      var found := FindPair(s, s.order, data, file, p);
      if found.Some? {
        OwnerKnown(s, found.value);
      }
    }
  }

  lemma ArmKnown(s: State)
    requires Invariant(s)
    ensures s.armedMode != NoMode ==> s.owner != 0 && s.armedGeneration == s.topologyGeneration
  {
    hide Lists, WorkerFits, Operations, LeaseFits, WatchFits, EventFits, Balanced, Bounded, Referenced, Ticketed,
      Claimed;
  }

  lemma OwnerKnown(s: State, i: OperationId)
    requires Invariant(s) && i in s.ops
    ensures s.ops[i].owner != 0
  {
    hide Lists, WorkerFits, ArmFits, LeaseFits, WatchFits, EventFits, Balanced, Bounded, Referenced, Ticketed, Claimed,
      Owned, Routed;
    Facts(s, i);
  }

  /** At most sixteen contexts are live; an arm admits at most its reservations, an upper at most one lower. */
  lemma AdmissionBounded(r: Run, k: nat, i: OperationId)
    requires IsRun(r) && k < |r.states|
    ensures var s := r.states[k];
            && s.ledger.liveContexts <= 16
            && s.epochUppers + s.armedRemaining <= s.epochLimit <= MAX_BATCH && s.epochLowers <= s.epochUppers
            && s.ledger.liveContexts <= s.epochUppers + s.epochLowers
            && s.claims[i] <= 1 && (i in s.ops && s.ops[i].lower ==> s.claims[i] == 0)
  {
    hide IsRun, WorkerFits, Operations, LeaseFits, WatchFits, EventFits, Balanced, Referenced, Ticketed, Count;
    RunKeeps(r, k);
    assert ClaimFits(r.states[k], i);
  }

  /** The watcher retires only the arm it took its snapshot of: no arm succeeded in between. */
  lemma VerdictFitsArm(r: Run, k: nat)
    requires IsRun(r) && k < |r.states| && r.states[k].worker.Probing?
    ensures var s := r.states[k];
            s.worker.epoch == s.armEpoch && (s.target.Some? ==> s.target == Some(s.worker.target))
  {
    hide IsRun, Lists, WorkerFits, Operations, EventFits, Balanced, Bounded, Referenced, Ticketed, Claimed;
    RunKeeps(r, k);
  }

  // ---------------------------------------------------------------------------------------------
  // Wakeups and termination of the worker
  // ---------------------------------------------------------------------------------------------

  /** The worker has left its drain loop and has not come back to it: it looks at the arm, or waits. */
  predicate Away(w: WorkerPc) {
    w == Starting || w == Watch || w.Probing? || w == Sample || w.Waiting?
  }

  /**
  A worker on its way to the wait or in it whose event is not signalled has nothing queued and is not asked to stop, and
  if it waits for a signal alone nothing is armed.
  */
  lemma NoLostWakeup(r: Run, k: nat)
    requires IsRun(r) && k < |r.states| && Away(r.states[k].worker) && !r.states[k].workAvailable
    ensures var s := r.states[k];
            s.work == [] && !s.stopping && (s.worker.Waiting? && s.target.Some? ==> s.worker.armed)
  {
    hide IsRun, Lists, WorkerFits, Operations, ArmFits, LeaseFits, WatchFits, Balanced, Bounded, Referenced, Ticketed,
      Claimed;
    RunKeeps(r, k);
  }
}
