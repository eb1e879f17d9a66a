/**
The join in PendingIoStop: once the driver is stopping, in every state the worker has a step to take or waits for
g_Control, whose holder has one; and only a bounded number of the worker's steps separates it from termination.
*/
module PendingIoDrain {

  import opened Options
  import opened PendingIo
  import opened PendingIoInvariant
  import opened PendingIoRuns
  import opened PendingIoGrowth
  import opened PendingIoOrder

  function StageRank(stage: Stage): nat {
    match stage
    case FinishSwap(_) => 3
    case FinishCount(_, _) => 2
    case FinishDrop(_) => 1
    case _ => 0
  }

  function LifeRank(life: Life): nat {
    if life == Unlinked then 1 else 2
  }

  function Rank(ops: map<OperationId, Operation>, w: WorkerPc): nat {
    match w
    case Terminated => 0
    case Draining => 1
    case Tail => 2
    case Freeing(i) => 3 + (if i in ops then LifeRank(ops[i].life) else 0)
    case Dropping(_) => 6
    case Finishing(i) => 7 + (if i in ops then StageRank(ops[i].stage) else 0)
    case Completing(_, _, _) => 11
    case Holding(_, _) => 12
    case Waiting(_) => 2
    case Sample => 3
    case Probing(_, _) => 4
    case Watch => 5
    case Starting => 6
  }

  /** An upper bound on the steps the worker still has to take. */
  function Remaining(s: State): nat {
    13 * |s.work| + Rank(s.ops, s.worker)
  }

  // ---------------------------------------------------------------------------------------------
  // Progress
  // ---------------------------------------------------------------------------------------------

  /** What the worker's next step needs: the control lock at the head of its loop, an event while parked. */
  predicate MayMove(s: State) {
    && s.worker != Terminated
    && (s.worker == Watch ==> s.control == Free)
    && (s.worker.Waiting? && !s.worker.armed ==> s.workAvailable)
  }

  function FinishLabel(i: OperationId, stage: Stage): Label {
    match stage
    case FinishSwap(_) => LSwap(i)
    case FinishCount(_, _) => LCount(i)
    case FinishDrop(_) => LDropLogical(i)
    case _ => LFinished
  }

  function NextLabel(s: State): Label {
    match s.worker
    case Starting => LStart
    case Watch => LSnapshot
    case Probing(_, _) => LVerdict(false)
    case Sample => LSample
    case Waiting(armed) => LWait(!s.workAvailable)
    case Draining => LPop
    case Holding(_, _) => LDecide(true)
    case Completing(_, _, _) => LComplete
    case Finishing(i) => if i in s.ops then FinishLabel(i, s.ops[i].stage) else LFinished
    case Dropping(_) => LDropWorker
    case Freeing(i) =>
      if i !in s.ops then LFreed else if s.ops[i].life == Unlinked then LFree(i) else LUnlink(i)
    case Tail => LTail
    case Terminated => LTail
  }

  /** The worker is never stuck on an operation: the one it needs is there, in the stage it needs. */
  lemma WorkerProgress(s: State)
    requires Invariant(s) && MayMove(s)
    ensures ByWorker(s, NextLabel(s)) && Enabled(s, NextLabel(s))
  {
    hide Invariant, DataIdle;
    HeldFacts(s);
  }

  // ---------------------------------------------------------------------------------------------
  // Every worker step brings the end closer
  // ---------------------------------------------------------------------------------------------

  lemma LoopDecreases(s: State, l: Label)
    requires WorkerEnabled(s, l) && s.stopping
    requires l.LStart? || l.LSnapshot? || l.LVerdict? || l.LSample? || l.LWait? || l.LTail? || l.LFreed?
    ensures Remaining(WorkerApply(s, l)) < Remaining(s)
  {
    hide WakeAll;
  }

  lemma PopDecreases(s: State, l: Label)
    requires WorkerEnabled(s, l) && s.stopping && l.LPop?
    ensures Remaining(WorkerApply(s, l)) < Remaining(s)
  {
  }

  lemma ItemDecreases(s: State, l: Label)
    requires WorkerEnabled(s, l) && (l.LDecide? || l.LComplete? || l.LFinished? || l.LDropWorker?)
    ensures Remaining(WorkerApply(s, l)) < Remaining(s)
  {
    hide Cancels;
  }

  lemma FinishDecreases(s: State, l: Label)
    requires CallbackEnabled(s, l) && ByWorker(s, l) && (l.LSwap? || l.LCount?)
    ensures Remaining(CallbackApply(s, l)) < Remaining(s)
  {
    hide Drop;
  }

  lemma DeathDecreases(s: State, l: Label)
    requires CallbackEnabled(s, l) && ByWorker(s, l) && (l.LDropLogical? || l.LUnlink? || l.LFree?)
    ensures Remaining(CallbackApply(s, l)) < Remaining(s)
  {
    hide Without;
  }

  lemma WorkerDecreases(s: State, l: Label)
    requires Enabled(s, l) && ByWorker(s, l) && s.stopping
    ensures Remaining(Apply(s, l)) < Remaining(s)
  {
    hide Remaining, CallbackEnabled, CallbackApply, WorkerEnabled, WorkerApply;
    if l.LPop? {
      PopDecreases(s, l);
    } else if l.LDecide? || l.LComplete? || l.LFinished? || l.LDropWorker? {
      ItemDecreases(s, l);
    } else if WorkerCode(l) {
      LoopDecreases(s, l);
    } else if l.LDropLogical? || l.LUnlink? || l.LFree? {
      DeathDecreases(s, l);
    } else {
      FinishDecreases(s, l);
    }
  }

  // ---------------------------------------------------------------------------------------------
  // No other step sets it back
  // ---------------------------------------------------------------------------------------------

  /** The step left the worker, its queue and the operation it is ending alone. */
  predicate Calm(s: State, t: State) {
    && t.worker == s.worker && t.work == s.work
    && (s.worker.Finishing? || s.worker.Freeing? ==>
          var i := s.worker.op;
          && (i in t.ops <==> i in s.ops)
          && (i in s.ops ==> t.ops[i].stage == s.ops[i].stage && t.ops[i].life == s.ops[i].life))
  }

  lemma CalmRemains(s: State, t: State)
    requires Calm(s, t)
    ensures Remaining(t) == Remaining(s)
  {
  }

  lemma EndingFacts(s: State)
    requires Invariant(s) && (s.worker.Finishing? || s.worker.Freeing?) && s.worker.op in s.ops
    ensures var o := s.ops[s.worker.op];
            if s.worker.Finishing? then (RunsIn(o.stage, InWorker) || o.stage == Done) && o.life == Linked
            else o.stage == Done && o.life != Linked
  {
    hide Lists, ArmFits, LeaseFits, WatchFits, EventFits, Balanced, Bounded, Referenced, Ticketed, Claimed, Swept,
      Routed;
    Facts(s, s.worker.op);
  }

  /** The step of another thread is on another operation. */
  lemma OtherOperation(s: State, l: Label)
    requires Invariant(s) && CallbackEnabled(s, l) && NamesOperation(l) && !ByWorker(s, l)
    requires s.worker.Finishing? || s.worker.Freeing?
    ensures l.op != s.worker.op
  {
    hide Invariant, DataIdle;
    if l.op == s.worker.op {
      EndingFacts(s);
    }
  }

  lemma CallbackCalm(s: State, l: Label)
    requires Invariant(s) && Enabled(s, l) && !ByWorker(s, l) && (s.worker.Finishing? || s.worker.Freeing?)
    ensures s.worker.op in s.ops ==> !ActsOn(s, l, s.worker.op) && s.worker.op != s.ledger.created
  {
    hide Invariant, CallbackEnabled, WorkerEnabled, ControlEnabled, SetupEnabled;
    if NamesOperation(l) {
      OtherOperation(s, l);
    }
    if s.worker.op in s.ops {
      KnownOperation(s, s.worker.op);
    }
  }

  lemma KnownOperation(s: State, i: OperationId)
    requires Invariant(s) && i in s.ops
    ensures i != s.ledger.created
  {
    CreatedBefore(s, i);
  }

  lemma OthersCalm(s: State, l: Label)
    requires Invariant(s) && Enabled(s, l) && s.stopping && !ByWorker(s, l)
    ensures Calm(s, Apply(s, l))
  {
    hide Invariant, Apply, Enabled, LeaseFrame, StopFrame, OperationGrows, Alive;
    StepFrame(s, l, 0);
    if s.worker.Finishing? || s.worker.Freeing? {
      CallbackCalm(s, l);
      StepFrame(s, l, s.worker.op);
    }
  }

  // ---------------------------------------------------------------------------------------------
  // The bound along a run
  // ---------------------------------------------------------------------------------------------

  /** How many of the steps from `j` up to `k` are the worker's. */
  ghost function WorkerSteps(r: Run, j: nat, k: nat): nat
    requires IsRun(r) && j <= k < |r.states|
  {
    if j == k then 0 else WorkerSteps(r, j, k - 1) + One(ByWorker(r.states[k - 1], r.labels[k - 1]))
  }

  lemma StoppingStays(r: Run, j: nat, k: nat)
    requires IsRun(r) && j <= k < |r.states| && r.states[j].stopping
    ensures r.states[k].stopping
  {
    hide IsRun, OperationsGrow;
    RunGrows(r, j, k);
  }

  /** From the stop on, the worker takes at most `Remaining` further steps, whatever the other threads do. */
  lemma {:induction false} StopDrains(r: Run, j: nat, k: nat)
    requires IsRun(r) && j <= k < |r.states| && r.states[j].stopping
    ensures WorkerSteps(r, j, k) + Remaining(r.states[k]) <= Remaining(r.states[j])
    decreases k
  {
    hide Invariant, Apply, Enabled, Calm, Remaining;
    if j == k {
    } else {
      StopDrains(r, j, k - 1);
      RunKeeps(r, k - 1);
      StoppingStays(r, j, k - 1);
      var s, l := r.states[k - 1], r.labels[k - 1];
      if ByWorker(s, l) {
        WorkerDecreases(s, l);
      } else {
        OthersCalm(s, l);
        CalmRemains(s, r.states[k]);
      }
    }
  }

  // ---------------------------------------------------------------------------------------------
  // Nobody is stuck
  // ---------------------------------------------------------------------------------------------

  /** The next section of the thread that holds g_Control; the watching worker's is its own. */
  function HolderLabel(s: State): Label {
    match s.control
    case Disconnecting(_) => LDisconnectRemove
    case Exiting(_) => LExitSweep
    case MessageReleasing(_) => LMessageRelease
    case Replying(_) => LReply(true)
    case StopReleasing => LStopRelease
    case _ => NextLabel(s)
  }

  /** Whoever holds g_Control can run its next section. */
  lemma HolderProgress(s: State)
    requires s.control != Free && s.control != WorkerWatch
    ensures ByHolder(s, HolderLabel(s)) && !ByWorker(s, HolderLabel(s)) && Enabled(s, HolderLabel(s))
  {
  }

  /** A worker that cannot move stands before g_Control. */
  lemma StuckAtControl(s: State)
    requires Invariant(s) && s.stopping && s.worker != Terminated && !MayMove(s)
    ensures s.worker == Watch && s.control != Free && s.control != WorkerWatch
  {
    hide Lists, WorkerFits, Operations, ArmFits, LeaseFits, Balanced, Bounded, Referenced, Ticketed, Claimed;
  }

  /**
  In every stopping state before the worker's end, the worker can take its next step, or it waits for g_Control
  and the thread that holds it can.
  */
  lemma StopNeverBlocks(r: Run, k: nat)
    requires IsRun(r) && k < |r.states| && r.states[k].stopping && r.states[k].worker != Terminated
    ensures var s := r.states[k];
            || (ByWorker(s, NextLabel(s)) && Enabled(s, NextLabel(s)))
            || (s.worker == Watch && s.control != Free
                && ByHolder(s, HolderLabel(s)) && !ByWorker(s, HolderLabel(s)) && Enabled(s, HolderLabel(s)))
  {
    hide Invariant, Enabled, MayMove, IsRun, ByWorker, ByHolder;
    RunKeeps(r, k);
    if MayMove(r.states[k]) {
      WorkerProgress(r.states[k]);
    } else {
      StuckAtControl(r.states[k]);
      HolderProgress(r.states[k]);
    }
  }

  /**
  While g_Control is held in a stopping driver it stays with its holder, each of the holder's sections brings its
  release nearer, and no step of any thread raises the worker's bound.
  */
  lemma ControlIsReturned(r: Run, k: nat)
    requires IsRun(r) && k < |r.labels| && r.states[k].stopping && r.states[k].control != Free
    ensures var s, t, l := r.states[k], r.states[k + 1], r.labels[k];
            && (ByHolder(s, l) ==> HolderLeft(t.control) < HolderLeft(s.control))
            && (!ByHolder(s, l) ==> t.control == s.control)
            && Remaining(t) <= Remaining(s)
  {
    var s, l := r.states[k], r.labels[k];
    assert Enabled(s, l) && r.states[k + 1] == Apply(s, l);
    hide Invariant, Enabled, Apply, Remaining, IsRun, Calm, ByWorker, ByHolder, WatchFits, HolderLeft;
    RunKeeps(r, k);
    Parts(s);
    ControlIsHeld(s, l);
    if ByWorker(s, l) {
      WorkerDecreases(s, l);
    } else {
      OthersCalm(s, l);
      CalmRemains(s, r.states[k + 1]);
    }
  }

  /** A path of steps from one state to another, all of them of the worker or of the thread that holds g_Control. */
  ghost predicate Path(s: State, labels: seq<Label>, t: State)
    decreases |labels|
  {
    if labels == [] then t == s
    else
      && Enabled(s, labels[0]) && (ByWorker(s, labels[0]) || ByHolder(s, labels[0]))
      && Path(Apply(s, labels[0]), labels[1..], t)
  }

  function Foreign(control: Control): nat {
    if control == WorkerWatch then 0 else HolderLeft(control)
  }

  lemma WorkerForeign(s: State, l: Label)
    requires Invariant(s) && Enabled(s, l) && ByWorker(s, l)
    ensures Foreign(Apply(s, l).control) == Foreign(s.control)
  {
    hide Invariant, Apply, Enabled, OperationFrame, LeaseFrame, StopFrame;
    WatchSections(s, l);
    StepFrame(s, l, 0);
  }

  lemma WatchSections(s: State, l: Label)
    requires Invariant(s) && Enabled(s, l)
    ensures l.LSnapshot? ==> s.control == Free
    ensures l.LVerdict? ==> s.control == WorkerWatch
  {
    hide Invariant, Lists, WorkerFits, Operations, EventFits, CallbackEnabled, ControlEnabled, SetupEnabled;
    Parts(s);
  }

  lemma HolderForeign(s: State, l: Label)
    requires Invariant(s) && Enabled(s, l) && s.control != Free && s.control != WorkerWatch && ByHolder(s, l)
    ensures Foreign(Apply(s, l).control) < Foreign(s.control)
  {
    hide Invariant, Apply, Enabled, Lists, WorkerFits, Operations, WatchFits, EventFits, ByHolder;
    Parts(s);
    ControlIsHeld(s, l);
  }

  lemma StoppingStep(s: State, l: Label)
    requires Invariant(s) && Enabled(s, l) && s.stopping
    ensures Invariant(Apply(s, l)) && Apply(s, l).stopping
  {
    hide Invariant, Apply, Enabled, OperationsGrow;
    StepKeeps(s, l);
    StepGrows(s, l);
  }

  /**
  The stop can always be finished: from any stopping state the worker and the holder of g_Control alone reach the
  worker's end, within the two bounds.
  */
  lemma {:induction false} StopFinishes(s: State) returns (labels: seq<Label>, t: State)
    requires Invariant(s) && s.stopping
    ensures Path(s, labels, t) && t.worker == Terminated && |labels| <= Remaining(s) + Foreign(s.control)
    decreases Remaining(s) + Foreign(s.control)
  {
    hide Invariant, Enabled, Apply, Remaining, MayMove, ByWorker, ByHolder, Foreign, Calm;
    if s.worker == Terminated {
      labels, t := [], s;
    } else if MayMove(s) {
      var l := NextLabel(s);
      WorkerProgress(s);
      StoppingStep(s, l);
      WorkerDecreases(s, l);
      WorkerForeign(s, l);
      labels, t := StopFinishes(Apply(s, l));
      labels := [l] + labels;
    } else {
      var l := HolderLabel(s);
      StuckAtControl(s);
      HolderProgress(s);
      StoppingStep(s, l);
      HolderForeign(s, l);
      OthersCalm(s, l);
      CalmRemains(s, Apply(s, l));
      labels, t := StopFinishes(Apply(s, l));
      labels := [l] + labels;
    }
  }
}
