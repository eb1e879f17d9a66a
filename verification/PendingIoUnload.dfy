/**
What is left when the driver unloads: every operation was unlinked once and freed once, the ledger balances and
no process is referenced.
*/
module PendingIoUnload {

  import opened Options
  import opened PendingIo
  import opened PendingIoInvariant
  import opened PendingIoRuns
  import opened PendingIoGrowth
  import opened PendingIoTheorems
  import opened PendingIoOrder

  // ---------------------------------------------------------------------------------------------
  // Nothing leaves the provider but by its own steps
  // ---------------------------------------------------------------------------------------------

  /** Still allocated, and not unlinked unless it was. */
  predicate Lives(s: State, t: State, i: OperationId) {
    i in s.ops ==> i in t.ops && (t.ops[i].life == Unlinked ==> s.ops[i].life == Unlinked)
  }

  /** Only its own free step ends an operation, and only its own unlink step unlinks it. */
  lemma LeavesBySteps(s: State, l: Label, i: OperationId)
    requires Lists(s) && Enabled(s, l) && i in s.ops
    ensures i !in Apply(s, l).ops ==> l == LFree(i)
    ensures l != LFree(i) && l != LUnlink(i) ==> Lives(s, Apply(s, l), i)
  {
    hide Apply, Enabled, PositionFrame, LeaseFrame, StopFrame, ActsOn, Alive, OperationGrows;
    StepFrame(s, l, i);
  }

  lemma RunLists(r: Run, k: nat)
    requires IsRun(r) && k < |r.states|
    ensures Lists(r.states[k])
  {
    hide Invariant, Lists, IsRun;
    RunKeeps(r, k);
    Parts(r.states[k]);
  }

  /** An operation that is gone was freed by a step in between. */
  lemma {:induction false} GoneWasFreed(r: Run, j: nat, k: nat, i: OperationId) returns (m: nat)
    requires IsRun(r) && j <= k < |r.states| && i in r.states[j].ops && i !in r.states[k].ops
    ensures j <= m < k && r.labels[m] == LFree(i)
    decreases k
  {
    hide Apply, Enabled, Lists, Initial;
    RunLists(r, k - 1);
    if i in r.states[k - 1].ops {
      LeavesBySteps(r.states[k - 1], r.labels[k - 1], i);
      m := k - 1;
    } else {
      m := GoneWasFreed(r, j, k - 1, i);
    }
  }

  /** An operation that is unlinked was unlinked by a step in between. */
  lemma {:induction false} UnlinkedWasUnlinked(r: Run, j: nat, k: nat, i: OperationId) returns (m: nat)
    requires IsRun(r) && j <= k < |r.states| && i in r.states[j].ops && r.states[j].ops[i].life != Unlinked
    requires i in r.states[k].ops && r.states[k].ops[i].life == Unlinked
    ensures j <= m < k && r.labels[m] == LUnlink(i)
    decreases k
  {
    hide Apply, Enabled, Lists, Initial;
    RunLists(r, k - 1);
    if i !in r.states[k - 1].ops {
      m := GoneWasFreed(r, j, k - 1, i);
      FreedOnce(r, m, k, i);
    } else if r.states[k - 1].ops[i].life == Unlinked {
      m := UnlinkedWasUnlinked(r, j, k - 1, i);
    } else {
      LeavesBySteps(r.states[k - 1], r.labels[k - 1], i);
      if r.labels[k - 1] == LFree(i) {
        FreedOnce(r, k - 1, k, i);
      }
      m := k - 1;
    }
  }

  /** Between its publication and its end an operation is unlinked exactly once and then freed exactly once. */
  lemma FreedExactlyOnce(r: Run, j: nat, k: nat, i: OperationId) returns (u: nat, m: nat)
    requires IsRun(r) && j <= k < |r.states|
    requires i in r.states[j].ops && r.states[j].ops[i].life == Linked && i !in r.states[k].ops
    ensures j <= u < m < k && r.labels[u] == LUnlink(i) && r.labels[m] == LFree(i)
    ensures forall n | 0 <= n < |r.labels| ::
              (r.labels[n] == LFree(i) <==> n == m) && (r.labels[n] == LUnlink(i) <==> n == u)
  {
    hide Apply, Initial;
    m := GoneWasFreed(r, j, k, i);
    assert Enabled(r.states[m], r.labels[m]);
    u := UnlinkedWasUnlinked(r, j, m, i);
    forall n | 0 <= n < |r.labels|
      ensures (r.labels[n] == LFree(i) <==> n == m) && (r.labels[n] == LUnlink(i) <==> n == u)
    {
      if r.labels[n] == LFree(i) && n != m {
        FreedOnce(r, if n < m then n else m, if n < m then m else n, i);
      }
      if r.labels[n] == LUnlink(i) && n != u {
        UnlinkedOnce(r, if n < u then n else u, if n < u then u else n, i);
      }
    }
  }

  // ---------------------------------------------------------------------------------------------
  // Unload
  // ---------------------------------------------------------------------------------------------

  /** A callback of Filter Manager, or Filter Manager between two of them, holds the operation. */
  predicate Outside(stage: Stage) {
    stage == LockBuffer || stage == TryPreQueue || stage == PassThrough || stage == AwaitPost || stage == TryPostQueue
    || RunsIn(stage, InCallback)
  }

  lemma NotWithWorker(s: State, i: OperationId)
    requires Invariant(s) && s.worker == Terminated && i in s.ops
    ensures Outside(s.ops[i].stage) || (s.ops[i].stage == Done && s.ops[i].life != Linked)
  {
    hide ArmFits, LeaseFits, WatchFits, Balanced, Bounded, Referenced, Ticketed, Claimed, Routed, Swept;
    Facts(s, i);
    assert i !in s.work;
  }

  /** After the worker's end an operation is in Filter Manager's hands, or only waits for its unlink and free. */
  lemma NothingLeftWithWorker(r: Run, k: nat, i: OperationId)
    requires IsRun(r) && k < |r.states| && r.states[k].worker == Terminated && i in r.states[k].ops
    ensures var o := r.states[k].ops[i]; Outside(o.stage) || (o.stage == Done && o.life != Linked)
  {
    hide IsRun, Invariant;
    RunKeeps(r, k);
    NotWithWorker(r.states[k], i);
  }

  /** FltUnregisterFilter has returned: no callback runs or is still to come for any operation. */
  ghost predicate CallbacksDrained(s: State) {
    forall i | i in s.ops :: !Outside(s.ops[i].stage)
  }

  /** No thread is between its last drop of a reference and the end of its DropReference. */
  ghost predicate DropsFinished(s: State) {
    forall i | i in s.ops :: s.ops[i].life == Linked
  }

  /**
  Once the worker has ended, Filter Manager has drained its callbacks and every DropReference has returned, no
  operation is left and the final audit balances; with the locals gone no process is referenced either.
  */
  lemma UnloadLeavesNothing(r: Run, k: nat)
    requires IsRun(r) && k < |r.states| && r.states[k].worker == Terminated
    requires CallbacksDrained(r.states[k]) && DropsFinished(r.states[k])
    ensures var s := r.states[k]; var l := s.ledger;
            && s.ops == map[] && s.order == [] && s.work == [] && s.stopping && s.pended == s.completed
            && l.liveContexts == 0 && l.queueDepth == 0 && l.activeWorkers == 0 && l.violations == 0
            && l.created == l.freed == l.logicalCompleted
            && l.created == l.postCalled + l.preCancelled + l.bufferLockFailures
            && l.preQueued == l.preCompleted && l.postQueued == l.postCompleted
    ensures r.states[k].control == Free && r.states[k].locals == multiset{} ==> r.states[k].references == multiset{}
  {
    var s := r.states[k];
    forall i ensures i !in s.ops {
      if i in s.ops {
        NothingLeftWithWorker(r, k, i);
      }
    }
    hide IsRun;
    assert s.ops == map[];
    EmptyIsQuiet(r, k);
    NothingStranded(r, k, k);
    AuditBalances(r, k);
    if s.control == Free && s.locals == multiset{} {
      NoReferenceLeaks(r, k);
    }
  }

  lemma EmptyIsQuiet(r: Run, k: nat)
    requires IsRun(r) && k < |r.states| && r.states[k].ops == map[] && r.states[k].worker == Terminated
    ensures var s := r.states[k];
            s.order == [] && s.ledger.liveContexts == 0 && s.ledger.queueDepth == 0 && s.ledger.activeWorkers == 0
  {
    hide IsRun, Invariant;
    RunKeeps(r, k);
    EmptyLists(r.states[k]);
  }

  lemma EmptyLists(s: State)
    requires Invariant(s) && s.ops == map[] && s.worker == Terminated
    ensures s.order == [] && s.ledger.liveContexts == 0 && s.ledger.queueDepth == 0 && s.ledger.activeWorkers == 0
  {
    hide Operations, ArmFits, LeaseFits, WatchFits, EventFits, Balanced, Bounded, Referenced, Ticketed, Claimed;
    NoMembers(s.order);
    NoMembers(s.work);
  }

  lemma NoMembers(q: seq<OperationId>)
    ensures (forall i :: i !in q) ==> q == []
  {
    if q != [] {
      assert q[0] in q;
    }
  }

  // ---------------------------------------------------------------------------------------------
  // Unload can always be finished
  // ---------------------------------------------------------------------------------------------

  /** What still runs after the worker's end: callbacks, posts that Filter Manager drains, and last drops. */
  predicate Drains(l: Label) {
    NamesOperation(l) && (l.LEnterPost? ==> l.draining)
  }

  ghost predicate DrainPath(s: State, labels: seq<Label>, t: State)
    decreases |labels|
  {
    if labels == [] then t == s
    else Enabled(s, labels[0]) && Drains(labels[0]) && DrainPath(Apply(s, labels[0]), labels[1..], t)
  }

  /** The next step of whoever has the operation. */
  function OutsideLabel(o: Operation, i: OperationId): Label {
    match o.stage
    case LockBuffer => LLockBuffer(i, false)
    case TryPreQueue => LQueue(i, false)
    case PassThrough => LPass(i)
    case AwaitPost => LEnterPost(i, true)
    case TryPostQueue => LQueue(i, true)
    case FinishSwap(_) => LSwap(i)
    case FinishCount(_, _) => LCount(i)
    case FinishDrop(_) => LDropLogical(i)
    case _ => if o.life == Unlinked then LFree(i) else LUnlink(i)
  }

  /** A bound on the steps to the operation's end. */
  function Distance(o: Operation): nat {
    match o.stage
    case AwaitPost => 7
    case TryPostQueue => 6
    case FinishSwap(_) => 5
    case FinishCount(_, _) => 4
    case FinishDrop(_) => 3
    case Done => if o.life == Unlinked then 1 else 2
    case _ => 8
  }

  /** A state after the join. */
  ghost predicate Joined(s: State) {
    Invariant(s) && s.worker == Terminated
  }

  /** What the invariant says of an operation after the join. */
  predicate LeftOver(s: State, o: Operation) {
    && s.stopping && o.instance in s.instances
    && (Outside(o.stage) || (o.stage == Done && o.life != Linked))
    && (o.stage.FinishCount? ==> o.stage.first)
    && (o.stage.FinishDrop? ==> o.references == 1)
  }

  lemma OutsideFacts(s: State, i: OperationId)
    requires Joined(s) && i in s.ops
    ensures LeftOver(s, s.ops[i])
  {
    hide Lists, ArmFits, LeaseFits, WatchFits, Balanced, Bounded, Referenced, Ticketed, Claimed, Swept;
    NotWithWorker(s, i);
    Facts(s, i);
  }

  /** A post needs its data idle; every other step of an operation after the join is enabled at once. */
  lemma OutsideEnabled(s: State, i: OperationId)
    requires i in s.ops && LeftOver(s, s.ops[i])
    requires s.ops[i].stage == AwaitPost ==> DataIdle(s, s.ops[i].preIdentity)
    ensures var l := OutsideLabel(s.ops[i], i); CallbackEnabled(s, l) && Drains(l) && CallbackCode(l) && l.op == i
  {
    hide DataIdle;
  }

  /** The step brings the end nearer; a draining post finishes its operation. */
  predicate Closer(s: State, t: State, i: OperationId) {
    && t.worker == s.worker
    && (i in s.ops && i in t.ops ==>
          && Distance(t.ops[i]) < Distance(s.ops[i])
          && (s.ops[i].stage == AwaitPost ==> t.ops[i].stage == FinishSwap(InCallback)))
    && (i in s.ops && s.ops[i].stage == AwaitPost ==> i in t.ops)
  }

  lemma QueueCloser(s: State, l: Label, i: OperationId)
    requires i in s.ops && LeftOver(s, s.ops[i]) && l == OutsideLabel(s.ops[i], i) && CallbackEnabled(s, l) && l.LQueue?
    ensures Closer(s, CallbackApply(s, l), i)
  {
    assert Refused(s, s.ops[i], l.post);
    hide Refused;
  }

  lemma PreCloser(s: State, l: Label, i: OperationId)
    requires i in s.ops && LeftOver(s, s.ops[i]) && l == OutsideLabel(s.ops[i], i) && CallbackEnabled(s, l)
    requires l.LLockBuffer? || l.LPass? || l.LEnterPost?
    ensures Closer(s, CallbackApply(s, l), i)
  {
    hide DataIdle, PostMode;
  }

  lemma FinishCloser(s: State, l: Label, i: OperationId)
    requires i in s.ops && LeftOver(s, s.ops[i]) && l == OutsideLabel(s.ops[i], i) && CallbackEnabled(s, l)
    requires l.LSwap? || l.LCount? || l.LDropLogical?
    ensures Closer(s, CallbackApply(s, l), i)
  {
  }

  lemma DeathCloser(s: State, l: Label, i: OperationId)
    requires i in s.ops && LeftOver(s, s.ops[i]) && l == OutsideLabel(s.ops[i], i) && CallbackEnabled(s, l)
    requires l.LUnlink? || l.LFree?
    ensures Closer(s, CallbackApply(s, l), i)
  {
    hide Without;
  }

  /** Nothing but this operation moved. */
  ghost predicate OthersAt(s: State, t: State, i: OperationId) {
    forall j | j != i :: (j in t.ops <==> j in s.ops) && (j in s.ops ==> t.ops[j].stage == s.ops[j].stage)
  }

  lemma OutsideAlone(s: State, l: Label, i: OperationId)
    requires Lists(s) && Enabled(s, l) && s.stopping && NamesOperation(l) && l.op == i
    ensures OthersAt(s, Apply(s, l), i)
  {
    hide Enabled, Apply, PositionFrame, LeaseFrame, StopFrame, Alive, OperationGrows, Lists;
    forall j | j != i ensures var t := Apply(s, l);
                              (j in t.ops <==> j in s.ops) && (j in s.ops ==> t.ops[j].stage == s.ops[j].stage) {
      StepFrame(s, l, j);
      if j in s.ops {
        CreatedBefore(s, j);
      }
    }
  }

  /** One step of whoever has the operation brings its end nearer and leaves the others alone. */
  lemma OutsideStep(s: State, i: OperationId)
    requires Joined(s) && i in s.ops && (s.ops[i].stage == AwaitPost ==> DataIdle(s, s.ops[i].preIdentity))
    ensures var l := OutsideLabel(s.ops[i], i); var t := Apply(s, l);
            Enabled(s, l) && Drains(l) && Joined(t) && OthersAt(s, t, i) && Closer(s, t, i)
  {
    hide Invariant, DataIdle, OthersAt, OutsideLabel, Distance, CallbackEnabled, CallbackApply, WorkerEnabled,
      WorkerApply, ControlEnabled, ControlApply, SetupEnabled, SetupApply;
    var l := OutsideLabel(s.ops[i], i);
    OutsideFacts(s, i);
    OutsideEnabled(s, i);
    if l.LQueue? {
      QueueCloser(s, l, i);
    } else if l.LLockBuffer? || l.LPass? || l.LEnterPost? {
      PreCloser(s, l, i);
    } else if l.LUnlink? || l.LFree? {
      DeathCloser(s, l, i);
    } else {
      FinishCloser(s, l, i);
    }
    Parts(s);
    OutsideAlone(s, l, i);
    StepKeeps(s, l);
  }

  /** An operation that need not wait for another's data goes to its end, or to Filter Manager before its post. */
  lemma {:induction false} LeadOut(s: State, i: OperationId) returns (labels: seq<Label>, t: State)
    requires Joined(s) && i in s.ops && s.ops[i].stage != AwaitPost
    ensures DrainPath(s, labels, t) && Joined(t) && OthersAt(s, t, i)
    ensures if i in t.ops then t.ops[i].stage == AwaitPost && Distance(s.ops[i]) == 8 && |labels| == 1
            else |labels| <= Distance(s.ops[i])
    decreases Distance(s.ops[i])
  {
    hide Invariant, Enabled, Apply, DataIdle, OutsideLabel;
    var l := OutsideLabel(s.ops[i], i);
    OutsideStep(s, i);
    var u := Apply(s, l);
    if i !in u.ops || u.ops[i].stage == AwaitPost {
      labels, t := [l], u;
      assert DrainPath(u, labels[1..], t);
    } else {
      labels, t := LeadOut(u, i);
      labels := [l] + labels;
    }
  }

  /** The operations that are not with Filter Manager between their pre and their post. */
  ghost function Moving(s: State): set<OperationId> {
    set i | i in s.ops && s.ops[i].stage != AwaitPost
  }

  lemma {:induction false} PathJoin(s: State, a: seq<Label>, u: State, b: seq<Label>, t: State)
    requires DrainPath(s, a, u) && DrainPath(u, b, t)
    ensures DrainPath(s, a + b, t)
    decreases |a|
  {
    hide Enabled, Apply, Drains;
    if a == [] {
      assert a + b == b;
    } else {
      PathJoin(Apply(s, a[0]), a[1..], u, b, t);
      assert (a + b)[1..] == a[1..] + b;
    }
  }

  /** An operation gone is one operation less. */
  lemma Gone(s: State, t: State, i: OperationId)
    requires i in s.ops && i !in t.ops && OthersAt(s, t, i)
    ensures |t.ops| == |s.ops| - 1 && |Moving(t)| <= |Moving(s)|
  {
    assert t.ops.Keys == s.ops.Keys - {i};
    assert |t.ops| == |t.ops.Keys| && |s.ops| == |s.ops.Keys|;
    GoneMoving(s, t, i);
    hide Moving, OthersAt;
  }

  lemma GoneMoving(s: State, t: State, i: OperationId)
    requires i in s.ops && i !in t.ops && OthersAt(s, t, i)
    ensures |Moving(t)| <= |Moving(s)|
  {
    assert Moving(t) == Moving(s) - {i};
  }

  /** One that waits for its post is one less that moves. */
  lemma Parked(s: State, t: State, i: OperationId)
    requires i in s.ops && i in t.ops && s.ops[i].stage != AwaitPost && t.ops[i].stage == AwaitPost && OthersAt(s, t, i)
    ensures |t.ops| == |s.ops| && |Moving(t)| == |Moving(s)| - 1
  {
    assert t.ops.Keys == s.ops.Keys;
    assert |t.ops| == |t.ops.Keys| && |s.ops| == |s.ops.Keys|;
    assert Moving(t) == Moving(s) - {i};
  }

  /** The next operation to lead out: one that moves, or any once all wait for their posts, whose data are idle then. */
  lemma Waiting(s: State, i: OperationId)
    requires Moving(s) == {} && i in s.ops
    ensures s.ops[i].stage == AwaitPost && DataIdle(s, s.ops[i].preIdentity)
  {
    forall j | j in s.ops ensures s.ops[j].stage == AwaitPost {
      assert j !in Moving(s);
    }
  }

  lemma LeadFirst(s: State, i: OperationId) returns (labels: seq<Label>, t: State)
    requires Joined(s) && i in s.ops && (Moving(s) == {} || i in Moving(s))
    ensures DrainPath(s, labels, t) && Joined(t)
    ensures |t.ops| < |s.ops| || (|t.ops| == |s.ops| && |Moving(t)| < |Moving(s)|)
    ensures |labels| + 9 * |t.ops| + |Moving(t)| <= 9 * |s.ops| + |Moving(s)|
  {
    hide Invariant, Enabled, Apply, DataIdle, OutsideLabel, Drains, OthersAt;
    if Moving(s) == {} {
      Waiting(s, i);
      var l := OutsideLabel(s.ops[i], i);
      OutsideStep(s, i);
      labels, t := LeadOut(Apply(s, l), i);
      labels := [l] + labels;
      AtVia(s, Apply(s, l), t, i);
    } else {
      labels, t := LeadOut(s, i);
    }
    if i in t.ops {
      Parked(s, t, i);
    } else {
      Gone(s, t, i);
    }
  }

  lemma AtVia(s: State, u: State, t: State, i: OperationId)
    requires OthersAt(s, u, i) && OthersAt(u, t, i)
    ensures OthersAt(s, t, i)
  {
  }

  /**
  After the join unload can always be finished: callbacks, draining posts and last drops reach a state without any
  operation, within nine steps for each.
  */
  lemma {:induction false} UnloadFinishes(s: State) returns (labels: seq<Label>, t: State)
    requires Invariant(s) && s.worker == Terminated
    ensures DrainPath(s, labels, t) && Invariant(t) && t.worker == Terminated && t.ops == map[]
    ensures CallbacksDrained(t) && DropsFinished(t) && |labels| <= 9 * |s.ops| + |Moving(s)|
    decreases |s.ops|, |Moving(s)|
  {
    hide Invariant, Enabled, Apply, Moving, Drains;
    if s.ops == map[] {
      labels, t := [], s;
    } else {
      var i := First(s);
      var a, u := LeadFirst(s, i);
      var b;
      b, t := UnloadFinishes(u);
      PathJoin(s, a, u, b, t);
      labels := a + b;
    }
  }

  lemma First(s: State) returns (i: OperationId)
    requires s.ops != map[]
    ensures i in s.ops && (Moving(s) == {} || i in Moving(s))
  {
    if Moving(s) == {} {
      assert s.ops.Keys != {};
      i :| i in s.ops.Keys;
    } else {
      i :| i in Moving(s);
    }
  }
}
