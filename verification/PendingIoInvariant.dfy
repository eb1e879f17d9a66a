/**
The inductive invariant of the pended-I/O protocol and the counting functions it is stated with.
*/
module PendingIoInvariant {

  import opened Options
  import opened PendingIo

  // ---------------------------------------------------------------------------------------------
  // Shares of an operation
  // ---------------------------------------------------------------------------------------------

  function LogicalShare(o: Operation): nat {
    if o.stage == Done then 0 else 1
  }

  function QueueShare(o: Operation): nat {
    if Queued(o.stage) then 1 else 0
  }

  predicate WorkerHolds(w: WorkerPc, i: OperationId) {
    (w.Holding? || w.Completing? || w.Finishing? || w.Dropping?) && w.op == i
  }

  function WorkerShare(w: WorkerPc, i: OperationId): nat {
    if WorkerHolds(w, i) then 1 else 0
  }

  predicate InWorkItem(w: WorkerPc) {
    w.Holding? || w.Completing? || w.Finishing? || w.Dropping? || w.Freeing? || w.Tail?
  }

  predicate NoDuplicates(q: seq<OperationId>) {
    forall j, k | 0 <= j < k < |q| :: q[j] != q[k]
  }

  // ---------------------------------------------------------------------------------------------
  // Structure of the lists and the worker
  // ---------------------------------------------------------------------------------------------

  ghost predicate Lists(s: State) {
    && (forall i | i in s.ops :: i < s.ledger.created)
    && NoDuplicates(s.order)
    && NoDuplicates(s.work)
    && (forall i :: i in s.order <==> i in s.ops && s.ops[i].life != Unlinked)
    && (forall i :: i in s.work <==> i in s.ops && Queued(s.ops[i].stage))
    && |s.order| == s.ledger.liveContexts
    && |s.work| == s.ledger.queueDepth
    && s.ledger.created == s.ledger.freed + s.ledger.liveContexts
  }

  /** The operation the worker works on is allocated and in the stage that the worker's position says. */
  ghost predicate WorkerFits(s: State) {
    && s.ledger.activeWorkers == (if InWorkItem(s.worker) then 1 else 0)
    && match s.worker
       case Holding(i, post) => i in s.ops && s.ops[i].stage == (if post then PostHeld else PreHeld)
       case Completing(i, post, cancel) =>
         i in s.ops && s.ops[i].stage == (if post then PostDecided else PreDecided(cancel))
       case Finishing(i) => i in s.ops && (RunsIn(s.ops[i].stage, InWorker) || s.ops[i].stage == Done)
       case Dropping(i) => i in s.ops && !RunsIn(s.ops[i].stage, InWorker)
       case Freeing(i) => i < s.ledger.created && (i in s.ops ==> s.ops[i].references == 0)
       case _ => true
  }

  predicate RunsIn(stage: Stage, r: Runner) {
    match stage
    case FinishSwap(b) => b == r
    case FinishCount(b, _) => b == r
    case FinishDrop(b) => b == r
    case _ => false
  }

  /** The worker stands where an operation held by it says. */
  predicate StageFits(w: WorkerPc, i: OperationId, stage: Stage) {
    && (stage == PreHeld ==> w == Holding(i, false))
    && (stage == PostHeld ==> w == Holding(i, true))
    && (stage.PreDecided? ==> w == Completing(i, false, stage.cancel))
    && (stage == PostDecided ==> w.Completing? && w.op == i && w.post)
    && (RunsIn(stage, InWorker) ==> w == Finishing(i))
  }

  predicate Outstanding(stage: Stage, post: bool) {
    if post then stage == PostQueued || stage == PostHeld || stage == PostDecided
    else stage == PreQueued || stage == PreHeld || stage.PreDecided?
  }

  predicate Owned(s: State, i: OperationId, o: Operation) {
    // The reference count is the sum of the shares, and only a count of zero ends the operation.
    && o.references == LogicalShare(o) + QueueShare(o) + WorkerShare(s.worker, i)
    && (o.life == Linked <==> o.references > 0)
    && (o.logicalReleased <==> (o.stage.FinishCount? || o.stage.FinishDrop? || o.stage == Done))
    && (o.stage.FinishCount? ==> o.stage.first)
    && StageFits(s.worker, i, o.stage)
  }

  predicate Routed(s: State, o: Operation) {
    && o.instance in s.instances && s.instances[o.instance].lower == o.lower
    && (o.lower ==> o.read && (o.mode == Pre || o.mode == FailReadLock))
    && (o.stage == LockBuffer ==> o.read)
    && (o.lower && o.mode == FailReadLock ==>
          o.stage == LockBuffer || RunsIn(o.stage, InCallback) || o.stage == Done)
    && (o.stage == TryPreQueue || Outstanding(o.stage, false) ==> o.read ==> o.mdl)
    && (Outstanding(o.stage, false) || Outstanding(o.stage, true) ==> o.data == Some(o.preIdentity))
    && (o.stage == PreQueued ==> !o.postWork)
    && (o.stage == PostQueued ==> o.postWork)
  }

  /** No cancellation sweep has missed a listed operation, and none is undone. */
  predicate Swept(s: State, o: Operation)
    requires o.instance in s.instances
  {
    && o.owner != 0
    && o.generation <= s.topologyGeneration
    && o.wakeReason <= 3
    && (o.life != Unlinked ==>
          && (o.owner == s.owner || o.wakeReason >= 2)
          && (s.stopping ==> o.wakeReason == 3)
          && (s.instances[o.instance].stopping ==> o.wakeReason == 3))
  }

  ghost predicate Operations(s: State) {
    forall i | i in s.ops :: Owned(s, i, s.ops[i]) && Routed(s, s.ops[i]) && Swept(s, s.ops[i])
  }

  // ---------------------------------------------------------------------------------------------
  // Arm, lease and worker event
  // ---------------------------------------------------------------------------------------------

  ghost predicate ArmFits(s: State) {
    && (s.armedMode != NoMode <==> s.target.Some?)
    && (s.armedMode != NoMode <==> s.armedRemaining > 0)
    && s.armedRemaining >= 0
    && (s.target.Some? ==> s.owner != 0 && s.armedGeneration == s.topologyGeneration)
    && (s.target.None? ==> s.armedGeneration == 0)
  }

  ghost predicate LeaseFits(s: State) {
    && (s.owner != 0 <==> s.ownerProcess.Some?)
    && (s.owner != 0 ==> s.owner in s.clients && s.ownerProcess == Some(s.clients[s.owner]))
    && (forall c | c in s.clients :: 1 <= c <= s.nextClient)
    && |s.clients| <= MAX_CLIENTS
    && (s.control.Disconnecting? ==> s.control.client != 0 && s.owner != s.control.client)
    && (s.control.Exiting? ==> s.ownerProcess != Some(s.control.process))
    && (s.stopping && s.control != StopReleasing ==> s.owner == 0)
  }

  ghost predicate WatchFits(s: State) {
    && (s.control == WorkerWatch <==> s.worker.Probing?)
    && (s.worker.Probing? ==> s.worker.epoch == s.armEpoch)
    && (s.worker.Probing? && s.target.Some? ==> s.target == Some(s.worker.target))
  }

  /** Nothing the worker must see can be left behind an unsignalled event. */
  ghost predicate EventFits(s: State) {
    && (s.worker == Starting || s.worker == Watch || s.worker.Probing? || s.worker == Sample || s.worker.Waiting? ==>
          s.work != [] || s.stopping ==> s.workAvailable)
    && (s.worker.Waiting? && !s.worker.armed && s.target.Some? ==> s.workAvailable)
    && (s.worker == Terminated ==> s.stopping && s.work == [])
  }

  // ---------------------------------------------------------------------------------------------
  // Counting operations
  // ---------------------------------------------------------------------------------------------

  datatype Class =
    | Unsettled          // neither post-called, nor cancelled, nor failed at its buffer lock
    | Uncounted          // its logical release is not counted yet
    | PreOutstanding     // pended pre whose completion is not counted yet
    | PostOutstanding
    | UnclaimedUpper
    | For(process: Process)

  predicate Settled(stage: Stage) {
    stage == TryPostQueue || stage == PostQueued || stage == PostHeld || stage == PostDecided ||
    stage.FinishSwap? || stage.FinishCount? || stage.FinishDrop? || stage == Done || stage == PreDecided(true)
  }

  predicate InClass(o: Operation, c: Class) {
    match c
    case Unsettled => !Settled(o.stage)
    case Uncounted => !o.stage.FinishDrop? && o.stage != Done
    case PreOutstanding => o.stage == PreQueued || o.stage == PreHeld
    case PostOutstanding => o.stage == PostQueued || o.stage == PostHeld
    case UnclaimedUpper => o.life != Unlinked && !o.lower && !o.lowerClaimed
    case For(p) => o.target == p
  }

  ghost function Where(ops: map<OperationId, Operation>, c: Class): set<OperationId> {
    set i | i in ops && InClass(ops[i], c)
  }

  ghost function Count(ops: map<OperationId, Operation>, c: Class): nat {
    |Where(ops, c)|
  }

  function One(b: bool): nat { if b then 1 else 0 }

  ghost predicate Balanced(s: State) {
    && s.ledger.created == s.ledger.postCalled + s.ledger.preCancelled + s.ledger.bufferLockFailures
                           + Count(s.ops, Unsettled)
    && s.ledger.created == s.ledger.logicalCompleted + Count(s.ops, Uncounted)
    && s.ledger.preQueued == s.ledger.preCompleted + Count(s.ops, PreOutstanding)
    && s.ledger.postQueued == s.ledger.postCompleted + Count(s.ops, PostOutstanding)
    && s.ledger.violations == 0
  }

  ghost predicate Bounded(s: State) {
    && s.epochUppers + s.armedRemaining <= s.epochLimit <= MAX_BATCH
    && s.epochLowers + Count(s.ops, UnclaimedUpper) <= s.epochUppers
    && |s.order| <= s.epochUppers + s.epochLowers
  }

  /** Every reference on a process has exactly one holder. */
  ghost predicate Referenced(s: State) {
    forall p: Process :: s.references[p] == Holders(s, p)
  }

  ghost function Holders(s: State, p: Process): nat {
    One(s.target == Some(p)) + One(s.ownerProcess == Some(p)) + Count(s.ops, For(p))
    + One(s.worker.Probing? && s.worker.target == p) + s.locals[p]
  }

  // ---------------------------------------------------------------------------------------------
  // Hand-overs and claims
  // ---------------------------------------------------------------------------------------------

  /** The pre (post) of the operation has not been pended yet, though it still may be. */
  predicate Unpended(stage: Stage, post: bool) {
    || stage == LockBuffer || stage == TryPreQueue || stage == PassThrough
    || (post && (Outstanding(stage, false) || stage == AwaitPost || stage == TryPostQueue))
  }

  ghost predicate TicketFits(s: State, t: Ticket) {
    && s.completed[t] <= s.pended[t] <= 1
    && (s.pended[t] == 1 ==> t.op < s.ledger.created)
    && (s.pended[t] == 1 && t.op in s.ops ==> !Unpended(s.ops[t.op].stage, t.post) && s.ops[t.op].preIdentity == t.data)
    && (s.pended[t] > s.completed[t] <==>
          t.op in s.ops && Outstanding(s.ops[t.op].stage, t.post) && s.ops[t.op].preIdentity == t.data)
  }

  ghost predicate Ticketed(s: State) {
    forall t: Ticket :: TicketFits(s, t)
  }

  ghost predicate ClaimFits(s: State, i: OperationId) {
    && s.claims[i] <= 1
    && (s.claims[i] == 1 ==> i < s.ledger.created)
    && (i in s.ops ==> (s.claims[i] == 1 <==> s.ops[i].lowerClaimed))
    && (i in s.ops && s.ops[i].lower ==> s.claims[i] == 0)
  }

  ghost predicate Claimed(s: State) {
    forall i: OperationId :: ClaimFits(s, i)
  }

  ghost predicate Invariant(s: State) {
    && Lists(s) && WorkerFits(s) && Operations(s)
    && ArmFits(s) && LeaseFits(s) && WatchFits(s) && EventFits(s)
    && Balanced(s) && Bounded(s) && Referenced(s)
    && Ticketed(s) && Claimed(s)
  }

  // ---------------------------------------------------------------------------------------------
  // Lemmas about the counts
  // ---------------------------------------------------------------------------------------------

  lemma DifferAt(a: set<OperationId>, b: set<OperationId>, i: OperationId)
    requires forall j | j != i :: j in a <==> j in b
    ensures |b| == |a| - One(i in a) + One(i in b)
  {
    assert a - {i} == b - {i};
    assert |a| == |a - {i}| + One(i in a);
    assert |b| == |b - {i}| + One(i in b);
  }

  lemma CountSet(ops: map<OperationId, Operation>, i: OperationId, o: Operation, c: Class)
    ensures Count(ops[i := o], c) ==
            Count(ops, c) - One(i in ops && InClass(ops[i], c)) + One(InClass(o, c))
  {
    DifferAt(Where(ops, c), Where(ops[i := o], c), i);
  }

  lemma CountRemove(ops: map<OperationId, Operation>, i: OperationId, c: Class)
    ensures Count(ops - {i}, c) == Count(ops, c) - One(i in ops && InClass(ops[i], c))
  {
    assert Where(ops, c) - {i} == Where(ops - {i}, c);
  }

  lemma CountWake(ops: map<OperationId, Operation>, sweep: Sweep, reason: nat, c: Class)
    ensures Count(WakeAll(ops, sweep, reason), c) == Count(ops, c)
  {
    assert Where(WakeAll(ops, sweep, reason), c) == Where(ops, c);
  }

  lemma Uncons(order: seq<OperationId>)
    requires order != [] && NoDuplicates(order)
    ensures NoDuplicates(order[1..]) && order[0] !in order[1..]
    ensures forall j :: j in order <==> j == order[0] || j in order[1..]
  {
    assert order == [order[0]] + order[1..];
  }

  lemma ConsKeeps(head: OperationId, rest: seq<OperationId>)
    requires NoDuplicates(rest) && head !in rest
    ensures NoDuplicates([head] + rest)
  {
  }

  lemma WithoutIs(order: seq<OperationId>, i: OperationId)
    requires NoDuplicates(order)
    ensures NoDuplicates(Without(order, i))
    ensures forall j :: j in Without(order, i) <==> j in order && j != i
    ensures |Without(order, i)| == |order| - One(i in order)
  {
    if order == [] {
    } else {
      Uncons(order);
      if order[0] != i {
        WithoutIs(order[1..], i);
        ConsKeeps(order[0], Without(order[1..], i));
      }
    }
  }

  lemma Snoc(order: seq<OperationId>, i: OperationId)
    requires NoDuplicates(order) && i !in order
    ensures NoDuplicates(order + [i])
    ensures forall j :: j in order + [i] <==> j in order || j == i
  {
  }

  // ---------------------------------------------------------------------------------------------
  // Changing one operation
  // ---------------------------------------------------------------------------------------------

  /** What never changes in the life of an operation, but for its claim. */
  predicate SameIdentity(u: Operation, o: Operation) {
    && o.instance == u.instance && o.lower == u.lower && o.file == u.file && o.target == u.target
    && o.preIdentity == u.preIdentity && o.generation == u.generation && o.owner == u.owner
    && o.mode == u.mode && o.read == u.read && o.lowerClaimed == u.lowerClaimed
  }

  /** The worker moved, if at all, between positions that concern no operation but `i`. */
  predicate MovesAt(w: WorkerPc, x: WorkerPc, i: OperationId) {
    x == w || (Concerns(w, i) && Concerns(x, i))
  }

  predicate Concerns(w: WorkerPc, i: OperationId) {
    match w
    case Holding(j, _) => j == i
    case Completing(j, _, _) => j == i
    case Finishing(j) => j == i
    case Dropping(j) => j == i
    case _ => true
  }

  /** `t` is `s` but for operation `i`, the worker and its queue and event, the ledger and the hand-overs. */
  predicate ChangesOnly(s: State, t: State, i: OperationId, o: Operation) {
    t == s.(ops := s.ops[i := o], work := t.work, worker := t.worker, workAvailable := t.workAvailable,
            ledger := t.ledger, pended := t.pended, completed := t.completed)
  }

  /** Moving from one stage to the other neither pends nor completes, and rules pending out if anything. */
  predicate SameHandOver(a: Stage, b: Stage) {
    && Outstanding(b, false) == Outstanding(a, false) && Outstanding(b, true) == Outstanding(a, true)
    && (Unpended(b, false) ==> Unpended(a, false)) && (Unpended(b, true) ==> Unpended(a, true))
  }

  lemma OperationsAfter(s: State, t: State, i: OperationId, o: Operation)
    requires Operations(s) && i in s.ops && ChangesOnly(s, t, i, o) && MovesAt(s.worker, t.worker, i)
    requires Owned(t, i, o) && Routed(t, o) && Swept(t, o)
    ensures Operations(t)
  {
    forall j | j in t.ops ensures Owned(t, j, t.ops[j]) && Routed(t, t.ops[j]) && Swept(t, t.ops[j]) {
      if j != i {
        assert t.ops[j] == s.ops[j];
      }
    }
  }

  lemma ListsAfter(s: State, t: State, i: OperationId, o: Operation)
    requires Lists(s) && i in s.ops && ChangesOnly(s, t, i, o) && t.work == s.work
    requires Queued(o.stage) == Queued(s.ops[i].stage) && (o.life == Unlinked) == (s.ops[i].life == Unlinked)
    requires t.ledger.created == s.ledger.created && t.ledger.freed == s.ledger.freed
    requires t.ledger.liveContexts == s.ledger.liveContexts && t.ledger.queueDepth == s.ledger.queueDepth
    ensures Lists(t)
  {
  }

  lemma CountsAfter(s: State, t: State, i: OperationId, o: Operation)
    requires i in s.ops && ChangesOnly(s, t, i, o) && SameIdentity(s.ops[i], o)
    ensures forall p :: Count(t.ops, For(p)) == Count(s.ops, For(p))
    ensures forall c: Class | !c.For? ::
              Count(t.ops, c) == Count(s.ops, c) - One(InClass(s.ops[i], c)) + One(InClass(o, c))
  {
    forall c: Class
      ensures Count(t.ops, c) == Count(s.ops, c) - One(InClass(s.ops[i], c)) + One(InClass(o, c))
    {
      CountSet(s.ops, i, o, c);
    }
  }

  lemma ReferencedAfter(s: State, t: State, i: OperationId, o: Operation)
    requires Referenced(s) && i in s.ops && ChangesOnly(s, t, i, o) && SameIdentity(s.ops[i], o)
    requires t.worker.Probing? <==> s.worker.Probing?
    requires s.worker.Probing? ==> t.worker == s.worker
    ensures Referenced(t)
  {
    CountsAfter(s, t, i, o);
    forall p: Process ensures t.references[p] == Holders(t, p) {
      assert s.references[p] == Holders(s, p);
    }
  }

  lemma BoundedAfter(s: State, t: State, i: OperationId, o: Operation)
    requires Bounded(s) && i in s.ops && ChangesOnly(s, t, i, o) && SameIdentity(s.ops[i], o)
    requires (o.life == Unlinked) == (s.ops[i].life == Unlinked)
    ensures Bounded(t)
  {
    CountSet(s.ops, i, o, UnclaimedUpper);
  }

  lemma TicketedAfter(s: State, t: State, i: OperationId, o: Operation)
    requires Ticketed(s) && i in s.ops && ChangesOnly(s, t, i, o) && SameIdentity(s.ops[i], o)
    requires t.pended == s.pended && t.completed == s.completed && t.ledger.created == s.ledger.created
    requires SameHandOver(s.ops[i].stage, o.stage)
    ensures Ticketed(t)
  {
    forall k: Ticket ensures TicketFits(t, k) {
      assert TicketFits(s, k);
    }
  }

  lemma ClaimedAfter(s: State, t: State, i: OperationId, o: Operation)
    requires Claimed(s) && i in s.ops && ChangesOnly(s, t, i, o) && SameIdentity(s.ops[i], o)
    requires t.ledger.created == s.ledger.created
    ensures Claimed(t)
  {
    forall j: OperationId ensures ClaimFits(t, j) {
      assert ClaimFits(s, j);
    }
  }

  lemma BalancedAfter(s: State, t: State, i: OperationId, o: Operation)
    requires Balanced(s) && i in s.ops && ChangesOnly(s, t, i, o)
    requires t.ledger.created == s.ledger.created && t.ledger.violations == s.ledger.violations
    requires One(InClass(s.ops[i], Unsettled)) - One(InClass(o, Unsettled)) ==
             t.ledger.postCalled - s.ledger.postCalled + t.ledger.bufferLockFailures - s.ledger.bufferLockFailures
             + t.ledger.preCancelled - s.ledger.preCancelled
    requires One(InClass(s.ops[i], Uncounted)) - One(InClass(o, Uncounted)) ==
             t.ledger.logicalCompleted - s.ledger.logicalCompleted
    requires One(InClass(o, PreOutstanding)) - One(InClass(s.ops[i], PreOutstanding)) ==
             t.ledger.preQueued - s.ledger.preQueued - (t.ledger.preCompleted - s.ledger.preCompleted)
    requires One(InClass(o, PostOutstanding)) - One(InClass(s.ops[i], PostOutstanding)) ==
             t.ledger.postQueued - s.ledger.postQueued - (t.ledger.postCompleted - s.ledger.postCompleted)
    ensures Balanced(t)
  {
    CountSet(s.ops, i, o, Unsettled);
    CountSet(s.ops, i, o, Uncounted);
    CountSet(s.ops, i, o, PreOutstanding);
    CountSet(s.ops, i, o, PostOutstanding);
  }

  /** The arm, the lease and the watcher do not depend on the operations. */
  lemma ControlAfter(s: State, t: State, i: OperationId, o: Operation)
    requires ArmFits(s) && LeaseFits(s) && WatchFits(s) && i in s.ops && ChangesOnly(s, t, i, o)
    requires t.worker == s.worker || (!s.worker.Probing? && !t.worker.Probing?)
    ensures ArmFits(t) && LeaseFits(t) && WatchFits(t)
  {
  }

  lemma Facts(s: State, i: OperationId)
    requires Operations(s) && i in s.ops
    ensures Owned(s, i, s.ops[i]) && Routed(s, s.ops[i]) && Swept(s, s.ops[i])
  {
  }

  lemma CreatedBefore(s: State, i: OperationId)
    requires Lists(s) && i in s.ops
    ensures i < s.ledger.created
  {
  }

  /** `t` is `s` but for the arm and the references; an unarmed provider stays so. */
  predicate ArmOnly(s: State, t: State) {
    && t == s.(target := t.target, armedMode := t.armedMode, armedRemaining := t.armedRemaining,
               armedGeneration := t.armedGeneration, references := t.references, locals := t.locals)
    && (t.target.Some? ==> s.target.Some?)
  }

  lemma ArmOnlyOperations(s: State, t: State)
    requires Operations(s) && ArmOnly(s, t)
    ensures Operations(t)
  {
    forall i | i in t.ops ensures Owned(t, i, t.ops[i]) && Routed(t, t.ops[i]) && Swept(t, t.ops[i]) {
      assert Owned(s, i, s.ops[i]) && Routed(s, s.ops[i]) && Swept(s, s.ops[i]);
    }
  }

  lemma ArmOnlyOthers(s: State, t: State)
    requires Lists(s) && WorkerFits(s) && EventFits(s) && LeaseFits(s) && Balanced(s) && ArmOnly(s, t)
    requires Ticketed(s) && Claimed(s)
    ensures Lists(t) && WorkerFits(t) && EventFits(t) && LeaseFits(t) && Balanced(t) && Ticketed(t) && Claimed(t)
  {
    forall k: Ticket ensures TicketFits(t, k) { assert TicketFits(s, k); }
    forall j: OperationId ensures ClaimFits(t, j) { assert ClaimFits(s, j); }
  }
}
