/**
What the sections of the pended-I/O provider decide, for which request and in which mode, and what that means over a
run.
*/
module PendingIoDecisions {

  import opened Options
  import opened PendingIo
  import opened PendingIoInvariant
  import opened PendingIoRuns
  import opened PendingIoGrowth
  import opened PendingIoOrder
  import opened PendingIoTheorems
  import opened PendingIoEffects

  // ---------------------------------------------------------------------------------------------
  // Admission
  // ---------------------------------------------------------------------------------------------

  /** A read at a lower instance that is running. */
  predicate AtLower(s: State, l: Label) {
    l.LAdmit? && Runs(s, l) && s.instances[l.instance].lower && l.read
  }

  /** The listed upper whose very I/O this lower read is: current, not released, not woken and not claimed. */
  predicate IsPair(s: State, l: Label, u: OperationId)
    requires l.LAdmit?
  {
    && u in s.ops && !s.ops[u].lower && (s.ops[u].mode == DrainPair || s.ops[u].mode == FailReadLock)
    && s.ops[u].preIdentity == l.data && s.ops[u].file == l.file && s.ops[u].target == l.requestor
    && !s.ops[u].lowerClaimed && !s.ops[u].logicalReleased && s.ops[u].wakeReason < 2
    && s.ops[u].owner == s.owner && s.ops[u].generation == s.topologyGeneration
  }

  /** What the pre callback does first with an operation of this mode. */
  predicate StartsAs(stage: Stage, lower: bool, mode: Mode, read: bool) {
    match mode
    case Pre => stage == if read then LockBuffer else TryPreQueue
    case Both => stage == if read then LockBuffer else TryPreQueue
    case FailPreQueue => stage == if read then LockBuffer else TryPreQueue
    case FailReadLock => stage == if !lower then PassThrough else if read then LockBuffer else TryPreQueue
    case _ => stage == PassThrough
  }

  /** A new operation for this request. */
  predicate NewFor(s: State, l: Label, o: Operation, lower: bool, mode: Mode)
    requires l.LAdmit?
  {
    && o.lower == lower && o.mode == mode && o.instance == l.instance && o.file == l.file && o.read == l.read
    && o.target == l.requestor && o.preIdentity == l.data && o.owner == s.owner && o.generation == s.topologyGeneration
    && o.references == 1 && !o.logicalReleased && o.life == Linked && o.data.None? && o.wakeReason == 0 && !o.resume
    && !o.lowerClaimed && !o.postWork && !o.mdl && StartsAs(o.stage, lower, mode, l.read)
  }

  /** One more operation, at the end of the list, and the others as in `ops`. */
  predicate Publishes(s: State, l: Label, t: State, ops: map<OperationId, Operation>, lower: bool, mode: Mode)
    requires l.LAdmit?
  {
    var i := s.ledger.created;
    && t.order == s.order + [i] && t.ledger.created == i + 1
    && i in t.ops && t.ops == ops[i := t.ops[i]] && NewFor(s, l, t.ops[i], lower, mode)
  }

  predicate PublishesNothing(s: State, t: State, ops: map<OperationId, Operation>) {
    t.order == s.order && t.ledger.created == s.ledger.created && t.ops == ops
  }

  lemma {:induction false} FirstOf(s: State, order: seq<OperationId>, l: Label) returns (n: nat)
    requires l.LAdmit? && forall i | i in order :: i in s.ops
    ensures n <= |order| && forall m | 0 <= m < n :: !Eligible(s, s.ops[order[m]], l.data, l.file, l.requestor)
    ensures n < |order| ==> Eligible(s, s.ops[order[n]], l.data, l.file, l.requestor)
    ensures FindPair(s, order, l.data, l.file, l.requestor) == if n < |order| then Some(order[n]) else None
  {
    hide Eligible;
    if order == [] || Eligible(s, s.ops[order[0]], l.data, l.file, l.requestor) {
      n := 0;
    } else {
      n := FirstOf(s, order[1..], l);
      n := n + 1;
      assert forall m | 0 < m <= |order| - 1 :: order[m] == order[1..][m - 1];
    }
  }

  /** A lower operation of the same data is over or in a callback, so it is never taken for the pair's upper. */
  lemma EligibleIsPair(s: State, l: Label, u: OperationId)
    requires Invariant(s) && l.LAdmit? && DataIdle(s, l.data) && u in s.ops
    ensures Eligible(s, s.ops[u], l.data, l.file, l.requestor) <==> IsPair(s, l, u)
  {
    hide Lists, WorkerFits, ArmFits, LeaseFits, WatchFits, EventFits, Balanced, Bounded, Referenced, Ticketed, Claimed;
    Facts(s, u);
  }

  lemma ListedKnown(s: State)
    requires Invariant(s)
    ensures forall i | i in s.order :: i in s.ops
    ensures s.ledger.created !in s.ops
  {
    hide WorkerFits, Operations, ArmFits, LeaseFits, WatchFits, EventFits, Balanced, Bounded, Referenced, Ticketed,
      Claimed;
  }

  /**
  The admission at a lower instance: the n-th listed operation is the first that is the pair of this read, or there is
  none and n is the length of the list; exactly that one is claimed, and nothing happens without one.
  */
  lemma LowerAdmission(s: State, l: Label) returns (n: nat)
    requires Invariant(s) && Enabled(s, l) && AtLower(s, l)
    ensures n <= |s.order| && forall m | 0 <= m < n :: !IsPair(s, l, s.order[m])
    ensures n == |s.order| ==> Apply(s, l) == s
    ensures n < |s.order| ==>
              var t, u := Apply(s, l), s.order[n];
              && IsPair(s, l, u) && t.claims == s.claims + multiset{u}
              && var ops := s.ops[u := s.ops[u].(lowerClaimed := true)];
                 var mode := if s.ops[u].mode == FailReadLock then FailReadLock else Pre;
                 if l.granted then Publishes(s, l, t, ops, true, mode) else PublishesNothing(s, t, ops)
  {
    hide Invariant, DataIdle, Eligible;
    ListedKnown(s);
    n := FirstOf(s, s.order, l);
    forall m | 0 <= m < |s.order|
      ensures Eligible(s, s.ops[s.order[m]], l.data, l.file, l.requestor) <==> IsPair(s, l, s.order[m])
    {
      EligibleIsPair(s, l, s.order[m]);
    }
  }

  lemma NewIsFor(s: State, l: Label, lower: bool, generation: nat, owner: ClientId, mode: Mode)
    requires l.LAdmit? && generation == s.topologyGeneration && owner == s.owner && mode != NoMode
    ensures NewFor(s, l, NewOperation(l.instance, lower, l.file, l.requestor, l.data, generation, owner, mode, l.read),
                   lower, mode)
  {
  }

  lemma PublishesFor(s: State, c: State, l: Label, o: Operation, lower: bool, mode: Mode, granted: bool)
    requires l.LAdmit? && NewFor(s, l, o, lower, mode)
    requires c.ledger == s.ledger && c.order == s.order && s.ledger.created !in c.ops
    ensures var t := Publish(c, o, granted);
            && t.claims == c.claims
            && if granted then Publishes(s, l, t, c.ops, lower, mode) else PublishesNothing(s, t, c.ops)
  {
    hide NewFor;
  }

  /** The admission of a request that the arm is for takes a reservation, and publishes unless memory is refused. */
  lemma UpperAdmission(s: State, l: Label)
    requires Invariant(s) && Enabled(s, l) && ForArm(s, l)
    ensures var t := Apply(s, l);
            && t.claims == s.claims
            && if l.granted && s.armedMode != FailAlloc then Publishes(s, l, t, s.ops, false, s.armedMode)
               else PublishesNothing(s, t, s.ops)
  {
    ArmedHas(s);
    ListedKnown(s);
    ConsumeKeeps(s, l.requestor);
    NewIsFor(s, l, false, s.armedGeneration, s.owner, s.armedMode);
    var o := NewOperation(l.instance, false, l.file, l.requestor, l.data, s.armedGeneration, s.owner, s.armedMode,
                          l.read);
    PublishesFor(s, Consume(s, l.requestor), l, o, false, s.armedMode, l.granted && s.armedMode != FailAlloc);
    hide Invariant, DataIdle, Eligible, Consume, Publish, NewOperation, Publishes, PublishesNothing;
  }

  /** Every other request passes by. */
  lemma OtherAdmission(s: State, l: Label)
    requires Invariant(s) && Enabled(s, l) && l.LAdmit? && !ForArm(s, l) && !AtLower(s, l)
    ensures Apply(s, l) == s
  {
    ArmedHas(s);
    hide Invariant, DataIdle, Eligible;
  }

  // ---------------------------------------------------------------------------------------------
  // The other sections of the callbacks, and the worker's decision
  // ---------------------------------------------------------------------------------------------

  /** A callback's data goes to the worker with a reference of its own, or stays with the callback. */
  lemma QueueDecision(s: State, l: Label)
    requires Enabled(s, l) && l.LQueue?
    ensures var t, o := Apply(s, l), s.ops[l.op];
            t.ops == s.ops[l.op :=
              if Accepts(s, o, l.post) then
                o.(references := o.references + 1, data := Some(o.preIdentity), postWork := l.post,
                   wakeReason := if l.post then 0 else o.wakeReason, resume := !l.post && o.resume,
                   stage := if l.post then PostQueued else PreQueued)
              else o.(stage := if l.post then FinishSwap(InCallback) else AwaitPost)]
  {
  }

  /** A pre goes on to queue only with its pages locked, which FAIL_READ_LOCK never does; otherwise it is finished. */
  lemma LockDecision(s: State, l: Label)
    requires Enabled(s, l) && l.LLockBuffer?
    ensures var t, o := Apply(s, l), s.ops[l.op];
            t.ops == s.ops[l.op := if l.locked && o.mode != FailReadLock then o.(mdl := true, stage := TryPreQueue)
                                   else o.(stage := FinishSwap(InCallback))]
  {
    hide DataIdle;
  }

  /** A post is offered to the worker in the modes POST, BOTH and FAIL_POST_QUEUE, unless it drains. */
  lemma PostDecision(s: State, l: Label)
    requires Enabled(s, l) && l.LEnterPost?
    ensures var t, o := Apply(s, l), s.ops[l.op];
            && t.ops == s.ops[l.op := o.(stage := t.ops[l.op].stage)]
            && match o.mode
               case Post => t.ops[l.op].stage == if l.draining then FinishSwap(InCallback) else TryPostQueue
               case Both => t.ops[l.op].stage == if l.draining then FinishSwap(InCallback) else TryPostQueue
               case FailPostQueue => t.ops[l.op].stage == if l.draining then FinishSwap(InCallback) else TryPostQueue
               case _ => t.ops[l.op].stage == FinishSwap(InCallback)
  {
    hide DataIdle;
  }

  /** The turns of the worker's loop: a probe if there is an arm, a timed wait if there still is one, and the end. */
  lemma WorkerLoop(s: State, l: Label)
    requires Enabled(s, l) && (l.LSnapshot? || l.LVerdict? || l.LSample? || l.LWait? || (l.LPop? && s.work == []))
    ensures Apply(s, l).worker ==
            if l.LSnapshot? && s.target.Some? then Probing(s.target.value, s.armEpoch)
            else if l.LSnapshot? || l.LVerdict? then Sample
            else if l.LSample? then Waiting(s.target.Some?)
            else if l.LWait? then Draining
            else if s.stopping then Terminated else Watch
    ensures Apply(s, l).control ==
            if l.LSnapshot? && s.target.Some? then WorkerWatch else if l.LVerdict? then Free else s.control
  {
  }

  /** The worker forwards a pre exactly if nothing revokes it. */
  lemma WorkerDecision(s: State, l: Label)
    requires Enabled(s, l) && l.LDecide?
    ensures var t, i, post := Apply(s, l), s.worker.op, s.worker.post;
            var cancel := Revokes(s, s.ops[i], post, l.waited);
            && t.worker == Completing(i, post, cancel)
            && t.ops == s.ops[i := s.ops[i].(stage := if post then PostDecided else PreDecided(cancel))]
  {
  }

  /** The worker completes the held data; a post and a cancelled pre end with it, a forwarded pre awaits its post. */
  lemma WorkerCompletion(s: State, l: Label)
    requires Enabled(s, l) && l.LComplete?
    ensures var t, i, post := Apply(s, l), s.worker.op, s.worker.post;
            var over := post || s.worker.cancel;
            && t.completed == s.completed + multiset{Ticket(i, s.ops[i].data.value, post)}
            && t.worker == (if over then Finishing(i) else Dropping(i))
            && t.ops == s.ops[i := s.ops[i].(stage := if over then FinishSwap(InWorker) else AwaitPost)]
  {
  }

  lemma DropApplies(s: State, l: Label)
    requires Enabled(s, l) && (l.LDropLogical? || l.LDropWorker?)
    ensures l.LDropLogical? ==> l.op in s.ops && Apply(s, l) == DropLogical(s, l.op)
    ensures l.LDropWorker? ==> s.worker.Dropping? && s.worker.op in s.ops && Apply(s, l) == DropWorker(s)
  {
    hide DropLogical, DropWorker, DataIdle;
  }

  /** A share is let go: at zero the operation's life ends and whoever read zero goes on to unlink it. */
  lemma DropDecision(s: State, l: Label)
    requires Enabled(s, l) && (l.LDropLogical? || l.LDropWorker?)
    ensures var t, i := Apply(s, l), if l.LDropLogical? then l.op else s.worker.op;
            var rest := s.ops[i].references - 1;
            && t.ops == s.ops[i := s.ops[i].(references := rest, life := if rest == 0 then Unlinking else s.ops[i].life,
                                             stage := if l.LDropLogical? then Done else s.ops[i].stage)]
            && t.worker == if l.LDropLogical? then s.worker else if rest == 0 then Freeing(i) else Tail
  {
    DropApplies(s, l);
    hide Enabled, Apply;
  }

  lemma {:induction false} WithoutAt(order: seq<OperationId>, i: OperationId) returns (n: nat)
    requires i in order
    ensures n < |order| && order[n] == i && Without(order, i) == order[..n] + order[n + 1..]
  {
    if order[0] == i {
      n := 0;
    } else {
      assert order == [order[0]] + order[1..];
      n := WithoutAt(order[1..], i);
      n := n + 1;
      assert order[..n] == [order[0]] + order[1..][..n - 1];
    }
  }

  lemma DyingIsListed(s: State, i: OperationId)
    requires Invariant(s) && i in s.ops && s.ops[i].life == Unlinking
    ensures i in s.order
  {
    hide WorkerFits, Operations, ArmFits, LeaseFits, WatchFits, EventFits, Balanced, Bounded, Referenced, Ticketed,
      Claimed;
  }

  lemma UnlinkApplies(s: State, l: Label)
    requires Enabled(s, l) && l.LUnlink?
    ensures l.op in s.ops && s.ops[l.op].life == Unlinking && Apply(s, l) == Unlink(s, l.op)
  {
    hide Unlink, DataIdle;
  }

  /** The unlink takes this one operation out of the list and keeps the order of the others. */
  lemma UnlinkDecision(s: State, l: Label) returns (n: nat)
    requires Invariant(s) && Enabled(s, l) && l.LUnlink?
    ensures var t := Apply(s, l);
            && n < |s.order| && s.order[n] == l.op && t.order == s.order[..n] + s.order[n + 1..]
            && t.ops == s.ops[l.op := s.ops[l.op].(life := Unlinked)]
  {
    hide Invariant, Without, Enabled, Apply;
    UnlinkApplies(s, l);
    DyingIsListed(s, l.op);
    n := WithoutAt(s.order, l.op);
  }

  /** Where the sections under g_Control leave it. */
  lemma ControlCourse(s: State, l: Label)
    requires Enabled(s, l) && !l.LMessage? && ControlCode(l)
    ensures var control := Apply(s, l).control;
            match l
            case LConnect(_) => control == Free
            case LDisconnect(client) => control == Disconnecting(client)
            case LExit(process) => control == Exiting(process)
            case LMessageRelease => s.control.MessageReleasing? && control == Replying(s.control.client)
            case LStop => control == StopReleasing
            case _ => control == Free
  {
    hide ReleaseOwner, WakeAll, CallbackEnabled, CallbackApply, WorkerEnabled, WorkerApply, SetupEnabled, SetupApply;
  }

  // ---------------------------------------------------------------------------------------------
  // Messages and replies
  // ---------------------------------------------------------------------------------------------

  /** The status of a message, and what a refused one changes: nothing. */
  lemma MessageDecision(s: State, l: Label)
    requires Invariant(s) && Enabled(s, l) && l.LMessage?
    ensures var known := l.client in s.clients && s.clients[l.client] == l.caller;
            var status := MessageStatus(s, l.client, l.caller, l.action);
            && (status == AccessDenied <==> !known)
            && (status == Deleting <==> known && s.stopping)
            && (status == TargetExited <==> Entitled(s, l) && l.action.Arm? && !l.action.alive)
            && (status == NotReady <==>
                  && Entitled(s, l) && l.action.Arm? && l.action.alive && !TeardownPending(s)
                  && s.ledger.liveInstances == 0)
            && (status == Success <==> if l.action.Arm? then ArmSucceeds(s, l) else Entitled(s, l))
            && (status != Success ==> Apply(s, l) == s)
            && (status == Success ==>
                  Apply(s, l).control == if l.action.Release? then MessageReleasing(l.client) else Replying(l.client))
  {
    MessageSucceeds(s, l);
    hide Invariant, Idle, Quiescent, WakeAll;
  }

  /** A reply that arrives leaves everything but g_Control as it was: the arm or the lease it answers for stays. */
  lemma ReplyKeeps(s: State, l: Label)
    requires Enabled(s, l) && l == LReply(true)
    ensures Apply(s, l) == s.(control := Free)
  {
    hide ReleaseOwner;
  }

  /** A lease ends only for one of the five causes. */
  lemma LeaseEnds(r: Run, k: nat)
    requires IsRun(r) && k < |r.labels| && r.states[k].owner != 0 && r.states[k + 1].owner == 0
    ensures var s, l := r.states[k], r.labels[k];
            || l == LDisconnect(s.owner)
            || (l.LExit? && s.ownerProcess == Some(l.process))
            || (l.LMessageRelease? && s.control.MessageReleasing?)
            || (l.LStopRelease? && s.control == StopReleasing)
            || (l == LReply(false) && s.control == Replying(s.owner))
  {
    var s, l := r.states[k], r.labels[k];
    hide IsRun, Invariant, Apply, CallbackEnabled, WorkerEnabled, SetupEnabled;
    RunStep(r, k);
    StepChanges(s, l, 0);
    if ArmSucceeds(s, l) {
      NobodySends(s, l);
    }
  }

  lemma NobodySends(s: State, l: Label)
    requires Enabled(s, l) && ArmSucceeds(s, l)
    ensures l.client != 0
  {
    hide Quiescent;
  }

  lemma RunStep(r: Run, k: nat)
    requires IsRun(r) && k < |r.labels|
    ensures Invariant(r.states[k]) && Enabled(r.states[k], r.labels[k])
    ensures r.states[k + 1] == Apply(r.states[k], r.labels[k])
  {
    hide Invariant, Apply, Enabled;
    RunKeeps(r, k);
  }

  // ---------------------------------------------------------------------------------------------
  // Runs
  // ---------------------------------------------------------------------------------------------

  predicate Shaped(r: Run) {
    |r.states| == |r.labels| + 1
  }

  /** The operations handed to the worker in the first k steps, in that order. */
  function HandedOver(r: Run, k: nat): seq<OperationId>
    requires Shaped(r) && k <= |r.labels|
  {
    if k == 0 then []
    else HandedOver(r, k - 1) + if r.labels[k - 1].LQueue? && r.states[k].pended != r.states[k - 1].pended
                                then [r.labels[k - 1].op] else []
  }

  /** The operations that the worker took up in the first k steps, in that order. */
  function TakenUp(r: Run, k: nat): seq<OperationId>
    requires Shaped(r) && k <= |r.labels|
  {
    if k == 0 then []
    else TakenUp(r, k - 1) + if r.labels[k - 1].LPop? && r.states[k].worker.Holding?
                             then [r.states[k].worker.op] else []
  }

  lemma PopTakes(s: State, l: Label)
    requires Enabled(s, l) && l.LPop?
    ensures if s.work == [] then !Apply(s, l).worker.Holding?
            else Apply(s, l).worker == Holding(s.work[0], s.ops[s.work[0]].postWork)
  {
  }

  lemma WorkStep(s: State, l: Label, t: State, queued: seq<OperationId>, taken: seq<OperationId>)
    requires WorkChange(s, l, t) && queued == taken + s.work
    requires l.LPop? ==> if s.work == [] then !t.worker.Holding? else t.worker.Holding? && t.worker.op == s.work[0]
    ensures queued + (if l.LQueue? && t.pended != s.pended then [l.op] else []) ==
            taken + (if l.LPop? && t.worker.Holding? then [t.worker.op] else []) + t.work
  {
    hide Accepts;
    if Queues(s, l) {
      var ticket := Ticket(l.op, s.ops[l.op].preIdentity, l.post);
      assert t.pended[ticket] == s.pended[ticket] + 1;
    }
  }

  /** First come, first served: what was taken up is a prefix of what was handed over, and the rest is queued. */
  lemma {:induction false} WorkIsFifo(r: Run, k: nat)
    requires IsRun(r) && k <= |r.labels|
    ensures HandedOver(r, k) == TakenUp(r, k) + r.states[k].work
  {
    hide Invariant, Apply, Enabled, Changes;
    if k == 0 {
    } else {
      WorkIsFifo(r, k - 1);
      RunStep(r, k - 1);
      var s, l, t := r.states[k - 1], r.labels[k - 1], r.states[k];
      StepChanges(s, l, 0);
      ChangesWork(s, l, t, 0);
      if l.LPop? {
        PopTakes(s, l);
      }
      hide WorkChange;
      WorkStep(s, l, t, HandedOver(r, k - 1), TakenUp(r, k - 1));
    }
  }

  lemma ChangesWork(s: State, l: Label, t: State, i: OperationId)
    requires Changes(s, l, t, i)
    ensures WorkChange(s, l, t) && ReasonChange(s, l, t, i) && TopologyChange(s, l, t)
  {
    hide LeaseChange, ArmChange, TableChange, ReasonChange, WorkChange, TopologyChange, CounterChange;
  }

  /** Every accepted setup and every teardown begins a new generation, and nothing else does. */
  lemma {:induction false} GenerationsRise(r: Run, j: nat, k: nat)
    requires IsRun(r) && j < k < |r.states|
    ensures r.states[k].topologyGeneration >=
            r.states[j].topologyGeneration + One(ChangesTopology(r.states[j], r.labels[j]))
    decreases k
  {
    hide Invariant, Apply, Enabled, Changes;
    RunStep(r, k - 1);
    StepChanges(r.states[k - 1], r.labels[k - 1], 0);
    ChangesWork(r.states[k - 1], r.labels[k - 1], r.states[k], 0);
    if j < k - 1 {
      GenerationsRise(r, j, k - 1);
    }
  }

  lemma GenerationKnown(s: State, i: OperationId)
    requires Invariant(s) && i in s.ops
    ensures s.ops[i].generation <= s.topologyGeneration
  {
    hide Lists, WorkerFits, ArmFits, LeaseFits, WatchFits, EventFits, Balanced, Bounded, Referenced, Ticketed, Claimed,
      Owned, Routed;
    Facts(s, i);
  }

  lemma OldIsNotClaimed(s: State, l: Label, i: OperationId)
    requires Invariant(s) && Enabled(s, l) && l.LAdmit?
    requires i in s.ops ==> s.ops[i].generation != s.topologyGeneration
    ensures Apply(s, l).claims[i] == s.claims[i]
  {
    hide Invariant, Enabled, Apply, ForArm, Runs, Publishes, PublishesNothing;
    if AtLower(s, l) {
      var n := LowerAdmission(s, l);
    } else if ForArm(s, l) {
      UpperAdmission(s, l);
    } else {
      OtherAdmission(s, l);
    }
  }

  /** After an instance came or went, no earlier upper is claimed by a lower read any more. */
  lemma TopologyEndsPairs(r: Run, j: nat, k: nat, i: OperationId)
    requires IsRun(r) && j < k < |r.labels| && ChangesTopology(r.states[j], r.labels[j]) && r.labels[k].LAdmit?
    requires i in r.states[j].ops
    ensures r.states[k + 1].claims[i] == r.states[k].claims[i]
  {
    hide Invariant, Apply, Enabled, ChangesTopology;
    RunStep(r, j);
    RunStep(r, k);
    GenerationKnown(r.states[j], i);
    GenerationsRise(r, j, k);
    RunGrows(r, j, k);
    if i in r.states[k].ops {
      assert OperationGrows(r.states[j].ops[i], r.states[k].ops[i]);
    }
    hide IsRun, Grows;
    OldIsNotClaimed(r.states[k], r.labels[k], i);
  }

  /** The step finds that this process has exited. */
  predicate Exits(s: State, l: Label, p: Process) {
    (l.LExitSweep? && s.control == Exiting(p)) || (FindsExited(s, l) && s.target == Some(p))
  }

  /** A pre that waits when its process is found to have exited is cancelled, never forwarded. */
  lemma ExitedIsCancelled(r: Run, j: nat, k: nat, i: OperationId)
    requires IsRun(r) && j < k < |r.labels| && i in r.states[j].order && i in r.states[j].ops
    requires Exits(r.states[j], r.labels[j], r.states[j].ops[i].target)
    requires r.labels[k].LDecide? && r.states[k].worker == Holding(i, false)
    ensures r.states[k + 1].worker == Completing(i, false, true)
  {
    hide Invariant, Apply, Enabled, Changes, Exits, Grows;
    RunStep(r, j);
    RunStep(r, k);
    RunCreated(r, j);
    RunGrows(r, j + 1, k);
    RunGrows(r, j, j + 1);
    ListedAlive(r.states[j], i);
    StepChanges(r.states[j], r.labels[j], i);
    ChangesWork(r.states[j], r.labels[j], r.states[j + 1], i);
    HeldKnown(r.states[k], i);
    StillThere(r.states[j], r.states[j + 1], r.states[k], i);
    ExitWakes(r.states[j], r.labels[j], r.states[j + 1], i);
    ReasonsRise(r, j + 1, k, i);
    hide IsRun;
    WorkerDecision(r.states[k], r.labels[k]);
  }

  lemma ListedAlive(s: State, i: OperationId)
    requires Invariant(s) && i in s.order && i in s.ops
    ensures s.ops[i].life != Unlinked
  {
    hide WorkerFits, Operations, ArmFits, LeaseFits, WatchFits, EventFits, Balanced, Bounded, Referenced, Ticketed,
      Claimed;
  }

  lemma StillThere(s: State, t: State, v: State, i: OperationId)
    requires Grows(s, t) && Grows(t, v) && i in v.ops && i < s.ledger.created
    ensures i in t.ops
  {
  }

  lemma ExitWakes(s: State, l: Label, t: State, i: OperationId)
    requires ReasonChange(s, l, t, i) && i in s.ops && i in t.ops && i != s.ledger.created
    requires s.ops[i].life != Unlinked && Exits(s, l, s.ops[i].target)
    ensures t.ops[i].wakeReason >= 2
  {
    hide EndsLease;
  }
}
