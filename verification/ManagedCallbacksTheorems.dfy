/**
What every run of the managed callback control guarantees.
*/
module ManagedCallbacksTheorems {

  import opened Options
  import opened ManagedCallbacks
  import opened ManagedCallbacksInvariant

  datatype Run = Run(states: seq<State>, labels: seq<Label>)

  ghost predicate IsRun(r: Run) {
    && |r.states| == |r.labels| + 1 && r.states[0] == Initial()
    && forall k | 0 <= k < |r.labels| ::
         Enabled(r.states[k], r.labels[k]) && r.states[k + 1] == Apply(r.states[k], r.labels[k])
  }

  lemma {:induction false} RunKeeps(r: Run, k: nat)
    requires IsRun(r) && k < |r.states|
    ensures Invariant(r.states[k])
  {
    hide Invariant, Apply, Enabled, Initial;
    if k == 0 {
      InitialInvariant();
    } else {
      RunKeeps(r, k - 1);
      ApplyKeeps(r.states[k - 1], r.labels[k - 1]);
    }
  }

  // ---------------------------------------------------------------------------------------------
  // What the three kinds of action leave alone
  // ---------------------------------------------------------------------------------------------

  predicate Calls(l: Label) {
    l.LHoldBefore? || l.LHoldBeforeDone? || l.LEnter? || l.LLeave? || l.LReleaseRundown?
  }

  predicate SameControl(s: State, t: State) {
    && t.enabled == s.enabled && t.draining == s.draining && t.control == s.control && t.generation == s.generation
    && t.rundown.pre.closed == s.rundown.pre.closed && t.rundown.post.closed == s.rundown.post.closed
    && SameLease(s, t)
  }

  predicate SameLease(s: State, t: State) {
    && t.clients == s.clients && t.nextClient == s.nextClient && t.owner == s.owner
    && t.ownerProcess == s.ownerProcess && t.stopping == s.stopping
  }

  lemma CallStep(s: State, l: Label)
    requires Enabled(s, l) && Calls(l)
    ensures SameControl(s, Apply(s, l))
  {
    hide EnterBody, LeaveBody;
    match l
    case LEnter(b, process) => EnterSame(s, b, process);
    case LLeave(b, held) => LeaveSame(s, b, held);
    case _ =>
  }

  lemma EnterSame(s: State, b: Body, process: Process)
    ensures SameControl(s, EnterBody(s, b, process))
  {
  }

  lemma LeaveSame(s: State, b: Body, held: bool)
    ensures SameControl(s, LeaveBody(s, b, held))
  {
  }

  /** Masks, rundown references, threads and generation are as they were. */
  predicate Untouched(s: State, t: State) {
    && t.enabled == s.enabled && t.draining == s.draining && t.generation == s.generation
    && t.rundown == s.rundown && t.threads == s.threads
  }

  lemma EntryStep(s: State, l: Label)
    requires Enabled(s, l) && !Calls(l) && l != LAdvance
    ensures var t := Apply(s, l);
            && Untouched(s, t) && !s.control.Switching? && !t.control.Switching?
            && (s.control == Free
                || (s.control.Answering?
                    && t.control in {Free, AfterRelease(OnLostReply), Releasing(OnLostReply)}))
  {
    hide MessageStatus, ValidRequest;
  }

  lemma AdvanceStep(s: State)
    requires Enabled(s, LAdvance)
    ensures Advance(s).threads == s.threads
  {
  }

  // ---------------------------------------------------------------------------------------------
  // Masks, rundown references and threads
  // ---------------------------------------------------------------------------------------------

  predicate Paused(s: State, b: Body) {
    !s.enabled.Has(b) && !s.draining.Has(b)
  }

  /** No callback is inside the body or still holds its rundown reference. */
  predicate Empty(s: State, b: Body) {
    forall held :: Inside(b, held) !in s.threads && Leaving(b) !in s.threads
  }

  /** An enabled body has a live reference; a body in neither mask is empty, whatever a transition has got to. */
  lemma BodiesFollowMasks(r: Run, k: nat, b: Body)
    requires IsRun(r) && k < |r.states|
    ensures var s := r.states[k];
            && !(s.enabled.Has(b) && s.draining.Has(b))
            && (s.enabled.Has(b) ==> !s.rundown.At(b).closed)
            && (Paused(s, b) ==> Empty(s, b) && s.rundown.At(b).count == 0)
            && (Paused(s, b) && !s.control.Switching? ==> s.rundown.At(b) == Rundown(true, 0))
            && s.rundown.At(b).count >= s.active.At(b) == Running(s, b)
  {
    hide IsRun, Leased, ControlFits, StopFits;
    RunKeeps(r, k);
  }

  /** What a query copies while transitions and callbacks are under way is consistent in itself. */
  lemma QueriesAreConsistent(r: Run, k: nat)
    requires IsRun(r) && k < |r.states|
    ensures var q := Query(r.states[k]);
            && q.enabled.Disjoint(q.draining)
            && (forall b :: !q.enabled.Has(b) && !q.draining.Has(b) ==> q.active.At(b) == 0)
            && (q.owner == 0 && !r.states[k].stopping ==> q.enabled == BOTH && q.draining == NEITHER)
  {
    hide IsRun, RundownFits, ControlFits, StopFits;
    BodiesFollowMasks(r, k, PreBody);
    BodiesFollowMasks(r, k, PostBody);
    RunKeeps(r, k);
    var q := Query(r.states[k]);
    forall b: Body ensures !q.enabled.Has(b) && !q.draining.Has(b) ==> q.active.At(b) == 0 {
      BodiesFollowMasks(r, k, b);
    }
  }

  /** RunBody runs the body exactly if its bit is set: the acquisition under the lock never fails. */
  lemma EnabledAcquires(r: Run, k: nat, b: Body, process: Process)
    requires IsRun(r) && k < |r.labels| && r.labels[k] == LEnter(b, process)
    ensures var s, t := r.states[k], r.states[k + 1];
            if s.enabled.Has(b) then Running(t, b) == Running(s, b) + 1 else t == s
  {
    assert r.states[k + 1] == Apply(r.states[k], r.labels[k]);
    hide IsRun;
    BodiesFollowMasks(r, k, b);
  }

  /** A reference is initialised again only after it was closed and its last holder has gone. */
  lemma ReinitialisedAfterRundown(r: Run, k: nat, b: Body)
    requires IsRun(r) && k < |r.labels|
    requires r.states[k].rundown.At(b).closed && !r.states[k + 1].rundown.At(b).closed
    ensures r.labels[k] == LAdvance && r.states[k].rundown.At(b) == Rundown(true, 0) && Empty(r.states[k], b)
  {
    var s, l := r.states[k], r.labels[k];
    assert Enabled(s, l) && r.states[k + 1] == Apply(s, l);
    hide IsRun;
    RunKeeps(r, k);
    OnlyAdvanceOpens(s, l, b);
    hide Leased, ControlFits, StopFits;
    assert s.control.Switching?;
    assert s.rundown.At(b).count == Running(s, b) + s.threads[Leaving(b)];
  }

  lemma OnlyAdvanceOpens(s: State, l: Label, b: Body)
    requires Enabled(s, l) && s.rundown.At(b).closed && !Apply(s, l).rundown.At(b).closed
    ensures l == LAdvance && s.control.Switching? && s.control.index < 2
    ensures b == BodyAt(s.control.index) && s.control.enable.Has(b)
  {
    hide Apply, Enabled;
    if Calls(l) {
      CallStep(s, l);
    } else if l != LAdvance {
      EntryStep(s, l);
    } else {
      AdvanceApplies(s);
      AdvanceOpens(s, b);
    }
  }

  lemma AdvanceOpens(s: State, b: Body)
    requires s.rundown.At(b).closed && !Advance(s).rundown.At(b).closed
    ensures s.control.Switching? && s.control.index < 2
    ensures b == BodyAt(s.control.index) && s.control.enable.Has(b)
  {
    hide Wanted, AfterRelease, AfterSwitch, Mask.Plus, Mask.Minus;
  }

  lemma AdvanceApplies(s: State)
    requires Enabled(s, LAdvance)
    ensures Apply(s, LAdvance) == Advance(s)
  {
  }

  lemma PausedStep(s: State, l: Label, b: Body)
    requires Enabled(s, l) && Paused(s, b)
    ensures Apply(s, l).enabled.Has(b) || Paused(Apply(s, l), b)
  {
    hide Apply, Enabled;
    if Calls(l) {
      CallStep(s, l);
    } else if l != LAdvance {
      EntryStep(s, l);
    } else {
      AdvanceApplies(s);
      AdvancePaused(s, b);
    }
  }

  lemma AdvancePaused(s: State, b: Body)
    requires Paused(s, b)
    ensures Advance(s).enabled.Has(b) || Paused(Advance(s), b)
  {
    hide AfterRelease, AfterSwitch, Wanted, Mark, Blocked;
    if s.control.Applying? {
      MarkPaused(s, ForRequest(s.control.client, s.control.request, s.control.before),
                 Wanted(s.control.request, s.control.before), b);
    } else if s.control.Pausing? || s.control.Restoring? {
      MarkPaused(s, ForPause(s.control.caller), NEITHER, b);
      MarkPaused(s, ForRestore(s.control.caller), BOTH, b);
    } else if s.control.StopPausing? {
      MarkPaused(s, ForStop, NEITHER, b);
    }
  }

  lemma MarkPaused(s: State, purpose: Purpose, desired: Mask, b: Body)
    requires Paused(s, b)
    ensures Paused(Mark(s, purpose, desired), b)
  {
  }

  /** Once a body is paused it stays empty until its bit is set again. */
  lemma {:induction false} QuietUntilEnabled(r: Run, j: nat, k: nat, b: Body)
    requires IsRun(r) && j <= k < |r.states| && Paused(r.states[j], b)
    requires forall m | j <= m <= k :: !r.states[m].enabled.Has(b)
    ensures Paused(r.states[k], b) && Empty(r.states[k], b)
  {
    hide Apply, Enabled, Paused, Empty, Initial, Invariant;
    if j == k {
    } else {
      QuietUntilEnabled(r, j, k - 1, b);
      PausedStep(r.states[k - 1], r.labels[k - 1], b);
    }
    BodiesFollowMasks(r, k, b);
  }

  /** Bit by bit, what a request asked for is what is enabled now, given what was enabled before it. */
  predicate InForce(request: Request, before: Mask, now: Mask) {
    match request
    case Disable(m) => (now.pre <==> before.pre && !m.pre) && (now.post <==> before.post && !m.post)
    case Enable(m) => (now.pre <==> before.pre || m.pre) && (now.post <==> before.post || m.post)
    case Hold(_, _, _) => (now.pre <==> before.pre) && (now.post <==> before.post)
    case Release => now.pre && now.post
  }

  /** When a request is answered its masks are in force, and the bodies it paused are empty. */
  lemma AnswersAreTrue(r: Run, k: nat)
    requires IsRun(r) && k < |r.states| && r.states[k].control.Answering?
    ensures var s := r.states[k]; var c := s.control;
            && s.draining == NEITHER
            && s.owner == (if c.request.Release? then 0 else c.client) && InForce(c.request, c.before, s.enabled)
            && (c.request.Disable? ==> forall b | c.request.mask.Has(b) :: Paused(s, b) && Empty(s, b))
  {
    hide IsRun, RundownFits, Counted;
    RunKeeps(r, k);
    var s := r.states[k];
    if s.control.request.Disable? {
      forall b: Body | s.control.request.mask.Has(b) ensures Paused(s, b) && Empty(s, b) {
        BodiesFollowMasks(r, k, b);
      }
    }
  }

  // ---------------------------------------------------------------------------------------------
  // Lease
  // ---------------------------------------------------------------------------------------------

  /** An owner is a connected client and its process; without one, and before the stop, nothing is paused. */
  lemma LeaseHolds(r: Run, k: nat)
    requires IsRun(r) && k < |r.states|
    ensures var s := r.states[k];
            && (s.owner != 0 ==> s.owner in s.clients && s.ownerProcess == Some(s.clients[s.owner]))
            && (s.owner == 0 && !s.stopping ==> s.enabled == BOTH && s.draining == NEITHER)
            && (s.holdMask != NEITHER ==> s.owner != 0 && !s.stopping)
  {
    hide IsRun, Counted, RundownFits, ControlFits, StopFits;
    RunKeeps(r, k);
  }

  /** The holder of g_Control acts for the owner's own request, for the owner's release, or for the stop. */
  predicate Entitled(s: State) {
    match s.control
    case Applying(client, _, _) => client == s.owner != 0 && !s.stopping
    case Pausing(_) => s.owner != 0
    case Restoring(_) => s.owner != 0 && !s.stopping
    case StopPausing => s.stopping
    case Switching(ForRequest(client, _, _), _, _, _, _, _) => client == s.owner != 0 && !s.stopping
    case Switching(ForPause(_), _, _, _, _, _) => s.owner != 0
    case Switching(ForRestore(_), _, _, _, _, _) => s.owner != 0 && !s.stopping
    case Switching(ForStop, _, _, _, _, _) => s.stopping
    case _ => false
  }

  lemma MasksChangeOnlyIfEntitled(r: Run, k: nat)
    requires IsRun(r) && k < |r.labels|
    requires r.states[k + 1].enabled != r.states[k].enabled || r.states[k + 1].draining != r.states[k].draining
    ensures r.labels[k] == LAdvance && Entitled(r.states[k])
  {
    var s, l := r.states[k], r.labels[k];
    assert Enabled(s, l) && r.states[k + 1] == Apply(s, l);
    hide IsRun;
    RunKeeps(r, k);
    OnlyAdvanceSwitches(s, l);
    hide Counted, MasksFit, RundownFits, Leased, StopFits;
  }

  lemma OnlyAdvanceSwitches(s: State, l: Label)
    requires Enabled(s, l)
    requires Apply(s, l).enabled != s.enabled || Apply(s, l).draining != s.draining
    ensures l == LAdvance
    ensures s.control.Applying? || s.control.Pausing? || s.control.StopPausing? || s.control.Switching?
            || (s.control.Restoring? && !s.stopping)
  {
  }

  /** Stopped, with the stopping thread through: nothing enabled, nothing draining, nobody inside. */
  predicate Stopped(s: State) {
    s.stopping && s.owner == 0 && s.enabled == NEITHER && s.draining == NEITHER
  }

  lemma StoppedStep(s: State, l: Label)
    requires Invariant(s) && Enabled(s, l) && Stopped(s)
    ensures Stopped(Apply(s, l))
  {
    hide Counted, RundownFits;
  }

  lemma {:induction false} StaysStopped(r: Run, j: nat, k: nat)
    requires IsRun(r) && j <= k < |r.states| && Stopped(r.states[j])
    ensures Stopped(r.states[k])
  {
    hide Invariant, Apply, Enabled, Stopped, Initial;
    if j == k {
    } else {
      StaysStopped(r, j, k - 1);
      RunKeeps(r, k - 1);
      StoppedStep(r.states[k - 1], r.labels[k - 1]);
    }
  }

  /** After ManagedCallbacksStop both masks and both counts are zero for ever, and no hold is armed. */
  lemma StopIsFinal(r: Run, j: nat, k: nat)
    requires IsRun(r) && j <= k < |r.states| && r.states[j].stopping && r.states[j].control == Free
    ensures var s := r.states[k];
            && s.stopping && s.enabled == NEITHER && s.draining == NEITHER && s.owner == 0 && s.holdMask == NEITHER
            && s.active == PerBody(0, 0) && Empty(s, PreBody) && Empty(s, PostBody)
  {
    RunKeeps(r, j);
    StaysStopped(r, j, k);
    hide IsRun;
    BodiesFollowMasks(r, k, PreBody);
    BodiesFollowMasks(r, k, PostBody);
    LeaseHolds(r, k);
  }

  lemma IdentifierStep(s: State, l: Label, id: ClientId)
    requires Enabled(s, l) && id <= s.nextClient && id !in s.clients
    ensures id <= Apply(s, l).nextClient && id !in Apply(s, l).clients
  {
    hide Apply, Enabled;
    if Calls(l) {
      CallStep(s, l);
    } else if l == LAdvance {
      AdvanceApplies(s);
      AdvanceIdentifier(s, id);
    } else {
      EntryIdentifier(s, l, id);
    }
  }

  lemma AdvanceIdentifier(s: State, id: ClientId)
    requires Enabled(s, LAdvance) && id <= s.nextClient && id !in s.clients
    ensures id <= Advance(s).nextClient && id !in Advance(s).clients
  {
    hide Blocked, Wanted, AfterRelease, AfterSwitch, Mask.Plus, Mask.Minus;
  }

  lemma EntryIdentifier(s: State, l: Label, id: ClientId)
    requires Enabled(s, l) && !Calls(l) && l != LAdvance && id <= s.nextClient && id !in s.clients
    ensures id <= Apply(s, l).nextClient && id !in Apply(s, l).clients
  {
    hide MessageStatus, AfterRelease, ValidRequest;
  }

  /** A client's identifier is never given out again: after its disconnection it names nobody. */
  lemma {:induction false} IdentifiersAreNotReused(r: Run, j: nat, k: nat, id: ClientId)
    requires IsRun(r) && j <= k < |r.states| && id <= r.states[j].nextClient && id !in r.states[j].clients
    ensures id <= r.states[k].nextClient && id !in r.states[k].clients
  {
    hide Invariant, Apply, Enabled, Initial;
    if j == k {
    } else {
      IdentifiersAreNotReused(r, j, k - 1, id);
      IdentifierStep(r.states[k - 1], r.labels[k - 1], id);
    }
  }

  /** Every test delay that was entered is over or still being held by exactly one thread. */
  lemma HoldsAreConserved(r: Run, k: nat)
    requires IsRun(r) && k < |r.states|
    ensures var s := r.states[k];
            s.holdEntered == s.holdCompleted + s.threads[HeldBefore(PreBody)] + s.threads[HeldBefore(PostBody)]
                             + s.threads[Inside(PreBody, true)] + s.threads[Inside(PostBody, true)]
  {
    hide IsRun, MasksFit, RundownFits, Leased, ControlFits, StopFits;
    RunKeeps(r, k);
  }

  // ---------------------------------------------------------------------------------------------
  // Generation
  // ---------------------------------------------------------------------------------------------

  /** The mask that is in force, or was until the transition under way began. */
  function Committed(s: State): Mask {
    if s.control.Switching? then s.enabled.Plus(s.control.disable) else s.enabled
  }

  lemma GenerationStep(s: State, l: Label)
    requires Invariant(s) && Enabled(s, l)
    ensures Renews(s, Apply(s, l))
  {
    hide Apply, Enabled, Counted, RundownFits, Leased, ControlFits, StopFits;
    if Calls(l) {
      CallStep(s, l);
    } else if l != LAdvance {
      EntryStep(s, l);
    } else {
      hide Renews;
      AdvanceApplies(s);
      if s.control.Switching? && s.control.index < 2 {
        TurnRenews(s);
      } else if s.control.Switching? {
        CommitRenews(s);
      } else {
        AdvanceRenews(s);
      }
    }
  }

  predicate Renews(s: State, t: State) {
    || (t.generation == s.generation && Committed(t) == Committed(s))
    || (t.generation == s.generation + 1 && Committed(t) != Committed(s))
  }

  lemma MarkRenews(s: State, purpose: Purpose, desired: Mask)
    requires !s.control.Switching?
    ensures Renews(s, Mark(s, purpose, desired))
  {
  }

  lemma TurnRenews(s: State)
    requires s.control.Switching? && s.control.index < 2
    ensures Renews(s, Advance(s))
  {
    hide Blocked, Mask.Plus;
  }

  lemma CommitRenews(s: State)
    requires MasksFit(s) && s.control.Switching? && s.control.index >= 2
    ensures Renews(s, Advance(s))
  {
    hide SwitchBody;
  }

  lemma AdvanceRenews(s: State)
    requires MasksFit(s) && !s.control.Switching?
    ensures Renews(s, Advance(s))
  {
    hide MasksFit, Mark, Wanted, Blocked;
    if s.control.Applying? {
      var c := s.control;
      MarkRenews(s, ForRequest(c.client, c.request, c.before), Wanted(c.request, c.before));
    } else if s.control.Pausing? || s.control.Restoring? {
      MarkRenews(s, ForPause(s.control.caller), NEITHER);
      MarkRenews(s, ForRestore(s.control.caller), BOTH);
    } else if s.control.StopPausing? {
      MarkRenews(s, ForStop, NEITHER);
    }
  }

  /** The generation never falls, and while it stands still so does the mask. */
  lemma {:induction false} GenerationTells(r: Run, j: nat, k: nat)
    requires IsRun(r) && j <= k < |r.states|
    ensures r.states[j].generation <= r.states[k].generation
    ensures r.states[j].generation == r.states[k].generation ==> Committed(r.states[j]) == Committed(r.states[k])
  {
    hide Invariant, Apply, Enabled, Committed, Initial;
    if j < k {
      GenerationTells(r, j, k - 1);
      RunKeeps(r, k - 1);
      GenerationStep(r.states[k - 1], r.labels[k - 1]);
    }
  }

  // ---------------------------------------------------------------------------------------------
  // Progress
  // ---------------------------------------------------------------------------------------------

  /** The steps the threads inside a body still have to take. */
  function Pending(s: State, b: Body): nat {
    2 * Running(s, b) + s.threads[Leaving(b)]
  }

  predicate Exits(l: Label, b: Body) {
    match l
    case LLeave(c, _) => c == b
    case LReleaseRundown(c) => c == b
    case _ => false
  }

  /** A wait is blocked only by threads that can go on, nobody joins them, and each of their steps brings it nearer. */
  lemma WaitDrains(r: Run, k: nat, b: Body)
    requires IsRun(r) && k < |r.states| && Blocked(r.states[k]) && b == BodyAt(r.states[k].control.index)
    ensures var s := r.states[k];
            && Pending(s, b) > 0
            && (Enabled(s, LLeave(b, false)) || Enabled(s, LLeave(b, true)) || Enabled(s, LReleaseRundown(b)))
    ensures k < |r.labels| ==>
              && Pending(r.states[k + 1], b) <= Pending(r.states[k], b)
              && (Exits(r.labels[k], b) ==> Pending(r.states[k + 1], b) < Pending(r.states[k], b))
  {
    var s := r.states[k];
    if k < |r.labels| {
      assert Enabled(s, r.labels[k]) && r.states[k + 1] == Apply(s, r.labels[k]);
    }
    hide IsRun;
    RunKeeps(r, k);
    hide Leased, ControlFits, StopFits;
    assert !s.enabled.Has(b);
    if k < |r.labels| {
      PendingFalls(s, r.labels[k], b);
    }
  }

  lemma PendingFalls(s: State, l: Label, b: Body)
    requires Enabled(s, l) && !s.enabled.Has(b)
    ensures Pending(Apply(s, l), b) <= Pending(s, b)
    ensures Exits(l, b) ==> Pending(Apply(s, l), b) < Pending(s, b)
  {
    if Calls(l) {
      CallPending(s, l, b);
      hide Apply, Pending, Enabled;
    } else if l == LAdvance {
      AdvanceApplies(s);
      AdvanceStep(s);
      hide Advance, Apply, Enabled;
    } else {
      EntryStep(s, l);
      hide Apply, Enabled;
    }
  }

  lemma CallPending(s: State, l: Label, b: Body)
    requires Enabled(s, l) && Calls(l) && !s.enabled.Has(b)
    ensures Pending(Apply(s, l), b) <= Pending(s, b)
    ensures Exits(l, b) ==> Pending(Apply(s, l), b) < Pending(s, b)
  {
    hide Pending, LeaveBody, EnterBody;
    match l
    case LEnter(c, process) => EnterPending(s, c, process, b);
    case LLeave(c, held) => LeavePending(s, c, held, b);
    case _ => RestPending(s, l, b);
  }

  lemma EnterPending(s: State, c: Body, process: Process, b: Body)
    requires !s.enabled.Has(b)
    ensures Pending(EnterBody(s, c, process), b) == Pending(s, b)
  {
  }

  lemma LeavePending(s: State, c: Body, held: bool, b: Body)
    requires Inside(c, held) in s.threads
    ensures Pending(LeaveBody(s, c, held), b) == Pending(s, b) - (if c == b then 1 else 0)
  {
  }

  lemma RestPending(s: State, l: Label, b: Body)
    requires Enabled(s, l) && (l.LHoldBefore? || l.LHoldBeforeDone? || l.LReleaseRundown?)
    ensures Pending(Apply(s, l), b) == Pending(s, b) - (if l == LReleaseRundown(b) then 1 else 0)
  {
    hide EnterBody, LeaveBody;
  }

  const SWITCH := 6
  const RELEASE := 2 * SWITCH + 5

  function SwitchLeft(index: nat, waiting: bool): nat {
    (if index < 2 then 2 * (2 - index) else 0) + (if waiting then 0 else 1)
  }

  function AfterLeft(caller: Caller): nat {
    match caller
    case OnDisconnect(_) => 1
    case OnRelease(_, _) => RELEASE + 1
    case OnStop => SWITCH + 2
    case _ => 0
  }

  function SettledLeft(c: Control): nat {
    match c
    case Granted(_, _, _, _) => RELEASE + SWITCH + 4
    case Applying(_, _, _) => RELEASE + SWITCH + 3
    case Answering(_, _, _) => RELEASE + 1
    case Releasing(caller) => AfterLeft(caller) + RELEASE
    case Pausing(caller) => AfterLeft(caller) + RELEASE - 1
    case Restoring(caller) => AfterLeft(caller) + SWITCH + 2
    case Disowning(caller) => AfterLeft(caller) + 1
    case Removing(_) => 1
    case StopPausing => SWITCH + 1
    case _ => 0
  }

  /** A bound on the steps the holder of g_Control has still to take before it lets go. */
  function Left(c: Control): nat {
    if c.Switching? then SettledLeft(AfterSwitch(c.purpose)) + SwitchLeft(c.index, c.waiting) else SettledLeft(c)
  }

  /** Every step of the holder brings it nearer to letting go; no other thread takes that back. */
  lemma ControlEnds(r: Run, k: nat)
    requires IsRun(r) && k < |r.labels| && r.states[k].control != Free
    ensures Left(r.states[k + 1].control) <= Left(r.states[k].control)
    ensures r.labels[k] == LAdvance || r.labels[k].LReply? ==> Left(r.states[k + 1].control) < Left(r.states[k].control)
  {
    var s, l := r.states[k], r.labels[k];
    assert Enabled(s, l) && r.states[k + 1] == Apply(s, l);
    hide IsRun;
    RunKeeps(r, k);
    hide Counted, RundownFits, Leased, ControlFits, StopFits, Apply, Enabled;
    if l == LAdvance {
      AdvanceApplies(s);
      HolderAdvances(s);
    } else if Calls(l) {
      CallStep(s, l);
    } else {
      EntryStep(s, l);
    }
  }

  lemma MarkLeft(s: State, purpose: Purpose, desired: Mask)
    ensures Left(Mark(s, purpose, desired).control) == SettledLeft(AfterSwitch(purpose)) + SWITCH - 1
  {
  }

  lemma HolderAdvances(s: State)
    requires MasksFit(s) && Enabled(s, LAdvance)
    ensures Left(Advance(s).control) < Left(s.control)
  {
    hide Mark, Wanted, SwitchBody, Commit;
    if s.control.Switching? {
      SwitchAdvances(s);
    } else if s.control.Applying? {
      var c := s.control;
      MarkLeft(s, ForRequest(c.client, c.request, c.before), Wanted(c.request, c.before));
    } else if s.control.Pausing? || s.control.Restoring? {
      MarkLeft(s, ForPause(s.control.caller), NEITHER);
      MarkLeft(s, ForRestore(s.control.caller), BOTH);
    } else if s.control.StopPausing? {
      MarkLeft(s, ForStop, NEITHER);
    }
  }

  lemma TurnAdvances(s: State)
    requires MasksFit(s) && s.control.Switching? && s.control.index < 2
    ensures Left(SwitchBody(s).control) < Left(s.control)
  {
    hide SettledLeft, AfterSwitch;
  }

  lemma SwitchAdvances(s: State)
    requires MasksFit(s) && Enabled(s, LAdvance) && s.control.Switching?
    ensures Left(Advance(s).control) < Left(s.control)
  {
    if s.control.index < 2 {
      TurnAdvances(s);
      hide Left, SwitchBody, MasksFit;
    } else {
      hide SettledLeft, SwitchBody;
    }
  }
}
