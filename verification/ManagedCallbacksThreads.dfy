/**
The procedures of the managed control, section after section, while other threads run between any two of them.

The protocol state is carried along as an ordinary value: the wait for a rundown release is modelled by letting the
callbacks inside run on until the last one has gone.
*/
module ManagedCallbacksThreads {

  import opened Options
  import opened ManagedCallbacks
  import opened ManagedCallbacksInvariant
  import opened ManagedCallbacksTheorems
  import opened ManagedCallbacksControl
  import opened ManagedCallbacksTraces

  /** Between two sections of a thread: any number of steps of other threads. */
  method Others(p: Provider, me: Agent, s: State) returns (t: State, ghost moves: seq<Move>)
    requires p.Represents(s) && Invariant(s)
    modifies p, p.preBody, p.postBody
    ensures p.Represents(t) && Meanwhile(me, s, moves, t)
  {
    hide *;
    t, moves := s, [];
    Quiet(me, s);
  }

  lemma Quiet(me: Agent, s: State)
    requires Invariant(s)
    ensures Meanwhile(me, s, [], s)
  {
    hide Invariant;
    Nothing(s);
  }

  lemma ThreadBack(x: Thread, s: State, moves: seq<Move>, t: State)
    requires Meanwhile(At(x), s, moves, t) && x in s.threads
    ensures Invariant(t) && x in t.threads
  {
    hide *;
    ThreadMeanwhile(x, s, moves, t);
  }

  /** A piece of code, then other threads, then another piece. */
  lemma Continue(me: Agent, s: State, a: seq<Move>, p: seq<Label>, u: State, others: seq<Move>, v: State,
                 b: seq<Move>, q: seq<Label>, t: State)
    requires Ran(s, a, u, p) && Meanwhile(me, u, others, v) && Ran(v, b, t, q)
    ensures Ran(s, a + others + b, t, p + q) && Invariant(t)
  {
    hide Invariant, Trace, Program, OthersOf;
    Join(s, a, p, u, others, [], v);
    assert p + [] == p;
    Join(s, a + others, p, v, b, q, t);
  }

  // ---------------------------------------------------------------------------------------------
  // Callbacks
  // ---------------------------------------------------------------------------------------------

  /** The sections of a callback, and where they leave it. */
  lemma CallFacts(s: State, l: Label)
    ensures match l
            case LEnter(b, process) => Enabled(s, l) && Apply(s, l) == EnterBody(s, b, process)
            case LLeave(b, held) =>
              (Inside(b, held) in s.threads ==>
                 && Enabled(s, l) && Apply(s, l) == LeaveBody(s, b, held)
                 && Leaving(b) in LeaveBody(s, b, held).threads)
            case LReleaseRundown(b) =>
              Leaving(b) in s.threads ==> Enabled(s, l) && Apply(s, l) == ReleaseRundown(s, b)
            case LHoldBefore(b, process) =>
              && Enabled(s, l) && Apply(s, l) == HoldBefore(s, b, process)
              && (HoldBefore(s, b, process).threads != s.threads ==>
                    HeldBefore(b) in HoldBefore(s, b, process).threads)
            case LHoldBeforeDone(b) =>
              HeldBefore(b) in s.threads ==> Enabled(s, l) && Apply(s, l) == HoldBeforeDone(s, b)
            case _ => true
  {
    hide EnterBody, ReleaseRundown, HoldBeforeDone;
  }

  lemma EnterNext(s: State, b: Body, process: Process)
    requires Invariant(s)
    ensures Acquires(s, b) <==> s.enabled.Has(b)
    ensures Acquires(s, b) ==> Inside(b, HoldsInside(s, b, process)) in EnterBody(s, b, process).threads
    ensures !Acquires(s, b) ==> EnterBody(s, b, process) == s
  {
    hide Counted, MasksFit, Leased, ControlFits, StopFits, HoldsInside;
  }

  /** What RunBody runs. */
  function BodyProgram(b: Body, process: Process, acquired: bool, held: bool): seq<Label> {
    [LEnter(b, process)] + if acquired then [LLeave(b, held), LReleaseRundown(b)] else []
  }

  /**
  RunBody: the body runs exactly if its bit is set when the callback tests it, and every body that was entered is left
  and its rundown reference released.
  */
  method RunBody(p: Provider, b: Body, process: Process, s: State)
    returns (acquired: bool, held: bool, t: State, ghost moves: seq<Move>)
    requires p.Represents(s) && Invariant(s)
    modifies p, p.preBody, p.postBody
    ensures p.Represents(t) && Ran(s, moves, t, BodyProgram(b, process, acquired, held))
    ensures acquired <==> s.enabled.Has(b)
  {
    hide Provider.Represents, Invariant, Ran, Meanwhile, Enabled, Apply, Advance, Empty,
      EnterBody, LeaveBody, ReleaseRundown;
    EnterNext(s, b, process);
    CallFacts(s, LEnter(b, process));
    Own(s, LEnter(b, process));
    acquired, held := p.EnterBody(s, b, process);
    t, moves := EnterBody(s, b, process), [Mine(LEnter(b, process))];
    if acquired {
      ghost var others;
      var u, v;
      u, others := Others(p, At(Inside(b, held)), t);
      ThreadBack(Inside(b, held), t, others, u);
      CallFacts(u, LLeave(b, held));
      Own(u, LLeave(b, held));
      p.LeaveBody(u, b, held);
      v := LeaveBody(u, b, held);
      Continue(At(Inside(b, held)), s, moves, [LEnter(b, process)], t, others, u, [Mine(LLeave(b, held))],
               [LLeave(b, held)], v);
      moves := moves + others + [Mine(LLeave(b, held))];
      u, others := Others(p, At(Leaving(b)), v);
      ThreadBack(Leaving(b), v, others, u);
      CallFacts(u, LReleaseRundown(b));
      Own(u, LReleaseRundown(b));
      p.ReleaseBody(u, b);
      t := ReleaseRundown(u, b);
      Continue(At(Leaving(b)), s, moves, [LEnter(b, process)] + [LLeave(b, held)], v, others, u,
               [Mine(LReleaseRundown(b))], [LReleaseRundown(b)], t);
      moves := moves + others + [Mine(LReleaseRundown(b))];
      assert [LEnter(b, process)] + [LLeave(b, held)] + [LReleaseRundown(b)] == BodyProgram(b, process, true, held);
    } else {
      assert [LEnter(b, process)] == BodyProgram(b, process, false, held);
    }
  }

  /** TestHoldBeforeBody with its delay, if it is the call that the hold was armed for. */
  method TestHold(p: Provider, b: Body, process: Process, s: State)
    returns (delay: bool, t: State, ghost moves: seq<Move>)
    requires p.Represents(s) && Invariant(s)
    modifies p, p.preBody, p.postBody
    ensures p.Represents(t)
    ensures Ran(s, moves, t, if delay then [LHoldBefore(b, process), LHoldBeforeDone(b)] else [LHoldBefore(b, process)])
  {
    hide Provider.Represents, Invariant, Ran, Meanwhile, Enabled, Apply, Advance, Empty;
    CallFacts(s, LHoldBefore(b, process));
    Own(s, LHoldBefore(b, process));
    delay := p.TestHoldBeforeBody(s, b, process);
    t, moves := HoldBefore(s, b, process), [Mine(LHoldBefore(b, process))];
    if delay {
      var u;
      ghost var others;
      u, others := Others(p, At(HeldBefore(b)), t);
      ThreadBack(HeldBefore(b), t, others, u);
      CallFacts(u, LHoldBeforeDone(b));
      Own(u, LHoldBeforeDone(b));
      p.HoldOver(u, b);
      Continue(At(HeldBefore(b)), s, moves, [LHoldBefore(b, process)], t, others, u, [Mine(LHoldBeforeDone(b))],
               [LHoldBeforeDone(b)], HoldBeforeDone(u, b));
      t, moves := HoldBeforeDone(u, b), moves + others + [Mine(LHoldBeforeDone(b))];
      assert [LHoldBefore(b, process)] + [LHoldBeforeDone(b)] == [LHoldBefore(b, process), LHoldBeforeDone(b)];
    }
  }

  // ---------------------------------------------------------------------------------------------
  // SetEnabled
  // ---------------------------------------------------------------------------------------------

  lemma HolderBack(s: State, moves: seq<Move>, t: State)
    requires Meanwhile(Holder, s, moves, t) && s.control != Free
    ensures Invariant(t) && t.control == s.control && SameControl(s, t)
  {
    hide *;
    HolderMeanwhile(s, moves, t);
  }

  /** One section of the holder. */
  lemma OwnAdvance(s: State)
    requires Invariant(s) && Enabled(s, LAdvance)
    ensures Ran(s, [Mine(LAdvance)], Advance(s), [LAdvance]) && Invariant(Advance(s))
  {
    hide *;
    AdvanceApplies(s);
    Own(s, LAdvance);
  }

  /** The holder waits for the release of this body. */
  predicate Waits(s: State, b: Body) {
    s.control.Switching? && s.control.index < 2 && s.control.waiting && b == BodyAt(s.control.index)
  }

  lemma WaitFacts(s: State, b: Body)
    requires Invariant(s) && Waits(s, b)
    ensures !s.enabled.Has(b) && s.rundown.At(b).count >= 0
    ensures s.rundown.At(b).count != 0 ==>
              Inside(b, false) in s.threads || Inside(b, true) in s.threads || Leaving(b) in s.threads
    ensures Blocked(s) <==> s.rundown.At(b).count != 0
  {
    hide Leased, ControlFits, StopFits;
  }

  lemma ExitsFall(s: State, l: Label, b: Body)
    requires Enabled(s, l) && !s.enabled.Has(b)
             && (l == LReleaseRundown(b) || l == LLeave(b, false) || l == LLeave(b, true))
    ensures Pending(Apply(s, l), b) < Pending(s, b) && Foreign(Holder, s, l)
  {
    hide Apply, Enabled, Pending;
    PendingFalls(s, l, b);
  }

  /**
  ExWaitForRundownProtectionRelease: the callbacks inside run on, nobody joins them, and the last one ends the
  wait.
  */
  method WaitForRelease(p: Provider, b: Body, s: State) returns (t: State, ghost moves: seq<Move>)
    requires p.Represents(s) && Invariant(s) && Waits(s, b)
    modifies p, p.preBody, p.postBody
    ensures p.Represents(t) && Meanwhile(Holder, s, moves, t) && t.rundown.At(b).count == 0
  {
    hide Provider.Represents, Invariant, Ran, Meanwhile, Enabled, Apply, Advance, Empty;
    t, moves := s, [];
    Quiet(Holder, s);
    while t.rundown.At(b).count != 0
      invariant p.Represents(t) && Meanwhile(Holder, s, moves, t) && Invariant(t) && Waits(t, b)
      decreases Pending(t, b)
    {
      var u;
      ghost var step;
      u, step := LetRun(p, b, t);
      MeanwhileJoin(Holder, s, moves, t, step, u);
      StillWaits(b, t, step, u);
      t, moves := u, moves + step;
    }
  }

  lemma StillWaits(b: Body, s: State, moves: seq<Move>, t: State)
    requires Meanwhile(Holder, s, moves, t) && Waits(s, b)
    ensures Waits(t, b) && Invariant(t)
  {
    hide Meanwhile, Invariant, SameControl;
    HolderBack(s, moves, t);
  }

  /** One section of a callback that the wait is for. */
  method LetRun(p: Provider, b: Body, s: State) returns (t: State, ghost moves: seq<Move>)
    requires p.Represents(s) && Invariant(s) && Waits(s, b) && s.rundown.At(b).count != 0
    modifies p, p.preBody, p.postBody
    ensures p.Represents(t) && Meanwhile(Holder, s, moves, t) && Pending(t, b) < Pending(s, b)
  {
    hide Provider.Represents, Invariant, Ran, Meanwhile, Enabled, Apply, Advance, Empty;
    WaitFacts(s, b);
    ghost var l: Label;
    if Leaving(b) in s.threads {
      l := LReleaseRundown(b);
      CallFacts(s, l);
      p.ReleaseBody(s, b);
      t := ReleaseRundown(s, b);
    } else {
      var held := Inside(b, true) in s.threads;
      l := LLeave(b, held);
      CallFacts(s, l);
      p.LeaveBody(s, b, held);
      t := LeaveBody(s, b, held);
    }
    ExitsFall(s, l, b);
    Foreigner(Holder, s, l);
    moves := [Other(Holder, l)];
  }

  /** The loop of SetEnabled has come to this body. */
  predicate SwitchingAt(s: State, purpose: Purpose, desired: Mask, disable: Mask, enable: Mask, index: nat,
                        waiting: bool) {
    s.control == Switching(purpose, desired, disable, enable, index, waiting)
  }

  lemma SwitchFacts(s: State, purpose: Purpose, desired: Mask, disable: Mask, enable: Mask, index: nat, waiting: bool)
    requires SwitchingAt(s, purpose, desired, disable, enable, index, waiting) && index < 2
    requires waiting ==> s.rundown.At(BodyAt(index)).count == 0
    ensures !Blocked(s) && s.control.Switching? && Enabled(s, LAdvance) && Advance(s) == SwitchBody(s)
    ensures s.control.index == index && s.control.disable == disable && s.control.enable == enable
    ensures s.control.waiting == waiting
    ensures if disable.Has(BodyAt(index)) && !waiting then
              SwitchingAt(SwitchBody(s), purpose, desired, disable, enable, index, true)
            else SwitchingAt(SwitchBody(s), purpose, desired, disable, enable, index + 1, false)
    ensures SameLease(s, SwitchBody(s))
  {
  }

  lemma SwitchBack(s: State, moves: seq<Move>, t: State, purpose: Purpose, desired: Mask, disable: Mask, enable: Mask,
                   index: nat, waiting: bool)
    requires Meanwhile(Holder, s, moves, t) && SwitchingAt(s, purpose, desired, disable, enable, index, waiting)
    ensures Invariant(t) && SwitchingAt(t, purpose, desired, disable, enable, index, waiting)
    ensures waiting && index < 2 ==> Waits(t, BodyAt(index)) && Waits(s, BodyAt(index))
    ensures SameLease(s, t)
  {
    hide Meanwhile, Invariant, SameLease;
    HolderBack(s, moves, t);
  }

  /** The steps for one body: two if a wait is among them. */
  function TurnProgram(disable: Mask, index: nat): seq<Label> {
    if disable.Has(BodyAt(index)) then [LAdvance, LAdvance] else [LAdvance]
  }

  /** One turn of the loop over the two bodies: wait for its callbacks, then open its reference again, as asked. */
  method SwitchOne(p: Provider, index: nat, purpose: Purpose, desired: Mask, disable: Mask, enable: Mask, s: State)
    returns (t: State, ghost moves: seq<Move>)
    requires p.Represents(s) && Invariant(s) && index < 2
    requires SwitchingAt(s, purpose, desired, disable, enable, index, false)
    modifies p, p.preBody, p.postBody
    ensures p.Represents(t) && Ran(s, moves, t, TurnProgram(disable, index)) && Invariant(t)
    ensures SwitchingAt(t, purpose, desired, disable, enable, index + 1, false) && SameLease(s, t)
  {
    hide Provider.Represents, Invariant, Ran, Meanwhile, Enabled, Apply, Advance, Empty;
    SwitchFacts(s, purpose, desired, disable, enable, index, false);
    OwnAdvance(s);
    p.SwitchBody(s, index, disable, enable, false);
    t, moves := SwitchBody(s), [Mine(LAdvance)];
    if disable.Has(BodyAt(index)) {
      var u;
      ghost var others;
      u, others := WaitForRelease(p, BodyAt(index), t);
      SwitchBack(t, others, u, purpose, desired, disable, enable, index, true);
      SwitchFacts(u, purpose, desired, disable, enable, index, true);
      OwnAdvance(u);
      p.SwitchBody(u, index, disable, enable, true);
      Continue(Holder, s, moves, [LAdvance], t, others, u, [Mine(LAdvance)], [LAdvance], SwitchBody(u));
      t, moves := SwitchBody(u), moves + others + [Mine(LAdvance)];
      assert [LAdvance] + [LAdvance] == TurnProgram(disable, index);
    }
  }

  /** The holder stands before SetEnabled. */
  predicate Begins(s: State, purpose: Purpose, desired: Mask) {
    Enabled(s, LAdvance) && !s.control.Switching? && Advance(s) == Mark(s, purpose, desired)
  }

  lemma MarkFacts(s: State, purpose: Purpose, desired: Mask)
    ensures var disable, enable := s.enabled.Minus(desired), desired.Minus(s.enabled);
            SwitchingAt(Mark(s, purpose, desired), purpose, desired, disable, enable, 0, false)
    ensures SameLease(s, Mark(s, purpose, desired))
  {
  }

  /** What SetEnabled has brought about. */
  ghost predicate Switched(t: State, purpose: Purpose, desired: Mask) {
    && t.control == AfterSwitch(purpose) && t.enabled == desired && t.draining == NEITHER
    && forall b | !desired.Has(b) :: Empty(t, b) && t.rundown.At(b) == Rundown(true, 0)
  }

  lemma CommitFacts(s: State, purpose: Purpose, desired: Mask, disable: Mask, enable: Mask)
    requires Invariant(s) && SwitchingAt(s, purpose, desired, disable, enable, 2, false)
    ensures Enabled(s, LAdvance) && Advance(s) == Commit(s)
    ensures s.control.Switching? && s.control.disable == disable && s.control.enable == enable
    ensures Commit(s).enabled == desired && Commit(s).draining == NEITHER && Commit(s).control == AfterSwitch(purpose)
    ensures SameLease(s, Commit(s))
  {
    hide Counted, RundownFits, Leased, ControlFits, StopFits;
  }

  lemma PausedBodies(t: State, purpose: Purpose, desired: Mask)
    requires Invariant(t) && t.enabled == desired && t.draining == NEITHER && t.control == AfterSwitch(purpose)
    ensures Switched(t, purpose, desired)
  {
    hide MasksFit, Leased, ControlFits, StopFits;
    forall b: Body | !desired.Has(b) ensures Empty(t, b) && t.rundown.At(b) == Rundown(true, 0) {
      assert t.rundown.At(b).count == Running(t, b) + t.threads[Leaving(b)];
    }
  }

  /** The own steps of SetEnabled. */
  function SetProgram(disable: Mask): seq<Label> {
    [LAdvance] + TurnProgram(disable, 0) + TurnProgram(disable, 1) + [LAdvance]
  }

  /**
  SetEnabled: when it returns the desired mask is in force, nothing is draining, and no callback is inside, or on its
  way out of, a body that it paused.
  */
  method SetEnabled(p: Provider, purpose: Purpose, desired: Mask, s: State)
    returns (ghost disable: Mask, t: State, ghost moves: seq<Move>)
    requires p.Represents(s) && Invariant(s) && Begins(s, purpose, desired)
    modifies p, p.preBody, p.postBody
    ensures p.Represents(t) && Ran(s, moves, t, SetProgram(disable)) && Invariant(t)
    ensures disable == s.enabled.Minus(desired) && Switched(t, purpose, desired) && SameLease(s, t)
  {
    hide Provider.Represents, Invariant, Ran, Meanwhile, Enabled, Apply, Advance, Empty;
    MarkFacts(s, purpose, desired);
    OwnAdvance(s);
    var previous := p.enabledMask;
    p.Masks(s);
    var off, on := p.Mark(s, purpose, desired);
    disable := off;
    t, moves := Mark(s, purpose, desired), [Mine(LAdvance)];
    ghost var others, turn;
    ghost var program := [LAdvance];
    var u, v;
    u, others := Others(p, Holder, t);
    SwitchBack(t, others, u, purpose, desired, off, on, 0, false);
    v, turn := SwitchOne(p, 0, purpose, desired, off, on, u);
    Continue(Holder, s, moves, program, t, others, u, turn, TurnProgram(off, 0), v);
    moves, program := moves + others + turn, program + TurnProgram(off, 0);
    u, others := Others(p, Holder, v);
    SwitchBack(v, others, u, purpose, desired, off, on, 1, false);
    t, turn := SwitchOne(p, 1, purpose, desired, off, on, u);
    Continue(Holder, s, moves, program, v, others, u, turn, TurnProgram(off, 1), t);
    moves, program := moves + others + turn, program + TurnProgram(off, 1);
    v := t;
    t, moves := CommitSwitch(p, purpose, previous, desired, off, on, s, moves, program, v);
  }

  /** The last section of SetEnabled. */
  method CommitSwitch(p: Provider, purpose: Purpose, previous: Mask, desired: Mask, disable: Mask, enable: Mask,
                      ghost s: State, ghost a: seq<Move>, ghost q: seq<Label>, d: State)
    returns (t: State, ghost moves: seq<Move>)
    requires p.Represents(d) && Ran(s, a, d, q) && Invariant(d)
    requires SwitchingAt(d, purpose, desired, disable, enable, 2, false)
    requires disable == previous.Minus(desired) && enable == desired.Minus(previous)
    modifies p, p.preBody, p.postBody
    ensures p.Represents(t) && Ran(s, moves, t, q + [LAdvance]) && Invariant(t) && Switched(t, purpose, desired)
    ensures SameLease(d, t)
  {
    hide Provider.Represents, Invariant, Ran, Meanwhile, Enabled, Apply, Advance, Empty;
    ghost var others;
    var u;
    u, others := Others(p, Holder, d);
    SwitchBack(d, others, u, purpose, desired, disable, enable, 2, false);
    CommitFacts(u, purpose, desired, disable, enable);
    OwnAdvance(u);
    p.Commit(u, previous, desired, disable, enable);
    t := Commit(u);
    PausedBodies(t, purpose, desired);
    Continue(Holder, s, a, q, d, others, u, [Mine(LAdvance)], [LAdvance], t);
    moves := a + others + [Mine(LAdvance)];
  }

  // ---------------------------------------------------------------------------------------------
  // ReleaseOwner and the stop
  // ---------------------------------------------------------------------------------------------

  /** What the holder of g_Control does next, but for the inside of SetEnabled. */
  lemma ControlFacts(s: State)
    ensures match s.control
            case Granted(id, caller, request, before) =>
              Enabled(s, LAdvance) && Advance(s) == Take(s) && Take(s).control == Applying(id, request, before)
            case Applying(id, request, before) =>
              && Enabled(s, LAdvance) && AfterSwitch(ForRequest(id, request, before)) == Answering(id, request, before)
              && (request.Hold? ==> Advance(s) == ApplyRequest(s)
                                    && ApplyRequest(s).control == Answering(id, request, before))
              && (request.Disable? || request.Enable? ==>
                    Begins(s, ForRequest(id, request, before), Wanted(request, before)))
            case Releasing(caller) =>
              Enabled(s, LAdvance) && Advance(s).control == Pausing(caller) && Advance(s).stopping == s.stopping
            case Pausing(caller) =>
              Begins(s, ForPause(caller), NEITHER) && AfterSwitch(ForPause(caller)) == Restoring(caller)
            case Restoring(caller) =>
              && AfterSwitch(ForRestore(caller)) == Disowning(caller)
              && (if s.stopping then Enabled(s, LAdvance) && Advance(s) == s.(control := Disowning(caller))
                  else Begins(s, ForRestore(caller), BOTH))
            case Disowning(caller) =>
              var t := Advance(s);
              && Enabled(s, LAdvance) && t.control == AfterRelease(caller) && t.owner == 0
              && t.enabled == s.enabled && t.stopping == s.stopping
            case Removing(id) =>
              var t := Advance(s);
              && Enabled(s, LAdvance) && t.control == Free && id !in t.clients
              && t.owner == s.owner && t.enabled == s.enabled
            case StopPausing => Begins(s, ForStop, NEITHER) && AfterSwitch(ForStop) == Free
            case _ => true
  {
    hide Mark, Wanted;
  }

  /** A piece of code, then other threads, then the holder's next section. */
  lemma Next(s: State, a: seq<Move>, q: seq<Label>, u: State, others: seq<Move>, v: State)
    requires Ran(s, a, u, q) && Meanwhile(Holder, u, others, v) && Invariant(v) && Enabled(v, LAdvance)
    ensures Ran(s, a + others + [Mine(LAdvance)], Advance(v), q + [LAdvance]) && Invariant(Advance(v))
  {
    hide *;
    OwnAdvance(v);
    Continue(Holder, s, a, q, u, others, v, [Mine(LAdvance)], [LAdvance], Advance(v));
  }

  /** Nobody owns the control any more; both bodies are open again, or closed for good if the driver is stopping. */
  predicate Released(t: State, caller: Caller) {
    t.control == AfterRelease(caller) && t.owner == 0 && t.enabled == if t.stopping then NEITHER else BOTH
  }

  /**
  ReleaseOwner: the hold is disarmed, both bodies are drained and, unless the driver is stopping, opened again; only
  then does the owner go.
  */
  method ReleaseOwner(p: Provider, caller: Caller, s: State)
    returns (t: State, ghost moves: seq<Move>, ghost program: seq<Label>)
    requires p.Represents(s) && Invariant(s) && s.control == Releasing(caller)
    modifies p, p.preBody, p.postBody
    ensures p.Represents(t) && Ran(s, moves, t, program) && Invariant(t) && Released(t, caller)
    ensures t.stopping == s.stopping && forall k | 0 <= k < |program| :: program[k] == LAdvance
  {
    hide Provider.Represents, Invariant, Ran, Meanwhile, Enabled, Apply, Advance, Empty;
    ControlFacts(s);
    OwnAdvance(s);
    p.DisarmHold(s);
    t, moves, program := Advance(s), [Mine(LAdvance)], [LAdvance];
    ghost var others, turn, off;
    var u;
    u, others := Others(p, Holder, t);
    HolderBack(t, others, u);
    ControlFacts(u);
    off, t, turn := SetEnabled(p, ForPause(caller), NEITHER, u);
    Continue(Holder, s, moves, program, Advance(s), others, u, turn, SetProgram(off), t);
    moves, program := moves + others + turn, program + SetProgram(off);
    AllAdvance(off);
    t, moves, program := RestoreOwner(p, caller, s, moves, program, t);
  }

  lemma AllAdvance(disable: Mask)
    ensures forall k | 0 <= k < |SetProgram(disable)| :: SetProgram(disable)[k] == LAdvance
  {
  }

  /** ReleaseOwner from the test of the stop on. */
  method RestoreOwner(p: Provider, caller: Caller, ghost s: State, ghost a: seq<Move>, ghost q: seq<Label>, d: State)
    returns (t: State, ghost moves: seq<Move>, ghost program: seq<Label>)
    requires p.Represents(d) && Ran(s, a, d, q) && Invariant(d) && d.control == Restoring(caller)
             && d.enabled == NEITHER
    requires forall k | 0 <= k < |q| :: q[k] == LAdvance
    modifies p, p.preBody, p.postBody
    ensures p.Represents(t) && Ran(s, moves, t, program) && Invariant(t) && Released(t, caller)
    ensures t.stopping == d.stopping && forall k | 0 <= k < |program| :: program[k] == LAdvance
  {
    hide Provider.Represents, Invariant, Ran, Meanwhile, Enabled, Apply, Advance, Empty;
    ghost var others, turn, off;
    var u;
    u, others := Others(p, Holder, d);
    HolderBack(d, others, u);
    ControlFacts(u);
    p.Masks(u);
    if !p.stopping {
      off, t, turn := SetEnabled(p, ForRestore(caller), BOTH, u);
      Continue(Holder, s, a, q, d, others, u, turn, SetProgram(off), t);
      AllAdvance(off);
      moves, program := a + others + turn, q + SetProgram(off);
    } else {
      p.Passed(u, Disowning(caller));
      Next(s, a, q, d, others, u);
      t, moves, program := Advance(u), a + others + [Mine(LAdvance)], q + [LAdvance];
    }
    u, others := Others(p, Holder, t);
    HolderBack(t, others, u);
    ControlFacts(u);
    var _ := p.Disown(u);
    Next(s, moves, program, t, others, u);
    t, moves, program := Advance(u), moves + others + [Mine(LAdvance)], program + [LAdvance];
  }

  lemma StopFacts(s: State)
    requires s.control == Free
    ensures Enabled(s, LStop) && Apply(s, LStop) == Stop(s) && Stop(s).stopping && Stop(s).owner == s.owner
    ensures Stop(s).control == if s.owner == 0 then StopPausing else Releasing(OnStop)
  {
  }

  /**
  ManagedCallbacksStop under g_Control: when it lets go, nobody owns the control, both bodies are disabled and no
  callback is left in either.
  */
  method StopControl(p: Provider, s: State) returns (t: State, ghost moves: seq<Move>, ghost program: seq<Label>)
    requires p.Represents(s) && Invariant(s) && s.control == Free
    modifies p, p.preBody, p.postBody
    ensures p.Represents(t) && Ran(s, moves, t, [LStop] + program) && Invariant(t)
    ensures t.stopping && t.control == Free && t.enabled == NEITHER && t.draining == NEITHER
    ensures Empty(t, PreBody) && Empty(t, PostBody)
    ensures forall k | 0 <= k < |program| :: program[k] == LAdvance
  {
    hide Provider.Represents, Invariant, Ran, Meanwhile, Enabled, Apply, Advance, Empty;
    StopFacts(s);
    Own(s, LStop);
    p.Masks(s);
    var owned := p.ownerId != 0;
    p.MarkStopping(s);
    t, moves, program := Stop(s), [Mine(LStop)], [];
    ghost var others, turn, off;
    var u;
    if owned {
      ghost var rest;
      u, others := Others(p, Holder, t);
      HolderBack(t, others, u);
      t, turn, rest := ReleaseOwner(p, OnStop, u);
      Continue(Holder, s, moves, [LStop], Stop(s), others, u, turn, rest, t);
      moves, program := moves + others + turn, rest;
    }
    assert program == [] ==> [LStop] + program == [LStop];
    u, others := Others(p, Holder, t);
    HolderBack(t, others, u);
    ControlFacts(u);
    ghost var v := t;
    off, t, turn := SetEnabled(p, ForStop, NEITHER, u);
    AllAdvance(off);
    Continue(Holder, s, moves, [LStop] + program, v, others, u, turn, SetProgram(off), t);
    assert [LStop] + program + SetProgram(off) == [LStop] + (program + SetProgram(off));
    moves, program := moves + others + turn, program + SetProgram(off);
  }

  // ---------------------------------------------------------------------------------------------
  // Disconnection and process exit
  // ---------------------------------------------------------------------------------------------

  lemma EntryFacts(s: State, id: ClientId, process: Process)
    requires Invariant(s) && s.control == Free && id != 0
    ensures Enabled(s, LDisconnect(id)) && Apply(s, LDisconnect(id)) == Disconnect(s, id)
    ensures var t := Disconnect(s, id);
            && t == s.(control := t.control) && SameLease(s, t)
            && t.control == if s.owner == id then Releasing(OnDisconnect(id)) else Removing(id)
    ensures Enabled(s, LExit(process)) && Apply(s, LExit(process)) == ProcessExit(s, process)
    ensures var t := ProcessExit(s, process);
            && t == s.(control := t.control)
            && t.control == if s.ownerProcess == Some(process) then Releasing(OnExit) else Free
  {
    hide Counted, MasksFit, RundownFits, ControlFits, StopFits;
  }

  lemma ExitReleased(t: State)
    requires Invariant(t) && Released(t, OnExit)
    ensures t.control == Free && t.owner == 0 && t.ownerProcess == None
  {
    hide Counted, MasksFit, RundownFits, ControlFits, StopFits;
  }

  /**
  A client's disconnection under g_Control: an owner is released, with its pauses taken back, before it leaves the
  table.
  */
  method DisconnectClient(p: Provider, id: ClientId, s: State)
    returns (t: State, ghost moves: seq<Move>, ghost program: seq<Label>)
    requires p.Represents(s) && Invariant(s) && s.control == Free && id != 0
    modifies p, p.preBody, p.postBody
    ensures p.Represents(t) && Ran(s, moves, t, [LDisconnect(id)] + program) && Invariant(t)
    ensures t.control == Free && id !in t.clients && t.owner != id
    ensures forall k | 0 <= k < |program| :: program[k] == LAdvance
  {
    hide Provider.Represents, Invariant, Ran, Meanwhile, Enabled, Apply, Advance, Empty;
    EntryFacts(s, id, 0);
    Own(s, LDisconnect(id));
    p.Masks(s);
    var owned := p.ownerId == id;
    t, moves, program := Disconnect(s, id), [Mine(LDisconnect(id))], [];
    p.Settled(s, t);
    ghost var others;
    var u;
    if owned {
      ghost var turn, rest;
      u, others := Others(p, Holder, t);
      HolderBack(t, others, u);
      ghost var v := t;
      t, turn, rest := ReleaseOwner(p, OnDisconnect(id), u);
      Continue(Holder, s, moves, [LDisconnect(id)], v, others, u, turn, rest, t);
      moves, program := moves + others + turn, rest;
    }
    assert program == [] ==> [LDisconnect(id)] + program == [LDisconnect(id)];
    u, others := Others(p, Holder, t);
    HolderBack(t, others, u);
    ControlFacts(u);
    p.RemoveClient(u, id);
    Next(s, moves, [LDisconnect(id)] + program, t, others, u);
    assert [LDisconnect(id)] + program + [LAdvance] == [LDisconnect(id)] + (program + [LAdvance]);
    t, moves, program := Advance(u), moves + others + [Mine(LAdvance)], program + [LAdvance];
  }

  /** ProcessNotify under g_Control: a process that exits owns the control no longer. */
  method NotifyExit(p: Provider, process: Process, s: State)
    returns (t: State, ghost moves: seq<Move>, ghost program: seq<Label>)
    requires p.Represents(s) && Invariant(s) && s.control == Free
    modifies p, p.preBody, p.postBody
    ensures p.Represents(t) && Ran(s, moves, t, [LExit(process)] + program) && Invariant(t)
    ensures t.control == Free && t.ownerProcess != Some(process)
    ensures forall k | 0 <= k < |program| :: program[k] == LAdvance
  {
    hide Provider.Represents, Invariant, Ran, Meanwhile, Enabled, Apply, Advance, Empty;
    EntryFacts(s, 1, process);
    Own(s, LExit(process));
    p.Masks(s);
    var owned := p.ownerProcess == Some(process);
    t, moves, program := ProcessExit(s, process), [Mine(LExit(process))], [];
    p.Settled(s, t);
    if owned {
      ghost var others, turn, rest;
      var u;
      u, others := Others(p, Holder, t);
      HolderBack(t, others, u);
      ghost var v := t;
      t, turn, rest := ReleaseOwner(p, OnExit, u);
      ExitReleased(t);
      Continue(Holder, s, moves, [LExit(process)], v, others, u, turn, rest, t);
      moves, program := moves + others + turn, rest;
    }
    assert program == [] ==> [LExit(process)] + program == [LExit(process)];
  }

  // ---------------------------------------------------------------------------------------------
  // A control message
  // ---------------------------------------------------------------------------------------------

  lemma MessageFacts(s: State, id: ClientId, caller: Process, request: Request, matches: bool)
    requires s.control == Free && id != 0 && ValidRequest(request)
    ensures var l, t := LMessage(id, caller, request, matches), Message(s, id, caller, request, matches);
            && Enabled(s, l) && Apply(s, l) == t && t == s.(control := t.control) && SameLease(s, t)
            && t.enabled == s.enabled
            && t.control == if MessageStatus(s, id, caller, matches) != Success then Free
                            else if !request.Release? then Granted(id, caller, request, s.enabled)
                            else if s.owner != 0 then Releasing(OnRelease(id, s.enabled))
                            else Answering(id, Release, s.enabled)
  {
    hide MessageStatus;
  }

  /** What the client is told is in force when the reply is copied. */
  ghost predicate Answered(t: State, id: ClientId, request: Request, before: Mask) {
    && t.draining == NEITHER
    && t.owner == (if request.Release? then 0 else id) && InForce(request, before, t.enabled)
    && forall b | !t.enabled.Has(b) :: Empty(t, b)
  }

  lemma AnsweringFacts(s: State, id: ClientId, request: Request, before: Mask)
    requires Invariant(s) && s.control == Answering(id, request, before)
    ensures Answered(s, id, request, before) && !s.stopping
  {
    hide StopFits;
    forall b: Body | !s.enabled.Has(b) ensures Empty(s, b) {
      assert s.rundown.At(b).count == Running(s, b) + s.threads[Leaving(b)];
    }
  }

  lemma ReplyFacts(s: State, id: ClientId, request: Request, before: Mask, copied: bool)
    requires s.control == Answering(id, request, before)
    ensures Enabled(s, LReply(copied)) && Apply(s, LReply(copied)) == Reply(s, copied) && SameLease(s, Reply(s, copied))
    ensures Reply(s, copied).enabled == s.enabled && Reply(s, copied) == s.(control := Reply(s, copied).control)
    ensures copied && Answered(s, id, request, before) ==> Answered(Reply(s, copied), id, request, before)
    ensures id != 0 ==>
              Reply(s, copied).control == if !copied && s.owner == id then Releasing(OnLostReply) else Free
  {
  }

  /** The reply; if it is lost the lease of the request does not outlive it. */
  method AnswerRequest(p: Provider, id: ClientId, request: Request, before: Mask, copied: bool, ghost s: State,
                       ghost a: seq<Move>, ghost q: seq<Label>, d: State)
    returns (t: State, ghost moves: seq<Move>, ghost program: seq<Label>)
    requires p.Represents(d) && Ran(s, a, d, q) && Invariant(d)
    requires d.control == Answering(id, request, before) && id != 0
    modifies p, p.preBody, p.postBody
    ensures p.Represents(t) && Ran(s, moves, t, program) && Invariant(t) && t.control == Free
    ensures copied ==> Answered(t, id, request, before)
    ensures !copied ==> t.owner != id
  {
    hide Provider.Represents, Invariant, Ran, Meanwhile, Enabled, Apply, Advance, Empty;
    ghost var others, turn, rest;
    var u;
    u, others := Others(p, Holder, d);
    HolderBack(d, others, u);
    AnsweringFacts(u, id, request, before);
    ReplyFacts(u, id, request, before, copied);
    Own(u, LReply(copied));
    p.Masks(u);
    t := Reply(u, copied);
    p.Settled(u, t);
    Continue(Holder, s, a, q, d, others, u, [Mine(LReply(copied))], [LReply(copied)], t);
    moves, program := a + others + [Mine(LReply(copied))], q + [LReply(copied)];
    if !copied && p.ownerId == id {
      u, others := Others(p, Holder, t);
      HolderBack(t, others, u);
      ghost var v := t;
      t, turn, rest := ReleaseOwner(p, OnLostReply, u);
      Continue(Holder, s, moves, program, v, others, u, turn, rest, t);
      moves, program := moves + others + turn, program + rest;
    }
  }

  /** Taking the lease and doing what the request asks, up to the reply. */
  method GrantRequest(p: Provider, id: ClientId, caller: Process, request: Request, before: Mask, ghost s: State,
                      ghost a: seq<Move>, ghost q: seq<Label>, d: State)
    returns (t: State, ghost moves: seq<Move>, ghost program: seq<Label>)
    requires p.Represents(d) && Ran(s, a, d, q) && Invariant(d) && d.control == Granted(id, caller, request, before)
    requires !request.Release?
    modifies p, p.preBody, p.postBody
    ensures p.Represents(t) && Ran(s, moves, t, program) && Invariant(t) && t.control == Answering(id, request, before)
  {
    hide Provider.Represents, Invariant, Ran, Meanwhile, Enabled, Apply, Advance, Empty;
    ghost var others, turn, off;
    var u;
    u, others := Others(p, Holder, d);
    HolderBack(d, others, u);
    ControlFacts(u);
    OwnAdvance(u);
    p.Take(u, id, caller);
    t := Take(u);
    Continue(Holder, s, a, q, d, others, u, [Mine(LAdvance)], [LAdvance], t);
    moves, program := a + others + [Mine(LAdvance)], q + [LAdvance];
    u, others := Others(p, Holder, t);
    HolderBack(t, others, u);
    ControlFacts(u);
    ghost var v := t;
    if request.Hold? {
      p.ArmHold(u, request.mask, request.process, request.beforeBody);
      OwnAdvance(u);
      t := ApplyRequest(u);
      Continue(Holder, s, moves, program, v, others, u, [Mine(LAdvance)], [LAdvance], t);
      moves, program := moves + others + [Mine(LAdvance)], program + [LAdvance];
    } else {
      off, t, turn := SetEnabled(p, ForRequest(id, request, before), Wanted(request, before), u);
      Continue(Holder, s, moves, program, v, others, u, turn, SetProgram(off), t);
      moves, program := moves + others + turn, program + SetProgram(off);
    }
  }

  /**
  A control message under g_Control. A refused one changes nothing. An accepted one whose reply arrives has brought
  about what it asked for, with the bodies it paused empty; one whose reply is lost leaves its sender without the lease.
  */
  method HandleRequest(p: Provider, id: ClientId, caller: Process, request: Request, matches: bool, copied: bool,
                       s: State)
    returns (status: Status, t: State, ghost moves: seq<Move>, ghost program: seq<Label>)
    requires p.Represents(s) && Invariant(s) && s.control == Free && id != 0 && ValidRequest(request)
    modifies p, p.preBody, p.postBody
    ensures p.Represents(t) && Ran(s, moves, t, program) && Invariant(t) && t.control == Free
    ensures status == MessageStatus(s, id, caller, matches)
    ensures status != Success ==> t == s && program == [LMessage(id, caller, request, matches)]
    ensures status == Success && copied ==> Answered(t, id, request, s.enabled)
    ensures status == Success && !copied ==> t.owner != id
  {
    hide Provider.Represents, Invariant, Ran, Meanwhile, Enabled, Apply, Advance, Empty;
    ghost var l := LMessage(id, caller, request, matches);
    MessageFacts(s, id, caller, request, matches);
    Own(s, l);
    p.Masks(s);
    var before;
    status, before := p.Check(s, id, caller, matches);
    t, moves, program := Message(s, id, caller, request, matches), [Mine(l)], [l];
    p.Settled(s, t);
    if status == Success {
      if !request.Release? {
        t, moves, program := GrantRequest(p, id, caller, request, before, s, moves, program, t);
      } else if p.ownerId != 0 {
        ghost var others, turn, rest;
        var u;
        u, others := Others(p, Holder, t);
        HolderBack(t, others, u);
        ghost var v := t;
        t, turn, rest := ReleaseOwner(p, OnRelease(id, before), u);
        Continue(Holder, s, moves, program, v, others, u, turn, rest, t);
        moves, program := moves + others + turn, program + rest;
      }
      t, moves, program := AnswerRequest(p, id, request, before, copied, s, moves, program, t);
    }
  }
}
