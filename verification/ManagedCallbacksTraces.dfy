/**
Several sections of one thread of the managed control in a row, with the sections of other threads in between.
*/
module ManagedCallbacksTraces {

  import opened Options
  import opened ManagedCallbacks
  import opened ManagedCallbacksInvariant
  import opened ManagedCallbacksTheorems

  /** A callback that stands at `thread`, or the thread that holds g_Control. */
  datatype Agent = At(thread: Thread) | Holder

  /** The thread's own step, or one of another thread while it stands there. */
  datatype Move = Mine(step: Label) | Other(me: Agent, step: Label)

  /** The thread that the step moves on, if it moves a callback. */
  function MovedThread(l: Label): Option<Thread> {
    match l
    case LHoldBeforeDone(b) => Some(HeldBefore(b))
    case LLeave(b, held) => Some(Inside(b, held))
    case LReleaseRundown(b) => Some(Leaving(b))
    case _ => None
  }

  /** A step of another thread: callbacks at the same place are told apart by their number. */
  predicate Foreign(me: Agent, s: State, l: Label) {
    match me
    case At(x) => MovedThread(l) == Some(x) ==> s.threads[x] >= 2
    case Holder => l != LAdvance && !l.LReply?
  }

  ghost predicate Trace(s: State, moves: seq<Move>, t: State)
    decreases |moves|
  {
    if moves == [] then s == t
    else
      var l := moves[0].step;
      && Enabled(s, l) && (moves[0].Other? ==> Foreign(moves[0].me, s, l))
      && Trace(Apply(s, l), moves[1..], t)
  }

  /** The thread's own steps, in program order. */
  function Program(moves: seq<Move>): seq<Label> {
    if moves == [] then []
    else if moves[0].Mine? then [moves[0].step] + Program(moves[1..])
    else Program(moves[1..])
  }

  /** A piece of code that went from one state to another with these own steps. */
  ghost predicate Ran(s: State, moves: seq<Move>, t: State, program: seq<Label>) {
    Trace(s, moves, t) && Program(moves) == program && Invariant(t)
  }

  lemma {:induction false} TraceJoin(s: State, a: seq<Move>, u: State, b: seq<Move>, t: State)
    requires Trace(s, a, u) && Trace(u, b, t)
    ensures Trace(s, a + b, t)
    decreases |a|
  {
    hide Enabled, Apply, Foreign;
    if a == [] {
      assert a + b == b;
    } else {
      TraceJoin(Apply(s, a[0].step), a[1..], u, b, t);
      assert (a + b)[1..] == a[1..] + b;
    }
  }

  lemma {:induction false} ProgramJoin(a: seq<Move>, b: seq<Move>)
    ensures Program(a + b) == Program(a) + Program(b)
  {
    if a == [] {
      assert a + b == b;
    } else {
      ProgramJoin(a[1..], b);
      assert (a + b)[1..] == a[1..] + b;
    }
  }

  lemma Join(s: State, a: seq<Move>, p: seq<Label>, u: State, b: seq<Move>, q: seq<Label>, t: State)
    requires Ran(s, a, u, p) && Ran(u, b, t, q)
    ensures Ran(s, a + b, t, p + q)
  {
    hide Invariant, Trace, Program;
    TraceJoin(s, a, u, b, t);
    ProgramJoin(a, b);
  }

  lemma Nothing(s: State)
    requires Invariant(s)
    ensures Ran(s, [], s, [])
  {
    hide Invariant;
  }

  /** One section of the thread itself. */
  lemma Own(s: State, l: Label)
    requires Invariant(s) && Enabled(s, l)
    ensures Ran(s, [Mine(l)], Apply(s, l), [l]) && Invariant(Apply(s, l))
  {
    hide Invariant, Enabled, Apply;
    ApplyKeeps(s, l);
    var moves := [Mine(l)];
    assert moves[1..] == [];
    assert Trace(Apply(s, l), moves[1..], Apply(s, l));
    assert Program(moves) == [l] + Program(moves[1..]);
  }

  /** One section of another thread. */
  lemma Foreigner(me: Agent, s: State, l: Label)
    requires Invariant(s) && Enabled(s, l) && Foreign(me, s, l)
    ensures Meanwhile(me, s, [Other(me, l)], Apply(s, l)) && Invariant(Apply(s, l))
  {
    hide Invariant, Enabled, Apply, Foreign;
    ApplyKeeps(s, l);
    var moves := [Other(me, l)];
    assert moves[1..] == [];
    assert Trace(Apply(s, l), moves[1..], Apply(s, l));
    assert Program(moves) == Program(moves[1..]);
    assert OthersOf(me, moves[1..]);
  }

  /** Only other threads than this one have moved. */
  predicate OthersOf(me: Agent, moves: seq<Move>) {
    forall k | 0 <= k < |moves| :: moves[k].Other? && moves[k].me == me
  }

  ghost predicate Meanwhile(me: Agent, s: State, moves: seq<Move>, t: State) {
    Ran(s, moves, t, []) && OthersOf(me, moves)
  }

  lemma MeanwhileJoin(me: Agent, s: State, a: seq<Move>, u: State, b: seq<Move>, t: State)
    requires Meanwhile(me, s, a, u) && Meanwhile(me, u, b, t)
    ensures Meanwhile(me, s, a + b, t)
  {
    hide Ran;
    Join(s, a, [], u, b, [], t);
    var none: seq<Label> := [];
    assert none + none == none;
  }

  // ---------------------------------------------------------------------------------------------
  // What others leave alone
  // ---------------------------------------------------------------------------------------------

  lemma CallThreads(s: State, l: Label, x: Thread)
    requires Enabled(s, l) && Calls(l) && x in s.threads && Foreign(At(x), s, l)
    ensures x in Apply(s, l).threads
  {
    hide HoldBefore, HoldBeforeDone, EnterBody, LeaveBody, ReleaseRundown;
    match l
    case LHoldBefore(b, process) => MoreThreads(s, b, process, x);
    case LHoldBeforeDone(b) => FewerThreads(s, b, x);
    case LEnter(b, process) => MoreThreads(s, b, process, x);
    case LLeave(b, held) => KeptBy(s, b, held, x);
    case LReleaseRundown(b) => FewerThreads(s, b, x);
  }

  lemma MoreThreads(s: State, b: Body, process: Process, x: Thread)
    requires x in s.threads
    ensures x in HoldBefore(s, b, process).threads && x in EnterBody(s, b, process).threads
  {
    hide Acquires, HoldsInside;
  }

  lemma FewerThreads(s: State, b: Body, x: Thread)
    requires x in s.threads
    ensures x != HeldBefore(b) || s.threads[x] >= 2 ==> x in HoldBeforeDone(s, b).threads
    ensures x != Leaving(b) || s.threads[x] >= 2 ==> x in ReleaseRundown(s, b).threads
  {
  }

  lemma KeptBy(s: State, b: Body, held: bool, x: Thread)
    requires x in s.threads && (x != Inside(b, held) || s.threads[x] >= 2)
    ensures x in LeaveBody(s, b, held).threads
  {
  }

  lemma EntryThreads(s: State, l: Label)
    requires Enabled(s, l) && !Calls(l) && l != LAdvance
    ensures Apply(s, l).threads == s.threads
  {
    hide MessageStatus, AfterRelease, ValidRequest;
  }

  lemma AdvanceThreads(s: State)
    requires Enabled(s, LAdvance)
    ensures Advance(s).threads == s.threads
  {
    hide Blocked, Wanted, AfterRelease, AfterSwitch, Mask.Plus, Mask.Minus;
  }

  lemma ThreadStays(s: State, l: Label, x: Thread)
    requires Enabled(s, l) && x in s.threads && Foreign(At(x), s, l)
    ensures x in Apply(s, l).threads
  {
    hide Apply, Enabled;
    if Calls(l) {
      CallThreads(s, l, x);
    } else if l == LAdvance {
      AdvanceApplies(s);
      AdvanceThreads(s);
    } else {
      EntryThreads(s, l);
    }
  }

  lemma FirstOther(me: Agent, s: State, moves: seq<Move>, t: State)
    requires Meanwhile(me, s, moves, t) && moves != []
    ensures var l := moves[0].step;
            Enabled(s, l) && Foreign(me, s, l) && Meanwhile(me, Apply(s, l), moves[1..], t)
  {
    hide Enabled, Apply, Foreign, Invariant;
  }

  /** The callback is still where it was. */
  lemma {:induction false} ThreadMeanwhile(x: Thread, s: State, moves: seq<Move>, t: State)
    requires Meanwhile(At(x), s, moves, t) && x in s.threads
    ensures x in t.threads && Invariant(t)
    decreases |moves|
  {
    hide Invariant, Enabled, Apply, Foreign, Program;
    if moves == [] {
    } else {
      FirstOther(At(x), s, moves, t);
      ThreadStays(s, moves[0].step, x);
      ThreadMeanwhile(x, Apply(s, moves[0].step), moves[1..], t);
    }
  }

  lemma HolderAlone(s: State, l: Label)
    requires s.control != Free && Enabled(s, l) && Foreign(Holder, s, l)
    ensures Calls(l)
  {
  }

  lemma SameControlVia(s: State, u: State, t: State)
    requires SameControl(s, u) && SameControl(u, t)
    ensures SameControl(s, t)
  {
  }

  /** While g_Control is held, masks, leases and the holder's position are the holder's alone. */
  lemma {:induction false} HolderMeanwhile(s: State, moves: seq<Move>, t: State)
    requires Meanwhile(Holder, s, moves, t) && s.control != Free
    ensures SameControl(s, t) && t.control == s.control && Invariant(t)
    decreases |moves|
  {
    hide Invariant, Enabled, Apply, Foreign, Program;
    if moves == [] {
    } else {
      var l := moves[0].step;
      FirstOther(Holder, s, moves, t);
      HolderAlone(s, l);
      CallStep(s, l);
      HolderMeanwhile(Apply(s, l), moves[1..], t);
      SameControlVia(s, Apply(s, l), t);
    }
  }

  // ---------------------------------------------------------------------------------------------
  // Traces and runs
  // ---------------------------------------------------------------------------------------------

  function Labels(moves: seq<Move>): seq<Label> {
    if moves == [] then [] else [moves[0].step] + Labels(moves[1..])
  }

  ghost function States(s: State, moves: seq<Move>, t: State): seq<State>
    requires Trace(s, moves, t)
    decreases |moves|
  {
    if moves == [] then [] else [Apply(s, moves[0].step)] + States(Apply(s, moves[0].step), moves[1..], t)
  }

  /** A run goes on with a trace. */
  function Extended(r: Run, moves: seq<Move>, states: seq<State>): Run {
    Run(r.states + states, r.labels + Labels(moves))
  }

  ghost predicate IsRunTo(r: Run, t: State) {
    IsRun(r) && r.states[|r.labels|] == t
  }

  lemma OneMore(r: Run, s: State, l: Label)
    requires IsRunTo(r, s) && Enabled(s, l)
    ensures IsRunTo(Run(r.states + [Apply(s, l)], r.labels + [l]), Apply(s, l))
  {
    hide Enabled, Apply, Initial;
    var x := Run(r.states + [Apply(s, l)], r.labels + [l]);
    forall k | 0 <= k < |x.labels|
      ensures Enabled(x.states[k], x.labels[k]) && x.states[k + 1] == Apply(x.states[k], x.labels[k])
    {
      if k < |r.labels| {
        assert x.states[k] == r.states[k] && x.states[k + 1] == r.states[k + 1] && x.labels[k] == r.labels[k];
      } else {
        assert x.states[k] == s && x.states[k + 1] == Apply(s, l) && x.labels[k] == l;
      }
    }
  }

  /** What a piece of code does from a state of a run is the continuation of that run. */
  lemma {:induction false} TraceExtendsRun(r: Run, s: State, moves: seq<Move>, t: State)
    requires IsRunTo(r, s) && Trace(s, moves, t)
    ensures IsRunTo(Extended(r, moves, States(s, moves, t)), t)
    decreases |moves|
  {
    hide IsRunTo, Enabled, Apply, Foreign;
    if moves == [] {
      assert Extended(r, moves, States(s, moves, t)) == r;
    } else {
      var l := moves[0].step;
      var u := Apply(s, l);
      var x := Run(r.states + [u], r.labels + [l]);
      OneMore(r, s, l);
      TraceExtendsRun(x, u, moves[1..], t);
      assert x.states + States(u, moves[1..], t) == r.states + States(s, moves, t);
      assert x.labels + Labels(moves[1..]) == r.labels + Labels(moves);
    }
  }
}
