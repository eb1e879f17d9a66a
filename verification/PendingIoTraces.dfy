/**
Several sections of one thread in a row, with the sections of other threads in between.

A trace is the protocol's view of a piece of code: its own steps in program order, and before each of them any number
of steps of other threads. What a thread's own section has established is still there at its next one.
*/
module PendingIoTraces {

  import opened Options
  import opened PendingIo
  import opened PendingIoInvariant
  import opened PendingIoRuns
  import opened PendingIoOrder
  import PendingIoEffects

  /**
  A callback that finishes or queues its operation, the completion worker, a thread that takes g_Control, or a callback
  without an operation.
  */
  datatype Thread = Callback(op: OperationId) | Worker | Holder | Visitor

  datatype Move = Mine(step: Label) | Other(step: Label)

  /**
  A step of another thread: one that does not name the callback's operation, or not one of the worker's or
  holder's.
  */
  predicate Foreign(me: Thread, s: State, l: Label) {
    match me
    case Callback(i) => !(NamesOperation(l) && l.op == i)
    case Worker => !ByWorker(s, l)
    case Holder => !ByHolder(s, l)
    case Visitor => true
  }

  /**
  A step of the thread itself; a pre callback begins with the admission of its operation, and any thread drops the
  process references of its locals.
  */
  predicate Belongs(me: Thread, s: State, l: Label) {
    match me
    case Callback(i) => l.LDereference? || l.LAdmit? || (NamesOperation(l) && l.op == i)
    case Worker => l.LDereference? || ByWorker(s, l)
    case Holder => l.LDereference? || TakesControl(l) || ByHolder(s, l)
    case Visitor => l.LDereference? || l.LAdmit? || l.LSetup? || l.LTeardown?
  }

  ghost predicate Trace(me: Thread, s: State, moves: seq<Move>, t: State)
    decreases |moves|
  {
    if moves == [] then s == t
    else
      var l := moves[0].step;
      && Enabled(s, l) && (if moves[0].Mine? then Belongs(me, s, l) else Foreign(me, s, l))
      && Trace(me, Apply(s, l), moves[1..], t)
  }

  /** The thread's own steps, in program order. */
  function Program(moves: seq<Move>): seq<Label> {
    if moves == [] then []
    else if moves[0].Mine? then [moves[0].step] + Program(moves[1..])
    else Program(moves[1..])
  }

  /** A piece of code that went from one state of a run to another with these own steps. */
  ghost predicate Ran(me: Thread, s: State, moves: seq<Move>, t: State, program: seq<Label>) {
    Trace(me, s, moves, t) && Program(moves) == program && Invariant(t)
  }

  // ---------------------------------------------------------------------------------------------
  // Putting pieces together
  // ---------------------------------------------------------------------------------------------

  lemma {:induction false} TraceJoin(me: Thread, s: State, a: seq<Move>, u: State, b: seq<Move>, t: State)
    requires Trace(me, s, a, u) && Trace(me, u, b, t)
    ensures Trace(me, s, a + b, t)
    decreases |a|
  {
    hide Enabled, Apply, Foreign, Belongs;
    if a == [] {
      assert a + b == b;
    } else {
      TraceJoin(me, Apply(s, a[0].step), a[1..], u, b, t);
      assert (a + b)[1..] == a[1..] + b;
    }
  }

  lemma {:induction false} ProgramJoin(a: seq<Move>, b: seq<Move>)
    ensures Program(a + b) == Program(a) + Program(b)
  {
    if a == [] {
      assert a + b == b;
    } else {
      ProgramJoin(a[1..], b);
      assert (a + b)[1..] == a[1..] + b;
    }
  }

  lemma Join(me: Thread, s: State, a: seq<Move>, u: State, b: seq<Move>, t: State, p: seq<Label>, q: seq<Label>)
    requires Ran(me, s, a, u, p) && Ran(me, u, b, t, q)
    ensures Ran(me, s, a + b, t, p + q)
  {
    hide Invariant, Trace, Program;
    TraceJoin(me, s, a, u, b, t);
    ProgramJoin(a, b);
  }

  /** One section of the thread itself. */
  lemma Own(me: Thread, s: State, l: Label)
    requires Invariant(s) && Enabled(s, l) && Belongs(me, s, l)
    ensures Ran(me, s, [Mine(l)], Apply(s, l), [l])
  {
    hide Invariant, Enabled, Apply, Belongs;
    StepKeeps(s, l);
    hide Invariant;
    var moves := [Mine(l)];
    assert moves[1..] == [];
    assert Trace(me, Apply(s, l), moves[1..], Apply(s, l));
    assert Program(moves) == [l] + Program(moves[1..]);
  }

  /** Nothing happened. */
  lemma Nothing(me: Thread, s: State)
    requires Invariant(s)
    ensures Ran(me, s, [], s, [])
  {
    hide Invariant, Enabled, Apply, Foreign, Belongs;
  }

  function Labels(moves: seq<Move>): seq<Label> {
    if moves == [] then [] else [moves[0].step] + Labels(moves[1..])
  }

  ghost function States(s: State, moves: seq<Move>, me: Thread, t: State): seq<State>
    requires Trace(me, s, moves, t)
    decreases |moves|
  {
    if moves == [] then [] else [Apply(s, moves[0].step)] + States(Apply(s, moves[0].step), moves[1..], me, t)
  }

  /** A run goes on with a trace. */
  function Extended(r: Run, moves: seq<Move>, states: seq<State>): Run {
    Run(r.states + states, r.labels + Labels(moves))
  }

  ghost predicate IsRunTo(r: Run, t: State) {
    IsRun(r) && r.states[|r.labels|] == t
  }

  lemma OneMore(r: Run, s: State, l: Label)
    requires IsRunTo(r, s) && Enabled(s, l)
    ensures IsRunTo(Run(r.states + [Apply(s, l)], r.labels + [l]), Apply(s, l))
  {
    hide Enabled, Apply, Initial;
    var x := Run(r.states + [Apply(s, l)], r.labels + [l]);
    forall k | 0 <= k < |x.labels|
      ensures Enabled(x.states[k], x.labels[k]) && x.states[k + 1] == Apply(x.states[k], x.labels[k])
    {
      if k < |r.labels| {
        assert x.states[k] == r.states[k] && x.states[k + 1] == r.states[k + 1] && x.labels[k] == r.labels[k];
      } else {
        assert x.states[k] == s && x.states[k + 1] == Apply(s, l) && x.labels[k] == l;
      }
    }
  }

  /** What a piece of code does from a state of a run is the continuation of that run. */
  lemma {:induction false} TraceExtendsRun(r: Run, me: Thread, s: State, moves: seq<Move>, t: State)
    requires IsRunTo(r, s) && Trace(me, s, moves, t)
    ensures IsRunTo(Extended(r, moves, States(s, moves, me, t)), t)
    decreases |moves|
  {
    hide IsRunTo, Enabled, Apply, Foreign, Belongs;
    if moves == [] {
      assert Extended(r, moves, States(s, moves, me, t)) == r;
    } else {
      var l := moves[0].step;
      var u := Apply(s, l);
      var x := Run(r.states + [u], r.labels + [l]);
      OneMore(r, s, l);
      TraceExtendsRun(x, me, u, moves[1..], t);
      assert x.states + States(u, moves[1..], me, t) == r.states + States(s, moves, me, t);
      assert x.labels + Labels(moves[1..]) == r.labels + Labels(moves);
    }
  }

  // ---------------------------------------------------------------------------------------------
  // What others leave alone
  // ---------------------------------------------------------------------------------------------

  /** A callback has the operation's logical share in its hands. */
  predicate InHand(stage: Stage) {
    stage == LockBuffer || stage == TryPreQueue || stage == PassThrough || stage == TryPostQueue
    || RunsIn(stage, InCallback)
  }

  /** The thread stands between two of its sections on this operation. */
  predicate Stands(me: Thread, s: State, i: OperationId) {
    i in s.ops &&
    match me
    case Callback(j) => j == i && (InHand(s.ops[i].stage) || (s.ops[i].stage == Done && s.ops[i].life != Linked))
    case Worker => (s.worker == Finishing(i) && RunsIn(s.ops[i].stage, InWorker)) || s.worker == Freeing(i)
    case _ => false
  }

  ghost predicate Core(s: State) {
    Lists(s) && WorkerFits(s) && Operations(s)
  }

  /** A callback that has an operation in hand: the worker can at most drop its own reference. */
  lemma CallbackAlone(s: State, l: Label, i: OperationId)
    requires Lists(s) && WorkerFits(s) && Stands(Callback(i), s, i) && Owned(s, i, s.ops[i])
    requires Foreign(Callback(i), s, l) && Enabled(s, l)
    ensures ActsOn(s, l, i) ==> l.LDropWorker? && s.worker == Dropping(i) && s.ops[i].references >= 2
  {
    hide DataIdle, Enabled;
    if l.LPop? {
      hide WorkerFits, Owned;
      PopAlone(s, i);
    } else {
      hide Lists, Foreign;
    }
  }

  lemma PopAlone(s: State, i: OperationId)
    requires Lists(s) && Stands(Callback(i), s, i)
    ensures !ActsOn(s, LPop, i)
  {
    if s.work != [] {
      assert s.work[0] in s.work;
    }
  }

  lemma WorkerAlone(s: State, l: Label, i: OperationId)
    requires WorkerFits(s) && Stands(Worker, s, i) && Owned(s, i, s.ops[i]) && Foreign(Worker, s, l) && Enabled(s, l)
    ensures !ActsOn(s, l, i)
  {
    hide DataIdle;
  }

  lemma DropStaysToo(s: State, i: OperationId)
    requires s.worker == Dropping(i) && i in s.ops && s.ops[i].references >= 2
    ensures i in DropWorker(s).ops && Stays(s, DropWorker(s), i)
  {
  }

  lemma StandsFor(me: Thread, s: State, i: OperationId)
    requires Stands(me, s, i)
    ensures me == Callback(i) || me == Worker
  {
  }

  lemma AloneActs(me: Thread, s: State, l: Label, i: OperationId)
    requires Lists(s) && WorkerFits(s) && Stands(me, s, i) && Owned(s, i, s.ops[i])
    requires Foreign(me, s, l) && Enabled(s, l)
    ensures ActsOn(s, l, i) ==> l.LDropWorker? && s.worker == Dropping(i) && s.ops[i].references >= 2
  {
    hide Lists, WorkerFits, Owned, Foreign, ActsOn, Enabled;
    if me.Callback? {
      CallbackAlone(s, l, i);
    } else {
      assert me.Worker? by {
        StandsFor(me, s, i);
      }
      WorkerAlone(s, l, i);
    }
  }

  lemma AloneStays(me: Thread, s: State, l: Label, i: OperationId)
    requires Core(s) && Stands(me, s, i) && Foreign(me, s, l) && Enabled(s, l)
    ensures i in Apply(s, l).ops && Stays(s, Apply(s, l), i)
  {
    hide WorkerFits, Operations, Lists, Foreign, ActsOn, Stays, DropWorker, Owned, Routed, Swept, Enabled;
    Facts(s, i);
    AloneActs(me, s, l, i);
    if ActsOn(s, l, i) {
      DropStaysToo(s, i);
    } else {
      hide Apply;
      OthersLeaveOperation(s, l, i);
    }
  }

  lemma WorkerSame(s: State, l: Label)
    requires Foreign(Worker, s, l) && Enabled(s, l)
    ensures Apply(s, l).worker == s.worker
  {
    hide Apply, Enabled;
    OthersLeaveWorker(s, l);
  }

  lemma StillStands(me: Thread, s: State, t: State, i: OperationId)
    requires Stands(me, s, i) && i in t.ops && Stays(s, t, i) && (me.Worker? ==> t.worker == s.worker)
    ensures Stands(me, t, i)
  {
  }

  /** Steps of other threads only, as many as there are. */
  ghost predicate Meanwhile(me: Thread, s: State, others: seq<Move>, t: State) {
    Ran(me, s, others, t, [])
  }

  lemma ProgramLength(moves: seq<Move>)
    requires moves != []
    ensures |Program(moves)| == |Program(moves[1..])| + (if moves[0].Mine? then 1 else 0)
  {
  }

  lemma FirstIsOther(others: seq<Move>)
    requires others != [] && Program(others) == []
    ensures others[0].Other? && Program(others[1..]) == []
  {
    hide Program;
    ProgramLength(others);
  }

  /** The thread finds its operation as it left it. */
  lemma {:induction false} StandsMeanwhile(me: Thread, s: State, others: seq<Move>, t: State, i: OperationId)
    requires Invariant(s) && Meanwhile(me, s, others, t) && Stands(me, s, i)
    ensures i in t.ops && Stays(s, t, i) && Stands(me, t, i)
    decreases |others|
  {
    hide Invariant, Enabled, Apply, Foreign, Belongs, Stands, Program;
    if others == [] {
    } else {
      var l := others[0].step;
      var u := Apply(s, l);
      FirstIsOther(others);
      Parts(s);
      AloneStays(me, s, l, i);
      if me.Worker? {
        WorkerSame(s, l);
      }
      StillStands(me, s, u, i);
      StepKeeps(s, l);
      StandsMeanwhile(me, u, others[1..], t, i);
    }
    StandsThere(me, s, i);
  }

  lemma StandsThere(me: Thread, s: State, i: OperationId)
    requires Stands(me, s, i)
    ensures i in s.ops
  {
  }

  /** The worker is where it was. */
  lemma {:induction false} WorkerMeanwhile(s: State, others: seq<Move>, t: State)
    requires Invariant(s) && Meanwhile(Worker, s, others, t)
    ensures t.worker == s.worker
    decreases |others|
  {
    hide Invariant, Enabled, Apply, Foreign, Belongs, Program;
    if others == [] {
    } else {
      var l := others[0].step;
      FirstIsOther(others);
      WorkerSame(s, l);
      StepKeeps(s, l);
      WorkerMeanwhile(Apply(s, l), others[1..], t);
    }
  }

  lemma HeldSame(s: State, l: Label)
    requires Invariant(s) && Foreign(Holder, s, l) && Enabled(s, l) && s.control != Free
    ensures Apply(s, l).control == s.control && Apply(s, l).owner == s.owner
  {
    hide Invariant, Apply, Enabled, Lists, WorkerFits, Operations, WatchFits, EventFits, ByHolder,
      PendingIoEffects.EndsLease, PendingIoEffects.ArmSucceeds;
    Parts(s);
    ControlIsHeld(s, l);
    HeldSections(s, l);
    PendingIoEffects.LeaseStep(s, l);
  }

  /** g_Control is still held for the same section, and the lease is as it was. */
  lemma {:induction false} HolderMeanwhile(s: State, others: seq<Move>, t: State)
    requires Invariant(s) && Meanwhile(Holder, s, others, t) && s.control != Free
    ensures t.control == s.control && t.owner == s.owner
    decreases |others|
  {
    hide Invariant, Enabled, Apply, Foreign, Belongs, Program;
    if others == [] {
    } else {
      var l := others[0].step;
      FirstIsOther(others);
      HeldSame(s, l);
      StepKeeps(s, l);
      HolderMeanwhile(Apply(s, l), others[1..], t);
    }
  }
}
