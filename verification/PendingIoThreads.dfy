/**
The driver's own procedures, section after section: the two operation callbacks, FinishLogical, DropReference and
the body of the worker's loop, run on the heap while other threads run between any two of their sections.

Each method takes the protocol state it starts in and returns the one it ends in, with the trace between them. The
sections answer with values; the program order that the protocol assumes is what these methods do with the answers.
*/
module PendingIoThreads {

  import opened Options
  import opened PendingIo
  import opened PendingIoInvariant
  import opened PendingIoRuns
  import opened PendingIoOrder
  import opened PendingIoEffects
  import opened PendingIoTraces
  import opened PendingIoSections
  import opened PendingIoProvider
  import PendingIoDrain

  /**
  Between two sections of a thread whose locals hold these process references. All a caller knows of the heap afterwards
  is this contract, which admits any number of steps of other threads, contexts allocated and freed by them included;
  what a thread's locals hold is dropped by nobody else.
  */
  method OthersSparing(p: Provider, ghost me: Thread, c: Context?, ghost held: multiset<Process>, ghost s: State)
    returns (ghost t: State, ghost others: seq<Move>)
    requires p.Represents(s) && Invariant(s) && held <= s.locals
    modifies p, p.contexts.Values
    ensures p.Represents(t) && Meanwhile(me, s, others, t) && held <= t.locals
    ensures c != null && old(p.Allocated(c)) && c.id in t.ops ==> p.Allocated(c)
    ensures fresh(p.contexts.Values - old(p.contexts.Values))
  {
    hide *;
    t, others := s, [];
    Quiet(me, s);
  }

  /** The same for a thread whose locals hold nothing. */
  method Others(p: Provider, ghost me: Thread, c: Context?, ghost s: State)
    returns (ghost t: State, ghost others: seq<Move>)
    requires p.Represents(s) && Invariant(s)
    modifies p, p.contexts.Values
    ensures p.Represents(t) && Meanwhile(me, s, others, t)
    ensures c != null && old(p.Allocated(c)) && c.id in t.ops ==> p.Allocated(c)
    ensures fresh(p.contexts.Values - old(p.contexts.Values))
  {
    hide *;
    t, others := OthersSparing(p, me, c, multiset{}, s);
  }

  lemma Quiet(me: Thread, s: State)
    requires Invariant(s)
    ensures Meanwhile(me, s, [], s)
  {
    hide Invariant, Ran;
    Nothing(me, s);
  }

  /** The thread comes back to its operation. */
  lemma Back(me: Thread, s: State, others: seq<Move>, t: State, i: OperationId)
    requires Invariant(s) && Meanwhile(me, s, others, t) && Stands(me, s, i)
    ensures Invariant(t) && i in s.ops && i in t.ops && Stands(me, t, i)
    ensures t.ops[i].stage == s.ops[i].stage && t.ops[i].life == s.ops[i].life
    ensures me.Worker? ==> t.worker == s.worker
  {
    hide Invariant, Stands, Trace, Program;
    StandsThere(me, s, i);
    StandsMeanwhile(me, s, others, t, i);
    if me.Worker? {
      WorkerMeanwhile(s, others, t);
    }
  }

  /** A piece of code, then other threads, then one section. */
  lemma Then(me: Thread, s: State, a: seq<Move>, p: seq<Label>, u: State, others: seq<Move>, v: State, l: Label,
             t: State)
    requires Ran(me, s, a, u, p) && Meanwhile(me, u, others, v) && Took(me, v, l, t)
    ensures Ran(me, s, a + others + [Mine(l)], t, p + [l]) && Invariant(t)
  {
    hide Invariant, Trace, Program, Enabled, Apply;
    Join(me, s, a, u, others, v, p, []);
    Join(me, s, a + others, v, [Mine(l)], t, p + [], [l]);
    assert p + [] + [l] == p + [l];
  }

  lemma JoinOthers(me: Thread, s: State, a: seq<Move>, p: seq<Label>, u: State, others: seq<Move>, v: State)
    requires Ran(me, s, a, u, p) && Meanwhile(me, u, others, v)
    ensures Ran(me, s, a + others, v, p)
  {
    hide Invariant, Trace, Program;
    Join(me, s, a, u, others, v, p, []);
    assert p + [] == p;
  }

  /** A piece of code, then other threads, then another piece. */
  lemma Continue(me: Thread, s: State, a: seq<Move>, p: seq<Label>, u: State, others: seq<Move>, v: State,
                 b: seq<Move>, q: seq<Label>, t: State)
    requires Ran(me, s, a, u, p) && Meanwhile(me, u, others, v) && Ran(me, v, b, t, q)
    ensures Ran(me, s, a + others + b, t, p + q) && Invariant(t)
  {
    hide *;
    JoinOthers(me, s, a, p, u, others, v);
    Join(me, s, a + others, v, b, t, p, q);
    RanInvariant(me, v, b, t, q);
  }

  lemma RanInvariant(me: Thread, s: State, moves: seq<Move>, t: State, p: seq<Label>)
    requires Ran(me, s, moves, t, p)
    ensures Invariant(t)
  {
    hide Invariant, Trace, Program;
  }

  /** The worker comes back to where it was. */
  lemma WorkerBack(s: State, others: seq<Move>, t: State)
    requires Invariant(s) && Meanwhile(Worker, s, others, t)
    ensures Invariant(t) && t.worker == s.worker
  {
    hide Invariant, Trace, Program;
    WorkerMeanwhile(s, others, t);
  }

  /** A piece of code, and at once one more step: the thread moves on without a section in between. */
  lemma AtOnce(me: Thread, s: State, a: seq<Move>, p: seq<Label>, u: State, l: Label, t: State)
    requires Ran(me, s, a, u, p) && Took(me, u, l, t)
    ensures Ran(me, s, a + [Mine(l)], t, p + [l]) && Invariant(t)
  {
    hide *;
    TookFacts(me, u, l, t);
    Join(me, s, a, u, [Mine(l)], t, p, [l]);
  }

  lemma TookFacts(me: Thread, s: State, l: Label, t: State)
    requires Took(me, s, l, t)
    ensures Invariant(t) && Ran(me, s, [Mine(l)], t, [l])
  {
    hide Invariant, Trace, Program, Enabled, Apply;
  }

  // ---------------------------------------------------------------------------------------------
  // Process references of locals
  // ---------------------------------------------------------------------------------------------

  /** What dropping this local runs. */
  function LetGo(x: Option<Process>): seq<Label> {
    if x.Some? then [LDereference(x.value)] else []
  }

  /** Where the thread stands does not depend on its locals. */
  predicate SamePlace(me: Thread, s: State, t: State) {
    match me
    case Callback(_) => true
    case Visitor => true
    case Worker => t.worker == s.worker
    case Holder => s.control != Free ==> t.control == s.control && t.owner == s.owner
  }

  lemma PlaceMeanwhile(me: Thread, s: State, others: seq<Move>, t: State)
    requires Invariant(s) && Meanwhile(me, s, others, t)
    ensures Invariant(t) && SamePlace(me, s, t)
  {
    hide Invariant, Trace, Program;
    match me
    case Callback(_) =>
    case Visitor =>
    case Worker => WorkerMeanwhile(s, others, t);
    case Holder =>
      if s.control != Free {
        HolderMeanwhile(s, others, t);
      }
  }

  /** ObDereferenceObject on a local that may be null; the thread's other locals keep what they hold. */
  method DropLocal(p: Provider, ghost me: Thread, x: Option<Process>, ghost rest: multiset<Process>, ghost s: State,
                   ghost a: seq<Move>, ghost q: seq<Label>, ghost d: State)
    returns (ghost t: State, ghost moves: seq<Move>)
    requires p.Represents(d) && Ran(me, s, a, d, q) && Invariant(d) && Bag(x) + rest <= d.locals
    modifies p, p.contexts.Values
    ensures p.Represents(t) && Ran(me, s, moves, t, q + LetGo(x)) && Invariant(t) && rest <= t.locals
    ensures SamePlace(me, d, t)
    ensures fresh(p.contexts.Values - old(p.contexts.Values))
  {
    hide Provider.Represents, Provider.Allocated, Provider.Drops, Invariant, Ran, Meanwhile, Took, Stands, Enabled,
      Apply;
    t, moves := d, a;
    if x.Some? {
      ghost var u, others := OthersSparing(p, me, null, multiset{x.value} + rest, d);
      PlaceMeanwhile(me, d, others, u);
      Spared(u.locals, x.value, rest);
      DereferenceTaken(me, u, x.value);
      p.Dereference(u, x.value);
      t, moves := PendingIo.Dereference(u, x.value), a + others + [Mine(LDereference(x.value))];
      Then(me, s, a, q, d, others, u, LDereference(x.value), t);
    } else {
      assert q + [] == q;
    }
  }

  lemma Spared(locals: multiset<Process>, x: Process, rest: multiset<Process>)
    requires multiset{x} + rest <= locals
    ensures x in locals && rest <= locals - multiset{x}
  {
    assert (multiset{x} + rest)[x] == 1 + rest[x];
    forall y ensures rest[y] <= (locals - multiset{x})[y] {
      assert (multiset{x} + rest)[y] <= locals[y];
    }
  }

  // ---------------------------------------------------------------------------------------------
  // DropReference and FinishLogical
  // ---------------------------------------------------------------------------------------------

  /** The end of a context, by the thread that read a zero count. */
  method EndContext(p: Provider, ghost me: Thread, c: Context, ghost s: State)
    returns (ghost t: State, ghost moves: seq<Move>)
    requires p.Represents(s) && Invariant(s) && p.Allocated(c)
    requires Stands(me, s, c.id) && s.ops[c.id].life == Unlinking && (me.Worker? ==> s.worker == Freeing(c.id))
    modifies p, p.contexts.Values
    ensures p.Represents(t) && Ran(me, s, moves, t, [LUnlink(c.id), LFree(c.id)])
    ensures c.id !in t.ops && (me.Worker? ==> t.worker == s.worker)
    ensures fresh(p.contexts.Values - old(p.contexts.Values))
  {
    hide *;
    ghost var i := c.id;
    StandsThere(me, s, i);
    UnlinkTaken(me, s, i);
    p.Unlink(s, c);
    ghost var u := PendingIo.Unlink(s, i);
    TookFacts(me, s, LUnlink(i), u);
    ghost var v, others := Others(p, me, c, u);
    Back(me, u, others, v, i);
    FreeTaken(me, v, i);
    p.Names(v, c);
    p.Free(v, c);
    t, moves := FreeOperation(v, i), [Mine(LUnlink(i))] + others + [Mine(LFree(i))];
    Then(me, s, [Mine(LUnlink(i))], [LUnlink(i)], u, others, v, LFree(i), t);
    assert [LUnlink(i)] + [LFree(i)] == [LUnlink(i), LFree(i)];
  }

  /** The reference that the step `l` of this thread drops: the logical share or the worker's own. */
  ghost predicate DropsBy(me: Thread, s: State, l: Label, t: State, i: OperationId) {
    && Took(me, s, l, t) && i in t.ops && Dropped(me, t, i)
    && (me.Worker? && t.ops[i].references == 0 ==> t.worker == Freeing(i))
  }

  /** How far DropReference goes. */
  function DropProgram(l: Label, i: OperationId, last: bool): seq<Label> {
    if last then [l, LUnlink(i), LFree(i)] else [l]
  }

  method DropReference(p: Provider, ghost me: Thread, c: Context, ghost s: State, ghost l: Label, ghost d: State)
    returns (last: bool, ghost t: State, ghost moves: seq<Move>)
    requires p.Represents(s) && p.Allocated(c) && p.Drops(s, d, c.id) && DropsBy(me, s, l, d, c.id)
    modifies p, p.contexts.Values
    ensures p.Represents(t) && Ran(me, s, moves, t, DropProgram(l, c.id, last))
    ensures last <==> d.ops[c.id].references == 0
    ensures if last then c.id !in t.ops && (me.Worker? ==> t.worker == Freeing(c.id)) else t == d && p.Allocated(c)
    ensures fresh(p.contexts.Values - old(p.contexts.Values))
  {
    hide Provider.Represents, Provider.Allocated, Provider.Drops, Invariant, Ran, Meanwhile, Took, Stands, Enabled,
      Apply;
    ghost var i := c.id;
    DropFacts(me, s, l, d, i);
    p.Member(s, c);
    last := p.Decrement(s, d, c);
    t, moves := d, [Mine(l)];
    if last {
      ghost var v, others := Others(p, me, c, d);
      Back(me, d, others, v, i);
      ghost var rest;
      t, rest := EndContext(p, me, c, v);
      Continue(me, s, [Mine(l)], [l], d, others, v, rest, [LUnlink(i), LFree(i)], t);
      moves := [Mine(l)] + others + rest;
      assert [l] + [LUnlink(i), LFree(i)] == [l, LUnlink(i), LFree(i)];
    }
  }

  lemma DropFacts(me: Thread, s: State, l: Label, d: State, i: OperationId)
    requires DropsBy(me, s, l, d, i)
    ensures Invariant(d) && Ran(me, s, [Mine(l)], d, [l]) && i in d.ops
    ensures d.ops[i].references == 0 ==>
              && Stands(me, d, i) && d.ops[i].life == Unlinking
              && (me.Worker? ==> d.worker == Freeing(i))
  {
    hide Invariant, Ran, Enabled, Apply, Stands, Took;
    TookFacts(me, s, l, d);
  }

  /** FinishLogical from the count on. */
  method FinishReleased(p: Provider, ghost me: Thread, c: Context, ghost s: State, first: bool)
    returns (ghost last: bool, ghost t: State, ghost moves: seq<Move>)
    requires p.Represents(s) && Invariant(s) && p.Allocated(c)
    requires Stands(me, s, c.id) && s.ops[c.id].stage == FinishCount(RunnerOf(me), true) && first
    requires me.Worker? ==> s.worker == Finishing(c.id)
    modifies p, p.contexts.Values
    ensures p.Represents(t)
    ensures Ran(me, s, moves, t, [LCount(c.id)] + DropProgram(LDropLogical(c.id), c.id, last))
    ensures last ==> c.id !in t.ops
    ensures !last ==> c.id in t.ops && t.ops[c.id].stage == Done && p.Allocated(c)
    ensures me.Worker? ==> !last && t.worker == Finishing(c.id)
    ensures fresh(p.contexts.Values - old(p.contexts.Values))
  {
    hide *;
    ghost var i := c.id;
    StandsThere(me, s, i);
    CountTaken(me, s, i);
    p.CountReleased(s, c, first);
    ghost var d := PendingIo.CountReleased(s, i);
    TookFacts(me, s, LCount(i), d);
    ghost var u, others := Others(p, me, c, d);
    Back(me, d, others, u, i);
    DropLogicalTaken(me, u, i);
    p.DropLogicalDrops(u, i);
    ghost var e := PendingIo.DropLogical(u, i);
    LogicalDrop(me, u, e, i);
    var ended;
    ended, t, moves := DropReference(p, me, c, u, LDropLogical(i), e);
    Continue(me, s, [Mine(LCount(i))], [LCount(i)], d, others, u, moves, DropProgram(LDropLogical(i), i, ended), t);
    last, moves := ended, [Mine(LCount(i))] + others + moves;
  }

  /**
  The whole of FinishLogical, in whichever thread owns the logical share. The swap always finds the share unreleased;
  a callback may be the last to drop a reference and then ends the context, the worker never is.
  */
  method FinishLogical(p: Provider, ghost me: Thread, c: Context, ghost s: State)
    returns (ghost last: bool, ghost t: State, ghost moves: seq<Move>)
    requires p.Represents(s) && Invariant(s) && p.Allocated(c)
    requires Stands(me, s, c.id) && s.ops[c.id].stage == FinishSwap(RunnerOf(me))
    requires me.Worker? ==> s.worker == Finishing(c.id)
    modifies p, p.contexts.Values
    ensures p.Represents(t)
    ensures Ran(me, s, moves, t, [LSwap(c.id), LCount(c.id)] + DropProgram(LDropLogical(c.id), c.id, last))
    ensures last ==> c.id !in t.ops
    ensures !last ==> c.id in t.ops && t.ops[c.id].stage == Done && p.Allocated(c)
    ensures me.Worker? ==> !last && t.worker == Finishing(c.id)
    ensures fresh(p.contexts.Values - old(p.contexts.Values))
  {
    hide Provider.Represents, Provider.Allocated, Provider.Drops, Invariant, Ran, Meanwhile, Took, Stands, Enabled,
      Apply;
    ghost var i := c.id;
    StandsThere(me, s, i);
    SwapTaken(me, s, i);
    p.Member(s, c);
    var first := p.SwapReleased(s, c);
    ghost var d := PendingIo.SwapReleased(s, i);
    TookFacts(me, s, LSwap(i), d);
    ghost var u, others := Others(p, me, c, d);
    Back(me, d, others, u, i);
    last, t, moves := FinishReleased(p, me, c, u, first);
    ghost var q := DropProgram(LDropLogical(i), i, last);
    Continue(me, s, [Mine(LSwap(i))], [LSwap(i)], d, others, u, moves, [LCount(i)] + q, t);
    moves := [Mine(LSwap(i))] + others + moves;
    assert [LSwap(i)] + ([LCount(i)] + q) == [LSwap(i), LCount(i)] + q;
  }

  lemma LogicalDrop(me: Thread, s: State, d: State, i: OperationId)
    requires Took(me, s, LDropLogical(i), d) && Dropped(me, d, i) && (me.Worker? ==> d.ops[i].references > 0)
    ensures DropsBy(me, s, LDropLogical(i), d, i)
  {
    hide Took;
  }

  // ---------------------------------------------------------------------------------------------
  // The operation callbacks
  // ---------------------------------------------------------------------------------------------

  /** The steps of a callback that finishes the operation itself. */
  function FinishProgram(i: OperationId, last: bool): seq<Label> {
    [LSwap(i), LCount(i)] + DropProgram(LDropLogical(i), i, last)
  }

  /** FinishLogical after another section of a callback. */
  method FinishAfter(p: Provider, c: Context, ghost s: State, ghost a: seq<Move>, ghost q: seq<Label>, ghost d: State)
    returns (ghost last: bool, ghost t: State, ghost moves: seq<Move>)
    requires p.Represents(d) && Ran(Callback(c.id), s, a, d, q) && Invariant(d) && p.Allocated(c)
    requires Stands(Callback(c.id), d, c.id) && d.ops[c.id].stage == FinishSwap(InCallback)
    modifies p, p.contexts.Values
    ensures p.Represents(t) && Ran(Callback(c.id), s, moves, t, q + FinishProgram(c.id, last))
    ensures c.id !in t.ops || t.ops[c.id].stage == Done
    ensures fresh(p.contexts.Values - old(p.contexts.Values))
  {
    hide Provider.Represents, Provider.Allocated, Provider.Drops, Invariant, Ran, Meanwhile, Took, Stands, Enabled,
      Apply;
    ghost var i := c.id;
    StandsThere(Callback(i), d, i);
    ghost var u, others := Others(p, Callback(i), c, d);
    Back(Callback(i), d, others, u, i);
    last, t, moves := FinishLogical(p, Callback(i), c, u);
    Continue(Callback(i), s, a, q, d, others, u, moves, FinishProgram(i, last), t);
    moves := a + others + moves;
  }

  /** What a post callback runs: it hands the data to the worker, or finishes the operation itself. */
  function PostProgram(i: OperationId, draining: bool, queue: bool, queued: bool, last: bool): seq<Label> {
    [LEnterPost(i, draining)] + (if queue then [LQueue(i, true)] else [])
    + (if queued then [] else FinishProgram(i, last))
  }

  /**
  The post callback. Filter Manager gives it a context that a pre has passed on, with the data idle. A draining post
  and one whose mode does not pend never queue; whoever does not queue finishes. `asked` is where it asks to queue.
  */
  method PostOperation(p: Provider, c: Context, draining: bool, ghost s: State)
    returns (queued: bool, ghost queue: bool, ghost before: seq<Move>, ghost asked: State, ghost last: bool,
             ghost t: State, ghost moves: seq<Move>)
    requires p.Represents(s) && Invariant(s) && p.Allocated(c) && c.id in s.ops
    requires s.ops[c.id].stage == AwaitPost && DataIdle(s, s.ops[c.id].preIdentity)
    modifies p, p.contexts.Values
    ensures p.Represents(t) && Ran(Callback(c.id), s, moves, t, PostProgram(c.id, draining, queue, queued, last))
    ensures var mode := s.ops[c.id].mode;
            queue <==> !draining && (mode == Post || mode == Both || mode == FailPostQueue)
    ensures queue ==> Ran(Callback(c.id), s, before, asked, [LEnterPost(c.id, draining)]) && c.id in asked.ops
                      && (queued <==> Accepts(asked, asked.ops[c.id], true))
    ensures queued ==> queue && c.id in t.ops && t.ops[c.id].stage == PostQueued
    ensures !queued ==> c.id !in t.ops || t.ops[c.id].stage == Done
    ensures fresh(p.contexts.Values - old(p.contexts.Values))
  {
    hide Provider.Represents, Provider.Allocated, Provider.Drops, Invariant, Ran, Meanwhile, Took, Stands, Enabled,
      Apply;
    ghost var i := c.id;
    EnterTaken(s, i, draining);
    p.Member(s, c);
    var goes := p.EnterPost(s, c, draining);
    ghost var d := PendingIo.EnterPost(s, i, draining);
    TookFacts(Callback(i), s, LEnterPost(i, draining), d);
    queue, queued, last, before, asked := goes, false, false, [], s;
    moves := [Mine(LEnterPost(i, draining))];
    if goes {
      queued, before, asked, last, t, moves := QueuePost(p, c, s, moves, [LEnterPost(i, draining)], d);
    } else {
      last, t, moves := FinishAfter(p, c, s, moves, [LEnterPost(i, draining)], d);
    }
    assert [LEnterPost(i, draining)] + [LQueue(i, true)] + [] == [LEnterPost(i, draining)] + [LQueue(i, true)];
    assert [LEnterPost(i, draining)] + [] == [LEnterPost(i, draining)];
  }

  lemma AcceptsUnlessRefused(s: State, i: OperationId, post: bool)
    requires i in s.ops && s.ops[i].instance in s.instances
    ensures Refused(s, s.ops[i], post) <==> !Accepts(s, s.ops[i], post)
  {
  }

  /** The queue section of a post, and FinishLogical if it refuses. */
  method QueuePost(p: Provider, c: Context, ghost s: State, ghost a: seq<Move>, ghost q: seq<Label>, ghost d: State)
    returns (queued: bool, ghost before: seq<Move>, ghost asked: State, ghost last: bool, ghost t: State,
             ghost moves: seq<Move>)
    requires p.Represents(d) && Ran(Callback(c.id), s, a, d, q) && Invariant(d) && p.Allocated(c)
    requires Stands(Callback(c.id), d, c.id) && d.ops[c.id].stage == TryPostQueue
    modifies p, p.contexts.Values
    ensures p.Represents(t)
    ensures Ran(Callback(c.id), s, moves, t,
                if queued then q + [LQueue(c.id, true)] else q + [LQueue(c.id, true)] + FinishProgram(c.id, last))
    ensures Ran(Callback(c.id), s, before, asked, q) && c.id in asked.ops
    ensures queued <==> Accepts(asked, asked.ops[c.id], true)
    ensures queued ==> c.id in t.ops && t.ops[c.id].stage == PostQueued
    ensures !queued ==> c.id !in t.ops || t.ops[c.id].stage == Done
    ensures fresh(p.contexts.Values - old(p.contexts.Values))
  {
    hide Provider.Represents, Provider.Allocated, Provider.Drops, Invariant, Ran, Meanwhile, Took, Stands, Enabled,
      Apply;
    ghost var i := c.id;
    StandsThere(Callback(i), d, i);
    ghost var u, others := Others(p, Callback(i), c, d);
    Back(Callback(i), d, others, u, i);
    QueueTaken(u, i, true);
    before, asked := a + others, u;
    JoinOthers(Callback(i), s, a, q, d, others, u);
    AcceptsUnlessRefused(u, i, true);
    p.Member(u, c);
    queued := p.Queue(u, c, true);
    ghost var e := PendingIo.Queue(u, i, true);
    Then(Callback(i), s, a, q, d, others, u, LQueue(i, true), e);
    last, t, moves := false, e, a + others + [Mine(LQueue(i, true))];
    if !queued {
      last, t, moves := FinishAfter(p, c, s, moves, q + [LQueue(i, true)], e);
    }
  }

  /** What the pre callback answers: go on and call the post, the I/O is completed, or the worker has it. */
  datatype PreStatus = PassedOn | Completed | Pended

  /** What a pre callback that published an operation runs after it. */
  function PreProgram(i: OperationId, pend: bool, read: bool, locked: bool, status: PreStatus, last: bool): seq<Label> {
    if !pend then [LPass(i)]
    else (if read then [LLockBuffer(i, locked)] else [])
         + (if status == Completed then FinishProgram(i, last) else [LQueue(i, false)])
  }

  /** The modes whose pre is offered to the worker, the last of them at a lower instance only. */
  predicate OffersPre(lower: bool, mode: Mode) {
    match mode
    case Pre => true
    case Both => true
    case FailPreQueue => true
    case FailReadLock => lower
    case _ => false
  }

  lemma OffersIsPends(lower: bool, mode: Mode)
    ensures OffersPre(lower, mode) <==> Pends(lower, mode)
  {
  }

  /** The answer fits what became of the operation. */
  predicate Answered(status: PreStatus, t: State, i: OperationId) {
    match status
    case PassedOn => i in t.ops && t.ops[i].stage == AwaitPost
    case Completed => i !in t.ops || t.ops[i].stage == Done
    case Pended => i in t.ops && t.ops[i].stage == PreQueued
  }

  /**
  The pre callback, which Filter Manager calls on an instance with a data that no callback has. It answers pending
  exactly if the worker has the operation, and success with a context exactly if the post will be given it: in a mode
  that pends, only if the operation was revoked when it asked to queue, or the mode refuses. A process reference taken
  for an operation that could not be allocated is dropped again.
  */
  method PreOperation(p: Provider, data: DataId, instance: InstanceId, requestor: Process, file: FileId, read: bool,
                      granted: bool, locked: bool, ghost s: State)
    returns (status: PreStatus, c: Context?, lost: Option<Process>, ghost last: bool, ghost t: State,
             ghost moves: seq<Move>)
    requires p.Represents(s) && Invariant(s) && instance in s.instances && DataIdle(s, data)
    modifies p, p.contexts.Values
    ensures p.Represents(t)
    ensures c == null ==> status == PassedOn
    ensures c == null <==> s.ledger.created !in PendingIo.Admit(s, data, instance, requestor, file, read, granted).ops
    ensures c != null ==> c.id == s.ledger.created && Answered(status, t, c.id)
    ensures c != null && OffersPre(c.lower, c.mode) ==>
              && (status == Completed <==> c.read && (!locked || c.mode == FailReadLock))
              && (status != Completed ==> (status == Pended <==> Accepts(t, t.ops[c.id], false)))
    ensures c != null && !OffersPre(c.lower, c.mode) ==> status == PassedOn
    ensures var i, l := s.ledger.created, LAdmit(data, instance, requestor, file, read, granted);
            if c == null then Ran(Visitor, s, moves, t, [l] + LetGo(lost))
            else
              Ran(Callback(i), s, moves, t,
                  [l] + PreProgram(i, OffersPre(c.lower, c.mode), c.read, locked, status, last))
    ensures fresh(p.contexts.Values - old(p.contexts.Values))
  {
    hide Provider.Represents, Provider.Allocated, Provider.Drops, Invariant, Ran, Meanwhile, Took, Stands, Enabled,
      Apply, Accepts, Answered;
    ghost var i, l := s.ledger.created, LAdmit(data, instance, requestor, file, read, granted);
    AdmitTaken(Callback(i), s, data, instance, requestor, file, read, granted);
    AdmitTaken(Visitor, s, data, instance, requestor, file, read, granted);
    c, lost := p.Admit(s, data, instance, requestor, file, read, granted);
    t := PendingIo.Admit(s, data, instance, requestor, file, read, granted);
    TookFacts(Callback(i), s, l, t);
    TookFacts(Visitor, s, l, t);
    status, last, moves := PassedOn, false, [Mine(l)];
    if c != null {
      p.Constants(t, c);
      OffersIsPends(c.lower, c.mode);
      hide Pends, OffersPre;
      p.Member(t, c);
      if Pends(c.lower, c.mode) {
        status, last, t, moves := PendOperation(p, c, locked, s, moves, [l], t);
      } else {
        t, moves := PassOperation(p, c, s, moves, [l], t);
      }
    } else {
      Among(s.locals, t.locals, lost);
      t, moves := DropLocal(p, Visitor, lost, multiset{}, s, moves, [l], t);
    }
  }

  lemma Among(before: multiset<Process>, after: multiset<Process>, x: Option<Process>)
    requires after == before + Bag(x)
    ensures Bag(x) + multiset{} <= after
  {
  }

  /** A mode that does not pend: the context goes to the post. */
  method PassOperation(p: Provider, c: Context, ghost s: State, ghost a: seq<Move>, ghost q: seq<Label>, ghost d: State)
    returns (ghost t: State, ghost moves: seq<Move>)
    requires p.Represents(d) && Ran(Callback(c.id), s, a, d, q) && Invariant(d) && p.Allocated(c)
    requires Stands(Callback(c.id), d, c.id) && d.ops[c.id].stage == PassThrough
    modifies p, p.contexts.Values
    ensures p.Represents(t) && Ran(Callback(c.id), s, moves, t, q + [LPass(c.id)])
    ensures Answered(PassedOn, t, c.id)
    ensures fresh(p.contexts.Values - old(p.contexts.Values))
  {
    hide Provider.Represents, Provider.Allocated, Provider.Drops, Invariant, Ran, Meanwhile, Took, Stands, Enabled,
      Apply;
    ghost var i := c.id;
    ghost var u, others := Others(p, Callback(i), c, d);
    Back(Callback(i), d, others, u, i);
    PassTaken(u, i);
    p.Passed(u, c);
    t, moves := PassToPost(u, i), a + others + [Mine(LPass(i))];
    Then(Callback(i), s, a, q, d, others, u, LPass(i), t);
  }

  /** A mode that pends: a read has its pages locked first, and is completed here if that fails. */
  method PendOperation(p: Provider, c: Context, locked: bool, ghost s: State, ghost a: seq<Move>, ghost q: seq<Label>,
                       ghost d: State)
    returns (status: PreStatus, ghost last: bool, ghost t: State, ghost moves: seq<Move>)
    requires p.Represents(d) && Ran(Callback(c.id), s, a, d, q) && Invariant(d) && p.Allocated(c)
    requires Stands(Callback(c.id), d, c.id) && d.ops[c.id].stage == if c.read then LockBuffer else TryPreQueue
    modifies p, p.contexts.Values
    ensures p.Represents(t) && Answered(status, t, c.id)
    ensures Ran(Callback(c.id), s, moves, t, q + PreProgram(c.id, true, c.read, locked, status, last))
    ensures status == Completed <==> c.read && (!locked || c.mode == FailReadLock)
    ensures status != Completed ==> (status == Pended <==> Accepts(t, t.ops[c.id], false))
    ensures fresh(p.contexts.Values - old(p.contexts.Values))
  {
    hide Provider.Represents, Provider.Allocated, Provider.Drops, Invariant, Ran, Meanwhile, Took, Stands, Enabled,
      Apply;
    ghost var i := c.id;
    t, moves, last := d, a, false;
    ghost var program := q;
    if c.read {
      ghost var u, others := Others(p, Callback(i), c, d);
      Back(Callback(i), d, others, u, i);
      LockTaken(u, i, locked);
      p.Member(u, c);
      p.Constants(u, c);
      var ready := p.LockUserBuffer(u, c, locked);
      t, program := PendingIo.LockUserBuffer(u, i, locked), q + [LLockBuffer(i, locked)];
      Then(Callback(i), s, a, q, d, others, u, LLockBuffer(i, locked), t);
      moves := a + others + [Mine(LLockBuffer(i, locked))];
      if !ready {
        last, t, moves := FinishAfter(p, c, s, moves, program, t);
        status := Completed;
        assert q + [LLockBuffer(i, locked)] + FinishProgram(i, last) ==
               q + ([LLockBuffer(i, locked)] + FinishProgram(i, last));
        return;
      }
    }
    status, t, moves := QueuePre(p, c, s, moves, program, t);
    assert program + [LQueue(i, false)] ==
           q + ((if c.read then [LLockBuffer(i, locked)] else []) + [LQueue(i, false)]);
  }

  lemma RefusedAlike(s: State, i: OperationId)
    requires i in s.ops && s.ops[i].instance in s.instances && Refused(s, s.ops[i], false)
    ensures var t := PendingIo.Queue(s, i, false);
            i in t.ops && (Accepts(t, t.ops[i], false) <==> Accepts(s, s.ops[i], false))
  {
    hide Refused;
  }

  lemma TakenAlike(s: State, i: OperationId)
    requires i in s.ops && s.ops[i].instance in s.instances && !Refused(s, s.ops[i], false)
    ensures var t := PendingIo.Queue(s, i, false);
            i in t.ops && (Accepts(t, t.ops[i], false) <==> Accepts(s, s.ops[i], false))
  {
    hide Refused;
  }

  /** What a pre was asked for still shows after its queue section. */
  lemma QueuedAccepts(s: State, i: OperationId)
    requires i in s.ops && s.ops[i].instance in s.instances
    ensures var t := PendingIo.Queue(s, i, false);
            i in t.ops && (Refused(s, s.ops[i], false) <==> !Accepts(t, t.ops[i], false))
  {
    hide *;
    AcceptsUnlessRefused(s, i, false);
    if Refused(s, s.ops[i], false) {
      RefusedAlike(s, i);
    } else {
      TakenAlike(s, i);
    }
  }

  /** The queue section of a pre: refused, the callback goes on inline and the post gets the context. */
  method QueuePre(p: Provider, c: Context, ghost s: State, ghost a: seq<Move>, ghost q: seq<Label>, ghost d: State)
    returns (status: PreStatus, ghost t: State, ghost moves: seq<Move>)
    requires p.Represents(d) && Ran(Callback(c.id), s, a, d, q) && Invariant(d) && p.Allocated(c)
    requires Stands(Callback(c.id), d, c.id) && d.ops[c.id].stage == TryPreQueue
    modifies p, p.contexts.Values
    ensures p.Represents(t) && Ran(Callback(c.id), s, moves, t, q + [LQueue(c.id, false)])
    ensures status != Completed && Answered(status, t, c.id)
    ensures status == Pended <==> Accepts(t, t.ops[c.id], false)
    ensures fresh(p.contexts.Values - old(p.contexts.Values))
  {
    hide Provider.Represents, Provider.Allocated, Provider.Drops, Invariant, Ran, Meanwhile, Took, Stands, Enabled,
      Apply;
    ghost var i := c.id;
    ghost var u, others := Others(p, Callback(i), c, d);
    Back(Callback(i), d, others, u, i);
    QueueTaken(u, i, false);
    p.Member(u, c);
    var queued := p.Queue(u, c, false);
    t, moves := PendingIo.Queue(u, i, false), a + others + [Mine(LQueue(i, false))];
    Then(Callback(i), s, a, q, d, others, u, LQueue(i, false), t);
    status := if queued then Pended else PassedOn;
    QueuedAccepts(u, i);
  }

  // ---------------------------------------------------------------------------------------------
  // The completion worker
  // ---------------------------------------------------------------------------------------------

  /** The worker's look at the armed target; what it took a reference on it lets go before the next look at the arm. */
  function WatchProgram(exited: bool, target: Option<Process>, retired: Option<Process>): seq<Label> {
    if target.Some? then [LSnapshot] + [LVerdict(exited)] + (LetGo(retired) + LetGo(target)) + [LSample]
    else [LSnapshot] + [LSample]
  }

  lemma TwoAmong(before: multiset<Process>, after: multiset<Process>, x: Option<Process>, y: Option<Process>)
    requires after == before + Bag(x) + Bag(y) || (y.Some? && after == before + Bag(x) + multiset{y.value})
    ensures Bag(x) + Bag(y) <= after
  {
  }

  /** Two locals are dropped, one after the other. */
  method DropBoth(p: Provider, ghost me: Thread, x: Option<Process>, y: Option<Process>,
                  ghost before: multiset<Process>, ghost s: State, ghost a: seq<Move>, ghost q: seq<Label>,
                  ghost d: State)
    returns (ghost t: State, ghost moves: seq<Move>)
    requires p.Represents(d) && Ran(me, s, a, d, q) && Invariant(d) && d.locals == before + Bag(x) + Bag(y)
    modifies p, p.contexts.Values
    ensures p.Represents(t) && Ran(me, s, moves, t, q + (LetGo(x) + LetGo(y))) && Invariant(t)
    ensures SamePlace(me, d, t)
    ensures fresh(p.contexts.Values - old(p.contexts.Values))
  {
    hide Provider.Represents, Provider.Allocated, Provider.Drops, Invariant, Ran, Meanwhile, Took, Stands, Enabled,
      Apply;
    TwoAmong(before, d.locals, x, y);
    ghost var u, first := DropLocal(p, me, x, Bag(y), s, a, q, d);
    t, moves := DropLocal(p, me, y, multiset{}, s, first, q + LetGo(x), u);
    assert q + LetGo(x) + LetGo(y) == q + (LetGo(x) + LetGo(y));
  }

  /** The verdict on the snapshot's target, and the references that go with it. */
  method ProbeTarget(p: Provider, exited: bool, target: Process, ghost s: State, ghost a: seq<Move>,
                     ghost q: seq<Label>, ghost d: State)
    returns (retired: Option<Process>, ghost t: State, ghost moves: seq<Move>)
    requires p.Represents(d) && Ran(Worker, s, a, d, q) && Invariant(d)
    requires d.worker.Probing? && d.worker.target == target
    modifies p, p.contexts.Values
    ensures p.Represents(t) && Invariant(t) && t.worker == Sample && (retired == Some(target) || retired == None)
    ensures Ran(Worker, s, moves, t, q + [LVerdict(exited)] + (LetGo(retired) + LetGo(Some(target))))
    ensures fresh(p.contexts.Values - old(p.contexts.Values))
  {
    hide Provider.Represents, Provider.Allocated, Provider.Drops, Invariant, Ran, Meanwhile, Took, Stands, Enabled,
      Apply, PendingIo.Snapshot, PendingIo.Verdict, PendingIo.WorkerWait, PendingIo.WorkerTail;
    ghost var u, others := Others(p, Worker, null, d);
    WorkerBack(d, others, u);
    WorkerTaken(u, LVerdict(exited));
    retired := p.Verdict(u, target, exited);
    ghost var v := PendingIo.Verdict(u, exited);
    Then(Worker, s, a, q, d, others, u, LVerdict(exited), v);
    t, moves := DropBoth(p, Worker, retired, Some(target), u.locals, s, a + others + [Mine(LVerdict(exited))],
                         q + [LVerdict(exited)], v);
  }

  /** The look at the arm: with a target the wait will be timed. */
  method SampleArm(p: Provider, ghost s: State, ghost a: seq<Move>, ghost q: seq<Label>, ghost d: State)
    returns (armed: bool, ghost t: State, ghost moves: seq<Move>)
    requires p.Represents(d) && Ran(Worker, s, a, d, q) && Invariant(d) && d.worker == Sample
    modifies p, p.contexts.Values
    ensures p.Represents(t) && t.worker == Waiting(armed) && armed == t.target.Some?
    ensures Ran(Worker, s, moves, t, q + [LSample])
    ensures fresh(p.contexts.Values - old(p.contexts.Values))
  {
    hide *;
    ghost var u, others := Others(p, Worker, null, d);
    WorkerBack(d, others, u);
    WorkerTaken(u, LSample);
    armed := p.Sample(u);
    t, moves := u.(worker := Waiting(u.target.Some?)), a + others + [Mine(LSample)];
    Then(Worker, s, a, q, d, others, u, LSample, t);
  }

  /** RetireExitedTarget, entered with g_Control just taken, and the look at the arm up to the wait. */
  method WatchTarget(p: Provider, exited: bool, ghost s: State)
    returns (armed: bool, target: Option<Process>, retired: Option<Process>, ghost t: State, ghost moves: seq<Move>)
    requires p.Represents(s) && Invariant(s) && s.worker == Watch && s.control == Free
    modifies p, p.contexts.Values
    ensures p.Represents(t) && t.worker == Waiting(armed) && armed == t.target.Some? && target == s.target
    ensures retired == target || retired == None
    ensures Ran(Worker, s, moves, t, WatchProgram(exited, target, retired))
    ensures fresh(p.contexts.Values - old(p.contexts.Values))
  {
    hide Provider.Represents, Provider.Allocated, Provider.Drops, Invariant, Ran, Meanwhile, Took, Stands, Enabled,
      Apply, PendingIo.Snapshot, PendingIo.Verdict, PendingIo.WorkerWait, PendingIo.WorkerTail, LetGo;
    WorkerTaken(s, LSnapshot);
    target := p.Snapshot(s);
    t, moves, retired := PendingIo.Snapshot(s), [Mine(LSnapshot)], None;
    TookFacts(Worker, s, LSnapshot, t);
    ghost var program := [LSnapshot];
    if target.Some? {
      retired, t, moves := ProbeTarget(p, exited, target.value, s, moves, program, t);
      program := program + [LVerdict(exited)] + (LetGo(retired) + LetGo(target));
    }
    armed, t, moves := SampleArm(p, s, moves, program, t);
  }

  /** The wait comes back: signalled, or after its interval if it was timed. */
  method WakeUp(p: Provider, timedOut: bool, ghost s: State) returns (ghost t: State)
    requires p.Represents(s) && Invariant(s) && s.worker.Waiting?
    requires if timedOut then s.worker.armed else s.workAvailable
    modifies p
    ensures p.Represents(t) && t.worker == Draining && p.contexts == old(p.contexts)
    ensures Ran(Worker, s, [Mine(LWait(timedOut))], t, [LWait(timedOut)])
  {
    hide *;
    WorkerTaken(s, LWait(timedOut));
    p.Wait(s, timedOut);
    t := WorkerWait(s, timedOut);
    TookFacts(Worker, s, LWait(timedOut), t);
  }

  /** FinishLogical in the worker, whose own reference keeps the context. */
  method FinishItem(p: Provider, c: Context, ghost s: State, ghost a: seq<Move>, ghost q: seq<Label>, ghost d: State)
    returns (ghost t: State, ghost moves: seq<Move>)
    requires p.Represents(d) && Ran(Worker, s, a, d, q) && Invariant(d) && p.Allocated(c)
    requires d.worker == Finishing(c.id) && Stands(Worker, d, c.id) && d.ops[c.id].stage == FinishSwap(InWorker)
    modifies p, p.contexts.Values
    ensures p.Represents(t) && t.worker == Dropping(c.id) && p.Allocated(c)
    ensures Ran(Worker, s, moves, t, q + [LSwap(c.id), LCount(c.id), LDropLogical(c.id), LFinished])
    ensures fresh(p.contexts.Values - old(p.contexts.Values))
  {
    hide Provider.Represents, Provider.Allocated, Provider.Drops, Invariant, Ran, Meanwhile, Took, Stands, Enabled,
      Apply, PendingIo.Snapshot, PendingIo.Verdict, PendingIo.WorkerWait, PendingIo.WorkerTail;
    ghost var i := c.id;
    StandsThere(Worker, d, i);
    ghost var u, others := Others(p, Worker, c, d);
    Back(Worker, d, others, u, i);
    ghost var last, v, rest := FinishLogical(p, Worker, c, u);
    ghost var program := [LSwap(i), LCount(i)] + [LDropLogical(i)];
    Continue(Worker, s, a, q, d, others, u, rest, program, v);
    WorkerTaken(v, LFinished);
    t := v.(worker := Dropping(i));
    p.Moved(v, Dropping(i));
    AtOnce(Worker, s, a + others + rest, q + program, v, LFinished, t);
    moves := a + others + rest + [Mine(LFinished)];
    assert q + program + [LFinished] == q + [LSwap(i), LCount(i), LDropLogical(i), LFinished];
  }

  /** The end of a work item: the worker's reference, and the context with it if it is the last. */
  function TailProgram(i: OperationId, last: bool): seq<Label> {
    DropProgram(LDropWorker, i, last) + (if last then [LFreed] else []) + [LTail]
  }

  /** The thread's last words on a work item. */
  method CloseItem(p: Provider, ghost s: State, ghost a: seq<Move>, ghost q: seq<Label>, ghost d: State)
    returns (ghost t: State, ghost moves: seq<Move>)
    requires p.Represents(d) && Ran(Worker, s, a, d, q) && Invariant(d) && d.worker == Tail
    modifies p, p.contexts.Values
    ensures p.Represents(t) && t.worker == Draining && Ran(Worker, s, moves, t, q + [LTail])
    ensures fresh(p.contexts.Values - old(p.contexts.Values))
  {
    hide *;
    ghost var u, others := Others(p, Worker, null, d);
    WorkerBack(d, others, u);
    WorkerTaken(u, LTail);
    p.WorkerTail(u);
    t, moves := PendingIo.WorkerTail(u), a + others + [Mine(LTail)];
    Then(Worker, s, a, q, d, others, u, LTail, t);
  }

  /** The worker's reference on its operation goes, and the operation with it if it was the last. */
  method LetItemGo(p: Provider, c: Context, ghost s: State, ghost a: seq<Move>, ghost q: seq<Label>, ghost d: State)
    returns (last: bool, ghost t: State, ghost moves: seq<Move>)
    requires p.Represents(d) && Ran(Worker, s, a, d, q) && Invariant(d) && p.Allocated(c) && d.worker == Dropping(c.id)
    modifies p, p.contexts.Values
    ensures p.Represents(t) && Invariant(t) && Ran(Worker, s, moves, t, q + DropProgram(LDropWorker, c.id, last))
    ensures if last then t.worker == Freeing(c.id) && c.id !in t.ops else t.worker == Tail
    ensures fresh(p.contexts.Values - old(p.contexts.Values))
  {
    hide Provider.Represents, Provider.Allocated, Provider.Drops, Invariant, Ran, Meanwhile, Took, Stands, Enabled,
      Apply, Dropped;
    ghost var i := c.id;
    ghost var u, others := Others(p, Worker, c, d);
    WorkerBack(d, others, u);
    DropWorkerTaken(u, i);
    p.DropWorkerDrops(u);
    ghost var rest;
    last, t, rest := DropReference(p, Worker, c, u, LDropWorker, DropWorker(u));
    Continue(Worker, s, a, q, d, others, u, rest, DropProgram(LDropWorker, i, last), t);
    moves := a + others + rest;
  }

  method EndItem(p: Provider, c: Context, ghost s: State, ghost a: seq<Move>, ghost q: seq<Label>, ghost d: State)
    returns (ghost last: bool, ghost t: State, ghost moves: seq<Move>)
    requires p.Represents(d) && Ran(Worker, s, a, d, q) && Invariant(d) && p.Allocated(c) && d.worker == Dropping(c.id)
    modifies p, p.contexts.Values
    ensures p.Represents(t) && t.worker == Draining
    ensures Ran(Worker, s, moves, t, q + TailProgram(c.id, last))
    ensures fresh(p.contexts.Values - old(p.contexts.Values))
  {
    hide Provider.Represents, Provider.Allocated, Invariant, Ran, Took, DropProgram, PendingIo.Snapshot,
      PendingIo.Verdict, PendingIo.WorkerWait, PendingIo.WorkerTail;
    ghost var i := c.id;
    var ended;
    ended, t, moves := LetItemGo(p, c, s, a, q, d);
    last := ended;
    ghost var program := q + DropProgram(LDropWorker, i, ended);
    if ended {
      WorkerTaken(t, LFreed);
      p.Moved(t, Tail);
      ghost var v := t.(worker := Tail);
      AtOnce(Worker, s, moves, program, t, LFreed, v);
      t, moves, program := v, moves + [Mine(LFreed)], program + [LFreed];
    }
    t, moves := CloseItem(p, s, moves, program, t);
    assert program + [LTail] == q + TailProgram(i, last);
  }

  /** The steps of a work item after it is taken. */
  function ItemProgram(i: OperationId, waited: bool, finish: bool, last: bool): seq<Label> {
    [LDecide(waited), LComplete]
    + (if finish then [LSwap(i), LCount(i), LDropLogical(i), LFinished] else [])
    + TailProgram(i, last)
  }

  lemma ItemPrograms(i: OperationId, waited: bool, finish: bool, last: bool, q: seq<Label>)
    ensures q + ItemProgram(i, waited, finish, last) ==
            if finish then
              q + [LDecide(waited)] + [LComplete] + [LSwap(i), LCount(i), LDropLogical(i), LFinished]
              + TailProgram(i, last)
            else q + [LDecide(waited)] + [LComplete] + TailProgram(i, last)
  {
    hide TailProgram;
  }

  /** Cancel or forward, complete the data, finish unless the post will, and let go of the operation. */
  method HandleItem(p: Provider, c: Context, post: bool, waited: bool, ghost s: State, ghost a: seq<Move>,
                    ghost q: seq<Label>, ghost d: State)
    returns (cancel: bool, ghost last: bool, ghost t: State, ghost moves: seq<Move>)
    requires p.Represents(d) && Ran(Worker, s, a, d, q) && Invariant(d) && p.Allocated(c)
    requires d.worker == Holding(c.id, post)
    modifies p, p.contexts.Values
    ensures p.Represents(t) && t.worker == Draining
    ensures Ran(Worker, s, moves, t, q + ItemProgram(c.id, waited, post || cancel, last))
    ensures fresh(p.contexts.Values - old(p.contexts.Values))
  {
    hide Provider.Represents, Provider.Allocated, Provider.Drops, Invariant, Ran, Meanwhile, Took, Stands, Enabled,
      Apply;
    ghost var i := c.id;
    ghost var u, others := Others(p, Worker, c, d);
    WorkerBack(d, others, u);
    DecideTaken(u, waited, i, post);
    cancel := p.Decide(u, c, post, waited);
    ghost var e := PendingIo.Decide(u, waited);
    Then(Worker, s, a, q, d, others, u, LDecide(waited), e);
    moves := a + others + [Mine(LDecide(waited))];
    last, t, moves := CompleteItem(p, c, post, cancel, s, moves, q + [LDecide(waited)], e);
    ItemPrograms(i, waited, post || cancel, last, q);
  }

  /** The work item from the completion of its data on. */
  method CompleteItem(p: Provider, c: Context, post: bool, cancel: bool, ghost s: State, ghost a: seq<Move>,
                      ghost q: seq<Label>, ghost d: State)
    returns (ghost last: bool, ghost t: State, ghost moves: seq<Move>)
    requires p.Represents(d) && Ran(Worker, s, a, d, q) && Invariant(d) && p.Allocated(c)
    requires d.worker == Completing(c.id, post, cancel)
    modifies p, p.contexts.Values
    ensures p.Represents(t) && t.worker == Draining
    ensures Ran(Worker, s, moves, t,
                if post || cancel then
                  q + [LComplete] + [LSwap(c.id), LCount(c.id), LDropLogical(c.id), LFinished] + TailProgram(c.id, last)
                else q + [LComplete] + TailProgram(c.id, last))
    ensures fresh(p.contexts.Values - old(p.contexts.Values))
  {
    hide Provider.Represents, Provider.Allocated, Provider.Drops, Invariant, Ran, Meanwhile, Took, Stands, Enabled,
      Apply;
    ghost var i := c.id;
    ghost var u, others := Others(p, Worker, c, d);
    WorkerBack(d, others, u);
    CompleteTaken(u, i, post, cancel);
    p.Completed(u, c);
    t := PendingIo.Complete(u);
    Then(Worker, s, a, q, d, others, u, LComplete, t);
    moves := a + others + [Mine(LComplete)];
    ghost var program := q + [LComplete];
    if post || cancel {
      t, moves := FinishItem(p, c, s, moves, program, t);
      program := program + [LSwap(i), LCount(i), LDropLogical(i), LFinished];
      RanInvariant(Worker, s, moves, t, program);
    }
    last, t, moves := EndItem(p, c, s, moves, program, t);
  }

  /** What one turn of the drain loop runs. */
  function Turn(s: State, waited: bool, finish: bool, last: bool): seq<Label> {
    if s.work == [] then [LPop] else [LPop] + ItemProgram(s.work[0], waited, finish, last)
  }

  /**
  One turn of the drain loop: an empty list ends it, for good if the driver is stopping; otherwise the oldest work
  item is taken and handled to its end. `waited` is how its wait ends.
  */
  method DrainStep(p: Provider, waited: bool, ghost s: State)
    returns (stop: bool, ghost finish: bool, ghost last: bool, ghost t: State, ghost moves: seq<Move>)
    requires p.Represents(s) && Invariant(s) && s.worker == Draining
    modifies p, p.contexts.Values
    ensures p.Represents(t) && Ran(Worker, s, moves, t, Turn(s, waited, finish, last))
    ensures stop <==> s.work == [] && s.stopping
    ensures t.worker == if s.work != [] then Draining else if s.stopping then Terminated else Watch
    ensures fresh(p.contexts.Values - old(p.contexts.Values))
  {
    hide Provider.Represents, Provider.Allocated, Provider.Drops, Invariant, Ran, Meanwhile, Took, Stands, Enabled,
      Apply;
    PopTaken(s);
    var c;
    c, stop := p.Pop(s);
    t, moves, finish, last := PendingIo.Pop(s), [Mine(LPop)], false, false;
    TookFacts(Worker, s, LPop, t);
    if c != null {
      var post := c.postWork;
      var cancel;
      cancel, last, t, moves := HandleItem(p, c, post, waited, s, moves, [LPop], t);
      finish := post || cancel;
    }
  }

  // ---------------------------------------------------------------------------------------------
  // The procedures that hold g_Control
  // ---------------------------------------------------------------------------------------------

  /** g_Control is still held for the same section, and the lease is as it was. */
  lemma HolderBack(s: State, others: seq<Move>, t: State)
    requires Invariant(s) && Meanwhile(Holder, s, others, t) && s.control != Free
    ensures Invariant(t) && t.control == s.control && t.owner == s.owner
  {
    hide Invariant, Trace, Program;
    HolderMeanwhile(s, others, t);
  }

  /** The thread let g_Control go in state `done`, after these own steps. */
  ghost predicate LetControlGo(s: State, first: seq<Move>, done: State, program: seq<Label>) {
    Ran(Holder, s, first, done, program) && done.control == Free
  }

  /** PendingIoStop up to the join: afterwards nobody owns the provider. */
  method StopDriver(p: Provider, ghost s: State)
    returns (retired: Option<Process>, released: Option<Process>, ghost first: seq<Move>, ghost done: State,
             ghost t: State, ghost moves: seq<Move>)
    requires p.Represents(s) && Invariant(s) && s.control == Free
    modifies p, p.contexts.Values
    ensures LetControlGo(s, first, done, [LStop, LStopRelease]) && done.owner == 0
    ensures p.Represents(t) && Ran(Holder, s, moves, t, [LStop, LStopRelease] + (LetGo(retired) + LetGo(released)))
    ensures fresh(p.contexts.Values - old(p.contexts.Values))
  {
    hide Provider.Represents, Invariant, Ran, Meanwhile, Took, Enabled, Apply, MessageStatus, ValidRequest,
      PendingIo.StopMark, PendingIo.StopRelease, PendingIo.DisconnectRelease, PendingIo.DisconnectRemove,
      PendingIo.ExitRelease, PendingIo.ExitSweep, PendingIo.MessageRelease, PendingIo.Reply, PendingIo.Message;
    HolderTaken(s, LStop);
    p.StopMark(s);
    ghost var d := PendingIo.StopMark(s);
    TookFacts(Holder, s, LStop, d);
    ghost var u, others := Others(p, Holder, null, d);
    HolderBack(d, others, u);
    HolderTaken(u, LStopRelease);
    retired, released := p.StopRelease(u);
    done, first := PendingIo.StopRelease(u), [Mine(LStop)] + others + [Mine(LStopRelease)];
    Then(Holder, s, [Mine(LStop)], [LStop], d, others, u, LStopRelease, done);
    assert [LStop] + [LStopRelease] == [LStop, LStopRelease];
    t, moves := DropBoth(p, Holder, retired, released, u.locals, s, first, [LStop, LStopRelease], done);
  }

  /** What a disconnection runs: the release and its references, then the removal. */
  function DisconnectProgram(id: ClientId, retired: Option<Process>, released: Option<Process>): seq<Label> {
    [LDisconnect(id)] + (LetGo(retired) + LetGo(released)) + [LDisconnectRemove]
  }

  /** A client's disconnection: its lease first, then its entry in the table. */
  method DisconnectClient(p: Provider, id: ClientId, ghost s: State)
    returns (retired: Option<Process>, released: Option<Process>, ghost t: State, ghost moves: seq<Move>)
    requires p.Represents(s) && Invariant(s) && s.control == Free && id != 0
    modifies p, p.contexts.Values
    ensures p.Represents(t) && Ran(Holder, s, moves, t, DisconnectProgram(id, retired, released))
    ensures t.control == Free && id !in t.clients
    ensures fresh(p.contexts.Values - old(p.contexts.Values))
  {
    hide Provider.Represents, Invariant, Ran, Meanwhile, Took, Enabled, Apply, MessageStatus, ValidRequest,
      PendingIo.StopMark, PendingIo.StopRelease, PendingIo.DisconnectRelease, PendingIo.DisconnectRemove,
      PendingIo.ExitRelease, PendingIo.ExitSweep, PendingIo.MessageRelease, PendingIo.Reply, PendingIo.Message;
    HolderTaken(s, LDisconnect(id));
    retired, released := p.DisconnectRelease(s, id);
    ghost var d := PendingIo.DisconnectRelease(s, id);
    TookFacts(Holder, s, LDisconnect(id), d);
    t, moves := DropBoth(p, Holder, retired, released, s.locals, s, [Mine(LDisconnect(id))], [LDisconnect(id)], d);
    ghost var v := t;
    ghost var u, others := Others(p, Holder, null, v);
    HolderBack(v, others, u);
    HolderTaken(u, LDisconnectRemove);
    p.DisconnectRemove(u, id);
    t := PendingIo.DisconnectRemove(u);
    Then(Holder, s, moves, [LDisconnect(id)] + (LetGo(retired) + LetGo(released)), v, others, u, LDisconnectRemove, t);
    moves := moves + others + [Mine(LDisconnectRemove)];
  }

  /** What a process exit runs up to the release of g_Control. */
  function ExitProgram(process: Process, retired: Option<Process>, released: Option<Process>): seq<Label> {
    [LExit(process)] + (LetGo(retired) + LetGo(released)) + [LExitSweep]
  }

  /** The sweep for a process that exits, by the thread that has released what the process owned. */
  method SweepExited(p: Provider, process: Process, ghost s: State, ghost a: seq<Move>, ghost q: seq<Label>,
                     ghost d: State)
    returns (target: Option<Process>, ghost done: State, ghost first: seq<Move>)
    requires p.Represents(d) && Ran(Holder, s, a, d, q) && Invariant(d) && d.control == Exiting(process)
    modifies p, p.contexts.Values
    ensures p.Represents(done) && Invariant(done) && LetControlGo(s, first, done, q + [LExitSweep])
    ensures done.target != Some(process) && done.ownerProcess != Some(process)
    ensures Bag(target) + multiset{} <= done.locals
    ensures fresh(p.contexts.Values - old(p.contexts.Values))
  {
    hide Provider.Represents, Invariant, Ran, Meanwhile, Took, Enabled, Apply, MessageStatus, ValidRequest, LetGo,
      PendingIo.StopMark, PendingIo.StopRelease, PendingIo.DisconnectRelease, PendingIo.DisconnectRemove,
      PendingIo.ExitRelease, PendingIo.ExitSweep, PendingIo.MessageRelease, PendingIo.Reply, PendingIo.Message;
    ghost var u, others := Others(p, Holder, null, d);
    HolderBack(d, others, u);
    HolderTaken(u, LExitSweep);
    ExitingOwner(u, process);
    target := p.ExitSweep(u, process);
    done, first := PendingIo.ExitSweep(u), a + others + [Mine(LExitSweep)];
    Then(Holder, s, a, q, d, others, u, LExitSweep, done);
    Among(u.locals, done.locals, target);
  }

  /** PendingIoProcessExit: afterwards the process neither owns the provider nor is its target. */
  method ProcessExit(p: Provider, process: Process, ghost s: State)
    returns (retired: Option<Process>, released: Option<Process>, target: Option<Process>, ghost first: seq<Move>,
             ghost done: State, ghost t: State, ghost moves: seq<Move>)
    requires p.Represents(s) && Invariant(s) && s.control == Free
    modifies p, p.contexts.Values
    ensures LetControlGo(s, first, done, ExitProgram(process, retired, released))
    ensures done.target != Some(process) && done.ownerProcess != Some(process)
    ensures p.Represents(t) && Ran(Holder, s, moves, t, ExitProgram(process, retired, released) + LetGo(target))
    ensures fresh(p.contexts.Values - old(p.contexts.Values))
  {
    hide Provider.Represents, Invariant, Ran, Meanwhile, Took, Enabled, Apply, MessageStatus, ValidRequest, LetGo,
      PendingIo.StopMark, PendingIo.StopRelease, PendingIo.DisconnectRelease, PendingIo.DisconnectRemove,
      PendingIo.ExitRelease, PendingIo.ExitSweep, PendingIo.MessageRelease, PendingIo.Reply, PendingIo.Message;
    HolderTaken(s, LExit(process));
    retired, released := p.ExitRelease(s, process);
    ghost var d := PendingIo.ExitRelease(s, process);
    TookFacts(Holder, s, LExit(process), d);
    t, moves := DropBoth(p, Holder, retired, released, s.locals, s, [Mine(LExit(process))], [LExit(process)], d);
    target, done, first := SweepExited(p, process, s, moves, [LExit(process)] + (LetGo(retired) + LetGo(released)), t);
    t, moves := DropLocal(p, Holder, target, multiset{}, s, first, ExitProgram(process, retired, released), done);
  }

  /** What an accepted control message runs after its checking section, up to the release of g_Control. */
  function AnswerProgram(action: Action, copied: bool, retired: Option<Process>,
                         released: Option<Process>): seq<Label> {
    if action.Release? then [LMessageRelease] + (LetGo(retired) + LetGo(released)) + [LReply(copied)]
    else [LReply(copied)]
  }

  /** The target of an arm that was refused is dropped at the end. */
  function Unused(answer: Status, action: Action): Option<Process> {
    if answer != Success && action.Arm? then Some(action.target) else None
  }

  lemma AnswerPrograms(action: Action, copied: bool, retired: Option<Process>, released: Option<Process>, l: Label)
    ensures [l] + AnswerProgram(action, copied, retired, released) ==
            if action.Release? then [l] + [LMessageRelease] + (LetGo(retired) + LetGo(released)) + [LReply(copied)]
            else [l] + [LReply(copied)]
  {
    hide LetGo;
  }

  lemma UnusedLocal(s: State, id: ClientId, caller: Process, action: Action)
    requires Sendable(s, id, action)
    ensures var answer := MessageStatus(s, id, caller, action);
            && (answer != Success ==> Bag(Unused(answer, action)) + multiset{} <= Message(s, id, caller, action).locals)
            && (answer == Success ==> Unused(answer, action) == None)
  {
    hide MessageStatus, WakeAll;
  }

  /**
  A control message, whose arm has looked up its target. A refused one takes no further section and drops the target; an
  accepted one is released if asked and answered last, and a lost reply releases the lease.
  */
  method HandleMessage(p: Provider, id: ClientId, caller: Process, action: Action, copied: bool, ghost s: State)
    returns (answer: Status, x: Option<Process>, y: Option<Process>, ghost retired: Option<Process>,
             ghost released: Option<Process>, ghost first: seq<Move>, ghost done: State, ghost t: State,
             ghost moves: seq<Move>)
    requires p.Represents(s) && Invariant(s) && Sendable(s, id, action)
    modifies p, p.contexts.Values
    ensures answer == MessageStatus(s, id, caller, action)
    ensures LetControlGo(s, first, done,
                         if answer == Success then
                           [LMessage(id, caller, action)] + AnswerProgram(action, copied, retired, released)
                         else [LMessage(id, caller, action)])
    ensures answer == Success && copied && !action.Release? ==> done.owner == if action.Arm? then id else s.owner
    ensures answer == Success && !copied ==> done.owner != id
    ensures answer == Success && action.Release? ==> done.owner == 0
    ensures answer != Success ==> done == s
    ensures p.Represents(t)
    ensures Ran(Holder, s, moves, t,
                if answer == Success then
                  [LMessage(id, caller, action)] + AnswerProgram(action, copied, retired, released)
                  + (LetGo(x) + LetGo(y))
                else [LMessage(id, caller, action)] + LetGo(Unused(answer, action)))
    ensures fresh(p.contexts.Values - old(p.contexts.Values))
  {
    hide Provider.Represents, Invariant, Ran, Meanwhile, Took, Enabled, Apply, MessageStatus, ValidRequest,
      PendingIo.StopMark, PendingIo.StopRelease, PendingIo.DisconnectRelease, PendingIo.DisconnectRemove,
      PendingIo.ExitRelease, PendingIo.ExitSweep, PendingIo.MessageRelease, PendingIo.Reply, PendingIo.Message, LetGo,
      Bag;
    ghost var l := LMessage(id, caller, action);
    MessageTaken(s, id, caller, action);
    UnusedLocal(s, id, caller, action);
    MessageOwner(s, id, caller, action);
    answer := p.Message(s, id, caller, action);
    done, first, x, y := PendingIo.Message(s, id, caller, action), [Mine(l)], None, None;
    retired, released := None, None;
    TookFacts(Holder, s, l, done);
    if answer == Success {
      ghost var program := [l];
      if action.Release? {
        var a, b;
        a, b, done, first := ReleaseMessage(p, id, s, first, program, done);
        retired, released := a, b;
        program := program + [LMessageRelease] + (LetGo(a) + LetGo(b));
      }
      ghost var u;
      x, y, u, done, first := AnswerMessage(p, id, copied, s, first, program, done);
      program := program + [LReply(copied)];
      AnswerPrograms(action, copied, retired, released, l);
      t, moves := DropBoth(p, Holder, x, y, u.locals, s, first, program, done);
    } else {
      var unused := if action.Arm? then Some(action.target) else None;
      t, moves := DropLocal(p, Holder, unused, multiset{}, s, first, [l], done);
    }
  }

  lemma ReplyOwner(s: State, id: ClientId, copied: bool)
    requires s.control == Replying(id)
    ensures PendingIo.Reply(s, copied).owner == if !copied && s.owner == id then 0 else s.owner
  {
  }

  lemma ReleasedOwner(s: State)
    requires s.control.MessageReleasing?
    ensures PendingIo.MessageRelease(s).owner == 0
  {
  }

  lemma MessageOwner(s: State, id: ClientId, caller: Process, action: Action)
    ensures var t := PendingIo.Message(s, id, caller, action);
            if MessageStatus(s, id, caller, action) != Success then t == s
            else t.owner == if action.Arm? then id else s.owner
  {
    hide WakeAll, Idle;
  }

  /** The release that a message asked for. */
  method ReleaseMessage(p: Provider, id: ClientId, ghost s: State, ghost a: seq<Move>, ghost q: seq<Label>,
                        ghost d: State)
    returns (retired: Option<Process>, released: Option<Process>, ghost t: State, ghost moves: seq<Move>)
    requires p.Represents(d) && Ran(Holder, s, a, d, q) && Invariant(d) && d.control == MessageReleasing(id)
    modifies p, p.contexts.Values
    ensures p.Represents(t) && Invariant(t) && t.control == Replying(id) && t.owner == 0
    ensures Ran(Holder, s, moves, t, q + [LMessageRelease] + (LetGo(retired) + LetGo(released)))
    ensures fresh(p.contexts.Values - old(p.contexts.Values))
  {
    hide Provider.Represents, Invariant, Ran, Meanwhile, Took, Enabled, Apply, MessageStatus, ValidRequest,
      PendingIo.StopMark, PendingIo.StopRelease, PendingIo.DisconnectRelease, PendingIo.DisconnectRemove,
      PendingIo.ExitRelease, PendingIo.ExitSweep, PendingIo.MessageRelease, PendingIo.Reply, PendingIo.Message;
    ghost var u, others := Others(p, Holder, null, d);
    HolderBack(d, others, u);
    HolderTaken(u, LMessageRelease);
    retired, released := p.MessageRelease(u);
    ghost var v := PendingIo.MessageRelease(u);
    ReleasedOwner(u);
    Then(Holder, s, a, q, d, others, u, LMessageRelease, v);
    t, moves := DropBoth(p, Holder, retired, released, u.locals, s, a + others + [Mine(LMessageRelease)],
                         q + [LMessageRelease], v);
  }

  /** The reply, which releases the lease if it is lost. */
  method AnswerMessage(p: Provider, id: ClientId, copied: bool, ghost s: State, ghost a: seq<Move>, ghost q: seq<Label>,
                       ghost d: State)
    returns (retired: Option<Process>, released: Option<Process>, ghost u: State, ghost t: State,
      ghost moves: seq<Move>)
    requires p.Represents(d) && Ran(Holder, s, a, d, q) && Invariant(d) && d.control == Replying(id)
    modifies p, p.contexts.Values
    ensures p.Represents(t) && Ran(Holder, s, moves, t, q + [LReply(copied)]) && Invariant(t) && t.control == Free
    ensures t.locals == u.locals + Bag(retired) + Bag(released)
    ensures t.owner == if !copied && d.owner == id then 0 else d.owner
    ensures fresh(p.contexts.Values - old(p.contexts.Values))
  {
    hide *;
    ghost var others;
    u, others := Others(p, Holder, null, d);
    HolderBack(d, others, u);
    HolderTaken(u, LReply(copied));
    retired, released := p.Reply(u, id, copied);
    ReplyOwner(u, id, copied);
    t, moves := PendingIo.Reply(u, copied), a + others + [Mine(LReply(copied))];
    Then(Holder, s, a, q, d, others, u, LReply(copied), t);
  }

  // ---------------------------------------------------------------------------------------------
  // Instances
  // ---------------------------------------------------------------------------------------------

  /** The end of instance setup: an instance is published unless the driver is stopping; a retired target is dropped. */
  method InstanceSetup(p: Provider, i: InstanceId, lower: bool, ghost s: State)
    returns (accepted: bool, retired: Option<Process>, ghost t: State, ghost moves: seq<Move>)
    requires p.Represents(s) && Invariant(s) && i !in s.instances
    modifies p, p.contexts.Values
    ensures p.Represents(t) && Ran(Visitor, s, moves, t, [LSetup(i, lower)] + LetGo(retired))
    ensures accepted == !s.stopping && (!accepted ==> retired == None)
    ensures fresh(p.contexts.Values - old(p.contexts.Values))
  {
    hide *;
    InstanceTaken(s, i, lower);
    accepted, retired := p.SetupInstance(s, i, lower);
    ghost var d := PendingIo.SetupInstance(s, i, lower);
    TookFacts(Visitor, s, LSetup(i, lower), d);
    Among(s.locals, d.locals, retired);
    t, moves := DropLocal(p, Visitor, retired, multiset{}, s, [Mine(LSetup(i, lower))], [LSetup(i, lower)], d);
  }

  /** The start of an instance's teardown: a retired target is dropped. */
  method InstanceTeardown(p: Provider, i: InstanceId, ghost s: State)
    returns (retired: Option<Process>, ghost t: State, ghost moves: seq<Move>)
    requires p.Represents(s) && Invariant(s) && i in s.instances
    modifies p, p.contexts.Values
    ensures p.Represents(t) && Ran(Visitor, s, moves, t, [LTeardown(i)] + LetGo(retired)) && retired == s.target
    ensures fresh(p.contexts.Values - old(p.contexts.Values))
  {
    hide *;
    InstanceTaken(s, i, false);
    retired := p.TeardownInstance(s, i);
    ghost var d := PendingIo.TeardownInstance(s, i);
    TookFacts(Visitor, s, LTeardown(i), d);
    Among(s.locals, d.locals, retired);
    t, moves := DropLocal(p, Visitor, retired, multiset{}, s, [Mine(LTeardown(i))], [LTeardown(i)], d);
  }

  // ---------------------------------------------------------------------------------------------
  // The join
  // ---------------------------------------------------------------------------------------------

  /** The steps of a program that are not drops of process references. */
  function Sections(program: seq<Label>): nat {
    if program == [] then 0 else (if program[0].LDereference? then 0 else 1) + Sections(program[1..])
  }

  lemma {:induction false} SectionsJoin(a: seq<Label>, b: seq<Label>)
    ensures Sections(a + b) == Sections(a) + Sections(b)
  {
    if a == [] {
      assert a + b == b;
    } else {
      SectionsJoin(a[1..], b);
      assert (a + b)[1..] == a[1..] + b;
    }
  }

  lemma FirstSection(moves: seq<Move>)
    requires moves != []
    ensures Sections(Program(moves)) ==
            Sections(Program(moves[1..])) + if moves[0].Mine? && !moves[0].step.LDereference? then 1 else 0
  {
    if moves[0].Mine? {
      assert Program(moves)[1..] == Program(moves[1..]);
    }
  }

  /** Once the driver is stopping, each section of the worker lowers the bound and no other step raises it. */
  lemma {:induction false} TraceRemaining(s: State, moves: seq<Move>, t: State)
    requires Invariant(s) && s.stopping && Trace(Worker, s, moves, t)
    ensures Invariant(t) && t.stopping
    ensures Sections(Program(moves)) + PendingIoDrain.Remaining(t) <= PendingIoDrain.Remaining(s)
    decreases |moves|
  {
    hide Invariant, Enabled, Apply, ByWorker, Program, Sections, PendingIoDrain.Remaining, PendingIoDrain.Calm;
    if moves == [] {
      NoProgram();
    } else {
      var l := moves[0].step;
      var u := Apply(s, l);
      FirstSection(moves);
      PendingIoDrain.StoppingStep(s, l);
      NotByWorker(s, l);
      if moves[0].Mine? && !l.LDereference? {
        PendingIoDrain.WorkerDecreases(s, l);
      } else {
        PendingIoDrain.OthersCalm(s, l);
        PendingIoDrain.CalmRemains(s, u);
      }
      TraceRemaining(u, moves[1..], t);
    }
  }

  lemma TurnCounts(s: State, waited: bool, finish: bool, last: bool)
    ensures Sections(Turn(s, waited, finish, last)) > 0
  {
    hide ItemProgram;
    assert Turn(s, waited, finish, last)[0] == LPop;
  }

  lemma NotByWorker(s: State, l: Label)
    ensures l.LDereference? ==> !ByWorker(s, l)
  {
  }

  lemma NoProgram()
    ensures Program([]) == [] && Sections([]) == 0
  {
  }

  lemma RanRemaining(s: State, moves: seq<Move>, t: State, program: seq<Label>)
    requires Invariant(s) && s.stopping && Ran(Worker, s, moves, t, program)
    ensures Invariant(t) && t.stopping
    ensures Sections(program) + PendingIoDrain.Remaining(t) <= PendingIoDrain.Remaining(s)
  {
    hide Invariant, Trace, Program, PendingIoDrain.Remaining;
    TraceRemaining(s, moves, t);
  }

  /**
  The drain loop of a stopping driver ends, whatever the other threads do between its sections: it handles every work
  item that is left and then terminates the thread that PendingIoStop joins.
  */
  method DrainStopped(p: Provider, ghost s: State)
    returns (ghost t: State, ghost moves: seq<Move>, ghost program: seq<Label>)
    requires p.Represents(s) && Invariant(s) && s.stopping && s.worker == Draining
    modifies p, p.contexts.Values
    ensures p.Represents(t) && Ran(Worker, s, moves, t, program)
    ensures t.worker == Terminated && t.work == []
    ensures Sections(program) + PendingIoDrain.Remaining(t) <= PendingIoDrain.Remaining(s)
    ensures fresh(p.contexts.Values - old(p.contexts.Values))
  {
    hide Provider.Represents, Provider.Allocated, Provider.Drops, Invariant, Ran, Meanwhile, Took, Stands, Enabled,
      Apply;
    t, moves, program := s, [], [];
    Nothing(Worker, s);
    NoProgram();
    var stop := false;
    while !stop
      invariant p.Represents(t) && Ran(Worker, s, moves, t, program) && Invariant(t) && t.stopping
      invariant t.worker == if stop then Terminated else Draining
      invariant Sections(program) + PendingIoDrain.Remaining(t) <= PendingIoDrain.Remaining(s)
      invariant fresh(p.contexts.Values - old(p.contexts.Values))
      decreases PendingIoDrain.Remaining(t)
    {
      ghost var u, others := Others(p, Worker, null, t);
      WorkerBack(t, others, u);
      Still(t, others, u);
      var waited := *;
      ghost var finish, last, v, rest;
      stop, finish, last, v, rest := DrainStep(p, waited, u);
      ghost var turn := Turn(u, waited, finish, last);
      RanRemaining(u, rest, v, turn);
      Continue(Worker, s, moves, program, t, others, u, rest, turn, v);
      SectionsJoin(program, turn);
      TurnCounts(u, waited, finish, last);
      t, moves, program := v, moves + others + rest, program + turn;
    }
    Over(t);
  }

  lemma Still(s: State, others: seq<Move>, t: State)
    requires Invariant(s) && s.stopping && Meanwhile(Worker, s, others, t)
    ensures Invariant(t) && t.stopping && PendingIoDrain.Remaining(t) <= PendingIoDrain.Remaining(s)
  {
    hide Ran, Invariant, PendingIoDrain.Remaining;
    RanRemaining(s, others, t, []);
  }

  lemma Over(t: State)
    requires Invariant(t) && t.worker == Terminated
    ensures t.work == []
  {
    hide PendingIoInvariant.Lists, WorkerFits, Operations, ArmFits, LeaseFits, WatchFits, Balanced, Bounded, Referenced,
      Ticketed, Claimed;
  }

  // ---------------------------------------------------------------------------------------------
  // The whole worker of a stopping driver
  // ---------------------------------------------------------------------------------------------

  /** A section of the thread that holds g_Control, as the worker sees it. */
  lemma HolderRan(s: State, l: Label, t: State)
    requires Took(Holder, s, l, t)
    requires l.LDisconnectRemove? || l.LExitSweep? || l.LStopRelease? || l.LMessageRelease? || l.LReply?
    ensures Meanwhile(Worker, s, [Other(l)], t) && Invariant(t)
  {
    hide Invariant, Enabled, Apply;
    var moves := [Other(l)];
    assert moves[1..] == [];
    assert Trace(Worker, t, moves[1..], t);
    assert Program(moves) == Program(moves[1..]);
  }

  lemma MeanwhileJoin(me: Thread, s: State, a: seq<Move>, u: State, b: seq<Move>, t: State)
    requires Meanwhile(me, s, a, u) && Meanwhile(me, u, b, t)
    ensures Meanwhile(me, s, a + b, t)
  {
    hide Ran;
    JoinOthers(me, s, a, [], u, b, t);
  }

  lemma NotWatching(s: State)
    requires Invariant(s) && s.worker == Watch
    ensures s.control != WorkerWatch
  {
    hide PendingIoInvariant.Lists, WorkerFits, Operations, ArmFits, LeaseFits, EventFits, Balanced, Bounded, Referenced,
      Ticketed, Claimed;
  }

  /** The sections that are left to the holder. */
  function After(holder: Control): Control {
    match holder
    case MessageReleasing(id) => Replying(id)
    case _ => Free
  }

  /** The next section of the thread that holds g_Control, with no other thread in between. */
  method LetHolderRun(p: Provider, holder: Control, ghost s: State) returns (ghost t: State, ghost others: seq<Move>)
    requires p.Represents(s) && Invariant(s) && s.control == holder && holder != Free && holder != WorkerWatch
    modifies p, p.contexts.Values
    ensures p.Represents(t) && Meanwhile(Worker, s, others, t) && Invariant(t) && t.control == After(holder)
    ensures fresh(p.contexts.Values - old(p.contexts.Values))
  {
    hide Provider.Represents, Invariant, Ran, Meanwhile, Took, Enabled, Apply, MessageStatus, ValidRequest,
      PendingIo.StopMark, PendingIo.StopRelease, PendingIo.DisconnectRelease, PendingIo.DisconnectRemove,
      PendingIo.ExitRelease, PendingIo.ExitSweep, PendingIo.MessageRelease, PendingIo.Reply, PendingIo.Message;
    ghost var l;
    if holder.Disconnecting? {
      HolderTaken(s, LDisconnectRemove);
      p.DisconnectRemove(s, holder.client);
      l, t := LDisconnectRemove, PendingIo.DisconnectRemove(s);
    } else if holder.Exiting? {
      HolderTaken(s, LExitSweep);
      var _ := p.ExitSweep(s, holder.process);
      l, t := LExitSweep, PendingIo.ExitSweep(s);
    } else if holder.MessageReleasing? {
      HolderTaken(s, LMessageRelease);
      var _, _ := p.MessageRelease(s);
      l, t := LMessageRelease, PendingIo.MessageRelease(s);
    } else if holder.Replying? {
      HolderTaken(s, LReply(true));
      var _, _ := p.Reply(s, holder.client, true);
      l, t := LReply(true), PendingIo.Reply(s, true);
    } else {
      HolderTaken(s, LStopRelease);
      var _, _ := p.StopRelease(s);
      l, t := LStopRelease, PendingIo.StopRelease(s);
    }
    HolderRan(s, l, t);
    others := [Other(l)];
  }

  /**
  KeWaitForSingleObject on g_Control, on the schedules in which whoever holds it runs on until it lets it go and nobody
  else takes it before the worker.
  */
  method WaitForControl(p: Provider, holder: Control, ghost s: State) returns (ghost t: State, ghost others: seq<Move>)
    requires p.Represents(s) && Invariant(s) && s.control == holder && s.worker == Watch
    modifies p, p.contexts.Values
    ensures p.Represents(t) && Meanwhile(Worker, s, others, t) && t.control == Free
    ensures fresh(p.contexts.Values - old(p.contexts.Values))
  {
    hide Provider.Represents, Provider.Allocated, Provider.Drops, Invariant, Ran, Meanwhile, Took, Stands, Enabled,
      Apply;
    t, others := s, [];
    Quiet(Worker, s);
    var left := holder;
    while left != Free
      invariant p.Represents(t) && Meanwhile(Worker, s, others, t) && Invariant(t)
      invariant t.control == left && t.worker == Watch
      invariant fresh(p.contexts.Values - old(p.contexts.Values))
      decreases HolderLeft(left)
    {
      NotWatching(t);
      ghost var u, more := LetHolderRun(p, left, t);
      WorkerBack(t, more, u);
      MeanwhileJoin(Worker, s, others, t, more, u);
      t, others, left := u, others + more, After(left);
    }
  }

  /** The worker of a stopping driver never waits long: its event is set. */
  lemma Signalled(s: State)
    requires Invariant(s) && s.stopping && s.worker.Waiting?
    ensures s.workAvailable
  {
    hide PendingIoInvariant.Lists, WorkerFits, Operations, ArmFits, LeaseFits, WatchFits, Balanced, Bounded, Referenced,
      Ticketed, Claimed;
  }

  /**
  The worker of a stopping driver from the head of its loop to its end: it waits for g_Control, looks at the arm, is
  signalled, and drains what is left. Up to the wait's end the schedule is that of `WaitForControl`; afterwards other
  threads do whatever they may between any two sections.
  */
  method RunStopped(p: Provider, holder: Control, exited: bool, ghost s: State)
    returns (ghost t: State, ghost moves: seq<Move>, ghost program: seq<Label>)
    requires p.Represents(s) && Invariant(s) && s.stopping && s.worker == Watch && s.control == holder
    modifies p, p.contexts.Values
    ensures p.Represents(t) && Ran(Worker, s, moves, t, program) && t.worker == Terminated && t.work == []
    ensures Sections(program) + PendingIoDrain.Remaining(t) <= PendingIoDrain.Remaining(s)
    ensures fresh(p.contexts.Values - old(p.contexts.Values))
  {
    hide *;
    Nothing(Worker, s);
    ghost var u, others := WaitForControl(p, holder, s);
    WorkerBack(s, others, u);
    var armed, target, retired;
    ghost var v, watch;
    armed, target, retired, v, watch := WatchTarget(p, exited, u);
    ghost var q := WatchProgram(exited, target, retired);
    Continue(Worker, s, [], [], s, others, u, watch, q, v);
    moves, program := [] + others + watch, [] + q;
    RanRemaining(s, moves, v, program);
    ghost var w, more := Others(p, Worker, null, v);
    WorkerBack(v, more, w);
    Still(v, more, w);
    Signalled(w);
    ghost var x := WakeUp(p, false, w);
    Continue(Worker, s, moves, program, v, more, w, [Mine(LWait(false))], [LWait(false)], x);
    moves, program := moves + more + [Mine(LWait(false))], program + [LWait(false)];
    RanRemaining(s, moves, x, program);
    ghost var drain, turns;
    t, drain, turns := DrainStopped(p, x);
    Join(Worker, s, moves, x, drain, t, program, turns);
    moves, program := moves + drain, program + turns;
    RanRemaining(s, moves, t, program);
  }

  /** The same, under the same assumption on the schedule, for a worker that has just been created. */
  method StartStopped(p: Provider, holder: Control, exited: bool, ghost s: State)
    returns (ghost t: State, ghost moves: seq<Move>, ghost program: seq<Label>)
    requires p.Represents(s) && Invariant(s) && s.stopping && s.worker == Starting && s.control == holder
    modifies p, p.contexts.Values
    ensures p.Represents(t) && Ran(Worker, s, moves, t, program) && t.worker == Terminated && t.work == []
    ensures Sections(program) + PendingIoDrain.Remaining(t) <= PendingIoDrain.Remaining(s)
    ensures fresh(p.contexts.Values - old(p.contexts.Values))
  {
    hide *;
    WorkerTaken(s, LStart);
    ghost var d := s.(worker := Watch);
    p.Moved(s, Watch);
    TookFacts(Worker, s, LStart, d);
    RanRemaining(s, [Mine(LStart)], d, [LStart]);
    t, moves, program := RunStopped(p, holder, exited, d);
    Join(Worker, s, [Mine(LStart)], d, moves, t, [LStart], program);
    moves, program := [Mine(LStart)] + moves, [LStart] + program;
    RanRemaining(s, moves, t, program);
  }
}
