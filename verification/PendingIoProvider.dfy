/**
The provider as the driver holds it: one context per operation, two lists, and globals updated in place.
Each method is one g_Lock section or one interlocked operation. `Represents(s)` ties the whole heap to protocol
state `s`; each method takes the state it starts from as a ghost argument and leaves the heap representing the
state that the protocol action of the same name leads to.
*/
module PendingIoProvider {

  import opened Options
  import opened PendingIo

  /** An operation context in nonpaged pool. Where its shares stand is recorded in the model only. */
  class Context {
    // The name of the operation in the protocol.
    ghost const id: OperationId
    const instance: InstanceId
    const lower: bool
    const file: FileId
    const target: Process
    const preIdentity: DataId
    const generation: nat
    const owner: ClientId
    const mode: Mode
    const read: bool
    var references: int
    var logicalReleased: bool
    var data: Option<DataId>
    var wakeReason: nat
    var resume: bool
    var lowerClaimed: bool
    var postWork: bool
    var mdl: bool

    ghost predicate Is(o: Operation)
      reads this
    {
      && references == o.references && logicalReleased == o.logicalReleased && data == o.data
      && wakeReason == o.wakeReason && resume == o.resume && lowerClaimed == o.lowerClaimed
      && postWork == o.postWork && mdl == o.mdl && SameConstants(o)
    }

    ghost predicate SameConstants(o: Operation) {
      && instance == o.instance && lower == o.lower && file == o.file && target == o.target
      && preIdentity == o.preIdentity && generation == o.generation && owner == o.owner
      && mode == o.mode && read == o.read
    }

    constructor (ghost id: OperationId, instance: InstanceId, lower: bool, file: FileId, target: Process, data: DataId,
                 generation: nat, owner: ClientId, mode: Mode, read: bool)
      ensures this.id == id
      ensures Is(NewOperation(instance, lower, file, target, data, generation, owner, mode, read))
    {
      this.id, this.instance, this.lower, this.file := id, instance, lower, file;
      this.target, this.preIdentity, this.generation, this.owner := target, data, generation, owner;
      this.mode, this.read := mode, read;
      references, logicalReleased, this.data, wakeReason := 1, false, None, 0;
      resume, lowerClaimed, postWork, mdl := false, false, false, false;
    }

    /** Signals the worker; a weaker reason never replaces a stronger one. */
    method Wake(reason: nat)
      modifies this`wakeReason, this`resume
      ensures wakeReason == (if reason > old(wakeReason) then reason else old(wakeReason)) && resume
    {
      if reason > wakeReason {
        wakeReason := reason;
      }
      resume := true;
    }

    lemma Reads(o: Operation)
      requires Is(o)
      ensures mode == o.mode && postWork == o.postWork && data == o.data
      ensures generation == o.generation && owner == o.owner
    {
    }

    /** The worker gets a reference of its own; a post starts with a clear event and no reason. */
    method Hand(ghost o: Operation, post: bool)
      requires Is(o)
      modifies this`references, this`data, this`postWork, this`wakeReason, this`resume
      ensures Is(Handed(o, post))
    {
      references := references + 1;
      data := Some(preIdentity);
      postWork := post;
      if post {
        wakeReason := 0;
        resume := false;
      }
    }

    method Pin(ghost o: Operation)
      requires Is(o)
      modifies this`mdl
      ensures Is(o.(mdl := true))
    {
      mdl := true;
    }

    /** The test and the wake-up of one listed operation in a sweep. */
    method Visit(sweep: Sweep, reason: nat, ghost o: Operation)
      requires Is(o) && o.life != Unlinked
      modifies this`wakeReason, this`resume
      ensures Is(Woken(o, sweep, reason))
    {
      var hit := match sweep
        case OwnedBy(c) => owner == c
        case Targeting(p) => target == p
        case Inside(i) => instance == i
        case Everything => true;
      assert hit == Hit(sweep, o);
      hide Hit;
      if hit {
        Wake(reason);
      }
    }
  }

  /** The two operations agree but for the position of their share holder. */
  ghost predicate Same(o: Operation, p: Operation) {
    o == p.(stage := o.stage, life := o.life)
  }

  function Handed(o: Operation, post: bool): Operation {
    o.(references := o.references + 1, data := Some(o.preIdentity), postWork := post,
       wakeReason := if post then 0 else o.wakeReason, resume := if post then false else o.resume)
  }

  function QueuedLedger(l: Ledger, post: bool): Ledger {
    l.(queueDepth := l.queueDepth + 1,
       preQueued := if post then l.preQueued else l.preQueued + 1,
       postQueued := if post then l.postQueued + 1 else l.postQueued)
  }

  function Decided(l: Ledger, post: bool, missing: bool, cancel: bool): Ledger {
    l.(violations := if missing then l.violations + 1 else l.violations,
       postCompleted := if post then l.postCompleted + 1 else l.postCompleted,
       preCompleted := if post then l.preCompleted else l.preCompleted + 1,
       preCancelled := if !post && cancel then l.preCancelled + 1 else l.preCancelled)
  }

  function Woken(o: Operation, sweep: Sweep, reason: nat): Operation {
    if Hit(sweep, o) then Wake(o, reason) else o
  }

  /** The list holds the contexts with these identifiers, in this order. */
  ghost predicate Lists(q: seq<Context>, ids: seq<OperationId>) {
    |q| == |ids| && forall k | 0 <= k < |q| :: q[k].id == ids[k]
  }

  ghost predicate Distinct(q: seq<Context>) {
    forall j, k | 0 <= j < k < |q| :: q[j] != q[k]
  }

  class Provider {
    var operations: seq<Context>
    var work: seq<Context>
    var workAvailable: bool
    var stopping: bool
    var clients: map<ClientId, Process>
    var nextClient: nat
    var owner: ClientId
    var ownerProcess: Option<Process>
    var target: Option<Process>
    var armedMode: Mode
    var armedRemaining: int
    var armedGeneration: nat
    var topologyGeneration: nat
    var instances: map<InstanceId, Instance>
    var status: Ledger
    // The contexts that are allocated, listed or not.
    ghost var contexts: map<OperationId, Context>
    // The references on process objects that the driver holds.
    ghost var processReferences: multiset<Process>

    ghost predicate Allocated(c: Context)
      reads `contexts
    {
      c.id in contexts && contexts[c.id] == c
    }

    ghost predicate AllAllocated(q: seq<Context>)
      reads `contexts
    {
      forall k | 0 <= k < |q| :: Allocated(q[k])
    }

    ghost predicate Exactly(q: seq<Context>, ops: map<OperationId, Operation>)
      reads `contexts
    {
      && ops.Keys == contexts.Keys
      && (forall i | i in contexts :: contexts[i].id == i)
      && (forall i | i in contexts :: contexts[i] in q <==> ops[i].life != Unlinked)
    }

    /** The list holds allocated contexts in the state's order, each once, and exactly the linked ones. */
    ghost predicate IsListing(q: seq<Context>, s: State)
      reads `contexts
    {
      Exactly(q, s.ops) && AllAllocated(q) && Distinct(q) && Lists(q, s.order)
    }

    ghost predicate Listing(s: State)
      reads `contexts, `operations
    {
      IsListing(operations, s)
    }

    /** g_Work holds the allocated contexts with these names, in this order. */
    ghost predicate Working(ids: seq<OperationId>)
      reads `contexts, `work
    {
      AllAllocated(work) && Lists(work, ids)
    }

    ghost predicate Shape(s: State)
      reads `contexts, `operations, `work
    {
      Listing(s) && Working(s.work)
    }

    ghost predicate Matched(ops: map<OperationId, Operation>)
      reads `contexts, contexts.Values
    {
      forall i | i in contexts :: i in ops && contexts[i].Is(ops[i])
    }

    ghost predicate Globals(s: State)
      reads `stopping, `clients, `nextClient, `owner, `ownerProcess, `target, `armedMode,
        `armedRemaining, `armedGeneration, `topologyGeneration, `instances, `processReferences
    {
      && stopping == s.stopping && clients == s.clients && nextClient == s.nextClient
      && owner == s.owner && ownerProcess == s.ownerProcess
      && target == s.target && armedMode == s.armedMode && armedRemaining == s.armedRemaining
      && armedGeneration == s.armedGeneration && topologyGeneration == s.topologyGeneration
      && instances == s.instances && processReferences == s.references
    }

    ghost predicate Represents(s: State)
      reads this, contexts.Values
    {
      Shape(s) && Matched(s.ops) && Globals(s) && status == s.ledger && workAvailable == s.workAvailable
    }

    /** The state of PendingIoInitialize. */
    constructor ()
      ensures Represents(Initial())
    {
      operations, work, workAvailable, stopping := [], [], false, false;
      clients, nextClient, owner, ownerProcess, target := map[], 0, 0, None, None;
      armedMode, armedRemaining, armedGeneration, topologyGeneration := NoMode, 0, 0, 0;
      instances := map[];
      status := Initial().ledger;
      contexts := map[];
      processReferences := multiset{};
    }

    // -------------------------------------------------------------------------------------------
    // Process references
    // -------------------------------------------------------------------------------------------

    /** ObReferenceObject. */
    ghost method Reference(s: State, p: Process)
      requires Represents(s)
      modifies this`processReferences
      ensures Represents(s.(references := s.references + multiset{p}))
    {
      hide Shape, Matched;
      processReferences := processReferences + multiset{p};
      SameShape(s, s.(references := s.references + multiset{p}));
    }

    /** ObDereferenceObject on a reference that a local of the caller holds. */
    ghost method Dereference(s: State, p: Process)
      requires Represents(s)
      modifies this`processReferences
      ensures Represents(PendingIo.Dereference(s, p))
    {
      hide Shape, Matched;
      processReferences := processReferences - multiset{p};
      SameShape(s, PendingIo.Dereference(s, p));
    }

    // -------------------------------------------------------------------------------------------
    // Sweeps, disarming and the lease
    // -------------------------------------------------------------------------------------------

    /** The sweep over g_Operations that every cancellation runs under g_Lock. */
    method WakeListed(ghost s: State, sweep: Sweep, reason: nat)
      requires Shape(s) && Matched(s.ops)
      modifies contexts.Values`wakeReason, contexts.Values`resume
      ensures Shape(s.(ops := WakeAll(s.ops, sweep, reason)))
      ensures Matched(WakeAll(s.ops, sweep, reason))
    {
      WakeEach(s, sweep, reason);
      WokenShape(s, sweep, reason);
      WokenMatched(s, sweep, reason);
    }

    lemma WokenShape(s: State, sweep: Sweep, reason: nat)
      requires Shape(s)
      ensures Shape(s.(ops := WakeAll(s.ops, sweep, reason)))
    {
    }

    lemma WokenMatched(s: State, sweep: Sweep, reason: nat)
      requires Shape(s)
      requires forall k | 0 <= k < |operations| ::
                 operations[k].id in s.ops && operations[k].Is(Woken(s.ops[operations[k].id], sweep, reason))
      requires forall i | i in contexts && i in s.ops && s.ops[i].life == Unlinked :: contexts[i].Is(s.ops[i])
      ensures Matched(WakeAll(s.ops, sweep, reason))
    {
      forall i | i in contexts ensures contexts[i].Is(WakeAll(s.ops, sweep, reason)[i]) {
        if s.ops[i].life != Unlinked {
          assert contexts[i] in operations;
        }
      }
    }

    method WakeEach(ghost s: State, sweep: Sweep, reason: nat)
      requires Shape(s) && Matched(s.ops)
      modifies contexts.Values`wakeReason, contexts.Values`resume
      ensures forall k | 0 <= k < |operations| ::
                operations[k].id in s.ops && operations[k].Is(Woken(s.ops[operations[k].id], sweep, reason))
      ensures forall i | i in contexts && i in s.ops && s.ops[i].life == Unlinked :: contexts[i].Is(s.ops[i])
    {
      hide Woken, Context.Is;
      var k := 0;
      while k < |operations|
        invariant 0 <= k <= |operations|
        invariant forall j | 0 <= j < k :: operations[j].Is(Woken(s.ops[operations[j].id], sweep, reason))
        invariant forall j | k <= j < |operations| :: operations[j].Is(s.ops[operations[j].id])
        invariant forall i | i in contexts && s.ops[i].life == Unlinked :: contexts[i].Is(s.ops[i])
      {
        operations[k].Visit(sweep, reason, s.ops[operations[k].id]);
        k := k + 1;
      }
    }

    method Disarm(ghost s: State) returns (retired: Option<Process>)
      requires Globals(s)
      modifies this`target, this`armedMode, this`armedRemaining, this`armedGeneration
      ensures Globals(PendingIo.Disarm(s)) && retired == s.target
    {
      retired := target;
      target := None;
      armedMode, armedRemaining, armedGeneration := NoMode, 0, 0;
    }

    method ChangeTopology(ghost s: State) returns (retired: Option<Process>)
      requires Globals(s)
      modifies this`target, this`armedMode, this`armedRemaining, this`armedGeneration, this`topologyGeneration
      ensures Globals(PendingIo.ChangeTopology(s)) && retired == s.target
    {
      topologyGeneration := topologyGeneration + 1;
      retired := Disarm(s.(topologyGeneration := s.topologyGeneration + 1));
    }

    lemma SameShape(s: State, t: State)
      requires Shape(s) && t.ops == s.ops && t.order == s.order && t.work == s.work
      ensures Shape(t)
    {
    }

    lemma ReleasedLists(s: State)
      requires var ops := WakeAll(s.ops, OwnedBy(s.owner), 2); Shape(s.(ops := ops)) && Matched(ops)
      ensures Shape(PendingIo.ReleaseOwner(s)) && Matched(PendingIo.ReleaseOwner(s).ops)
      ensures PendingIo.ReleaseOwner(s).ledger == s.ledger && PendingIo.ReleaseOwner(s).workAvailable == s.workAvailable
    {
      hide Shape, Matched, WakeAll;
      SameShape(s.(ops := WakeAll(s.ops, OwnedBy(s.owner), 2)), PendingIo.ReleaseOwner(s));
    }

    method Disown(ghost s: State) returns (released: Option<Process>)
      requires Globals(PendingIo.Disarm(s))
      modifies this`ownerProcess, this`owner
      ensures Globals(PendingIo.ReleaseOwner(s)) && released == s.ownerProcess
    {
      hide WakeAll;
      released := ownerProcess;
      ownerProcess := None;
      owner := 0;
    }

    lemma Seen(s: State)
      requires Globals(s)
      ensures owner == s.owner && ownerProcess == s.ownerProcess && target == s.target && stopping == s.stopping
      ensures armedMode == s.armedMode && clients == s.clients && instances == s.instances
    {
    }

    method ReleaseOwner(ghost s: State) returns (retired: Option<Process>, released: Option<Process>)
      requires Represents(s)
      modifies this`target, this`armedMode, this`armedRemaining, this`armedGeneration, this`ownerProcess, this`owner,
        contexts.Values`wakeReason, contexts.Values`resume
      ensures Represents(PendingIo.ReleaseOwner(s)) && retired == s.target && released == s.ownerProcess
    {
      hide Shape, Matched, Globals, WakeAll, PendingIo.Disarm, PendingIo.ReleaseOwner;
      Seen(s);
      retired := Disarm(s);
      WakeListed(s, OwnedBy(owner), 2);
      ReleasedLists(s);
      released := Disown(s);
    }

    // -------------------------------------------------------------------------------------------
    // Control: clients, lease and exit
    // -------------------------------------------------------------------------------------------

    /** The two states differ in the ledger, in history and in thread positions only. */
    ghost predicate Alike(s: State, t: State) {
      t.ops == s.ops && t.order == s.order && t.work == s.work && t.workAvailable == s.workAvailable
        && SameControl(s, t)
    }

    lemma Unseen(s: State, t: State)
      requires Shape(s) && Matched(s.ops) && Globals(s) && workAvailable == s.workAvailable
      requires Alike(s, t) && status == t.ledger
      ensures Represents(t)
    {
      SameShape(s, t);
    }

    method Connect(ghost s: State, caller: Process) returns (id: Option<ClientId>)
      requires Represents(s)
      modifies this`nextClient, this`clients
      ensures Represents(PendingIo.Connect(s, caller))
      ensures id.Some? <==> !s.stopping && s.nextClient < MAX_CLIENT_ID && |s.clients| < MAX_CLIENTS
      ensures id.Some? ==> id.value == s.nextClient + 1
    {
      hide Shape, Matched;
      SameShape(s, PendingIo.Connect(s, caller));
      id := None;
      if !stopping && nextClient < MAX_CLIENT_ID && |clients| < MAX_CLIENTS {
        nextClient := nextClient + 1;
        clients := clients[nextClient := caller];
        id := Some(nextClient);
      }
    }

    // -------------------------------------------------------------------------------------------
    // One context at a time
    // -------------------------------------------------------------------------------------------

    /** From `s` to `t` only operation `i` changes, and it neither joins nor leaves g_Operations. */
    ghost predicate OnlyAt(s: State, t: State, i: OperationId) {
      && i in s.ops && i in t.ops && t.ops == s.ops[i := t.ops[i]]
      && (t.ops[i].life == Unlinked <==> s.ops[i].life == Unlinked)
      && t.order == s.order
    }

    ghost predicate MatchedBut(c: Context, ops: map<OperationId, Operation>)
      reads `contexts, contexts.Values - {c}
    {
      forall i | i in contexts && contexts[i] != c :: i in ops && contexts[i].Is(ops[i])
    }

    lemma Present(c: Context, s: State)
      requires Shape(s) && Matched(s.ops) && Allocated(c)
      ensures c.id in s.ops && c.Is(s.ops[c.id]) && MatchedBut(c, s.ops) && Listing(s) && Working(s.work)
    {
    }

    /** The lease, the arm, the clients and the instances are the same. */
    ghost predicate SameControl(s: State, t: State) {
      && t.stopping == s.stopping && t.clients == s.clients && t.nextClient == s.nextClient
      && t.owner == s.owner && t.ownerProcess == s.ownerProcess
      && t.target == s.target && t.armedMode == s.armedMode && t.armedRemaining == s.armedRemaining
      && t.armedGeneration == s.armedGeneration && t.topologyGeneration == s.topologyGeneration
      && t.instances == s.instances && t.references == s.references
    }

    /** Of operations, ledger and control, only operation `i`, up to `o`, and the ledger, to `l`, change. */
    ghost predicate Core(s: State, t: State, i: OperationId, o: Operation, l: Ledger) {
      OnlyAt(s, t, i) && SameControl(s, t) && Same(t.ops[i], o) && t.ledger == l
    }

    /** The work list and its event do not change either. */
    ghost predicate Local(s: State, t: State, i: OperationId, o: Operation, l: Ledger) {
      Core(s, t, i, o, l) && t.work == s.work && t.workAvailable == s.workAvailable
    }

    lemma SameGlobals(s: State, t: State, i: OperationId, o: Operation, l: Ledger)
      requires Globals(s) && Core(s, t, i, o, l)
      ensures Globals(t)
    {
    }

    lemma CoreListing(s: State, t: State, i: OperationId, o: Operation, l: Ledger)
      requires Listing(s) && Core(s, t, i, o, l)
      ensures Listing(t)
    {
    }

    lemma OneMatched(c: Context, s: State, p: Operation)
      requires Listing(s) && MatchedBut(c, s.ops) && Allocated(c) && c.Is(p)
      ensures Matched(s.ops[c.id := p])
    {
      hide Context.Is, AllAllocated, Distinct, Lists;
    }

    lemma SameIs(c: Context, o: Operation, p: Operation)
      requires c.Is(o) && Same(p, o)
      ensures c.Is(p)
    {
    }

    /** The context, the work list and the ledger agree with the new state: the whole heap represents it. */
    lemma Rejoin(c: Context, s: State, t: State, o: Operation, l: Ledger)
      requires Listing(s) && MatchedBut(c, s.ops) && Allocated(c) && Core(s, t, c.id, o, l)
      requires c.Is(o) && Globals(t) && status == l && Working(t.work) && workAvailable == t.workAvailable
      ensures Represents(t) && c.id in t.ops && c.Is(t.ops[c.id])
    {
      hide Context.Is, Working, Globals;
      CoreListing(s, t, c.id, o, l);
      SameIs(c, o, t.ops[c.id]);
      OneMatched(c, s, t.ops[c.id]);
      hide Listing;
    }

    lemma LockEffect(s: State, i: OperationId, locked: bool)
      requires i in s.ops
      ensures var ready := locked && s.ops[i].mode != FailReadLock;
              Local(s, PendingIo.LockUserBuffer(s, i, locked), i, if ready then s.ops[i].(mdl := true) else s.ops[i],
                    if ready then s.ledger
                    else s.ledger.(bufferLockFailures := s.ledger.bufferLockFailures + 1))
    {
    }

    method LockUserBuffer(ghost s: State, c: Context, locked: bool) returns (ready: bool)
      requires Represents(s) && Allocated(c) && c.id in s.ops
      modifies this`status, c`mdl
      ensures Represents(PendingIo.LockUserBuffer(s, c.id, locked))
      ensures ready <==> locked && c.mode != FailReadLock
    {
      hide Shape, Listing, IsListing, Working, Matched, MatchedBut, Globals, Core, Context.Is, PendingIo.LockUserBuffer;
      Present(c, s);
      c.Reads(s.ops[c.id]);
      LockEffect(s, c.id, locked);
      ready := locked && c.mode != FailReadLock;
      ghost var t := PendingIo.LockUserBuffer(s, c.id, locked);
      ghost var o := if ready then s.ops[c.id].(mdl := true) else s.ops[c.id];
      ghost var l := if ready then status else status.(bufferLockFailures := status.bufferLockFailures + 1);
      SameGlobals(s, t, c.id, o, l);
      if ready {
        c.Pin(s.ops[c.id]);
      } else {
        status := status.(bufferLockFailures := status.bufferLockFailures + 1);
      }
      Rejoin(c, s, t, o, l);
    }

    lemma EnterEffect(s: State, i: OperationId, draining: bool)
      requires i in s.ops
      ensures Local(s, PendingIo.EnterPost(s, i, draining), i, s.ops[i],
                    s.ledger.(postCalled := s.ledger.postCalled + 1))
    {
    }

    /** The counting section of the post callback; the answer says whether it goes on to queue. */
    method EnterPost(ghost s: State, c: Context, draining: bool) returns (queue: bool)
      requires Represents(s) && Allocated(c) && c.id in s.ops
      modifies this`status
      ensures Represents(PendingIo.EnterPost(s, c.id, draining))
      ensures queue <==> PendingIo.EnterPost(s, c.id, draining).ops[c.id].stage == TryPostQueue
    {
      hide Shape, Listing, IsListing, Working, Matched, MatchedBut, Globals, Core;
      Present(c, s);
      EnterEffect(s, c.id, draining);
      ghost var t, l := PendingIo.EnterPost(s, c.id, draining), status.(postCalled := status.postCalled + 1);
      SameGlobals(s, t, c.id, s.ops[c.id], l);
      status := status.(postCalled := status.postCalled + 1);
      queue := !draining && PostMode(c.mode);
      Rejoin(c, s, t, s.ops[c.id], l);
    }

    // -------------------------------------------------------------------------------------------
    // FinishLogical and DropReference
    // -------------------------------------------------------------------------------------------

    lemma SwapEffect(s: State, i: OperationId)
      requires i in s.ops && s.ops[i].stage.FinishSwap?
      ensures Local(s, PendingIo.SwapReleased(s, i), i, s.ops[i].(logicalReleased := true), s.ledger)
    {
    }

    /** The compare-exchange on LogicalReleased: the answer says whether this caller released the share. */
    method SwapReleased(ghost s: State, c: Context) returns (first: bool)
      requires Represents(s) && Allocated(c) && c.id in s.ops && s.ops[c.id].stage.FinishSwap?
      modifies c`logicalReleased
      ensures Represents(PendingIo.SwapReleased(s, c.id)) && first == !s.ops[c.id].logicalReleased
    {
      hide Shape, Listing, IsListing, Working, Matched, MatchedBut, Globals, Core, PendingIo.SwapReleased;
      Present(c, s);
      SwapEffect(s, c.id);
      ghost var t, o := PendingIo.SwapReleased(s, c.id), s.ops[c.id].(logicalReleased := true);
      SameGlobals(s, t, c.id, o, status);
      first := !c.logicalReleased;
      c.logicalReleased := true;
      Rejoin(c, s, t, o, status);
    }

    lemma CountEffect(s: State, i: OperationId)
      requires i in s.ops && s.ops[i].stage.FinishCount?
      ensures Local(s, PendingIo.CountReleased(s, i), i, s.ops[i],
                    if s.ops[i].stage.first then s.ledger.(logicalCompleted := s.ledger.logicalCompleted + 1)
                    else s.ledger.(violations := s.ledger.violations + 1))
    {
    }

    method CountReleased(ghost s: State, c: Context, first: bool)
      requires Represents(s) && Allocated(c) && c.id in s.ops
      requires s.ops[c.id].stage.FinishCount? && s.ops[c.id].stage.first == first
      modifies this`status
      ensures Represents(PendingIo.CountReleased(s, c.id))
    {
      hide Shape, Listing, IsListing, Working, Matched, MatchedBut, Globals, Core, PendingIo.CountReleased;
      Present(c, s);
      CountEffect(s, c.id);
      ghost var t := PendingIo.CountReleased(s, c.id);
      ghost var l := if first then status.(logicalCompleted := status.logicalCompleted + 1)
                     else status.(violations := status.violations + 1);
      SameGlobals(s, t, c.id, s.ops[c.id], l);
      if first {
        status := status.(logicalCompleted := status.logicalCompleted + 1);
      } else {
        status := status.(violations := status.violations + 1);
      }
      Rejoin(c, s, t, s.ops[c.id], l);
    }

    /** The action drops one reference of the operation and moves its share holder. */
    ghost predicate Drops(s: State, t: State, i: OperationId) {
      i in s.ops && Local(s, t, i, s.ops[i].(references := s.ops[i].references - 1), s.ledger)
    }

    /** The decrement of DropReference; whoever reads zero goes on to unlink. */
    method Decrement(ghost s: State, ghost t: State, c: Context) returns (last: bool)
      requires Represents(s) && Allocated(c) && Drops(s, t, c.id)
      modifies c`references
      ensures Represents(t) && last == (t.ops[c.id].references == 0)
    {
      hide Shape, Listing, IsListing, Working, Matched, MatchedBut, Globals, Core;
      Present(c, s);
      ghost var o := s.ops[c.id].(references := s.ops[c.id].references - 1);
      SameGlobals(s, t, c.id, o, status);
      c.references := c.references - 1;
      last := c.references == 0;
      Rejoin(c, s, t, o, status);
    }

    lemma DropLogicalDrops(s: State, i: OperationId)
      requires i in s.ops && s.ops[i].life == Linked
      ensures Drops(s, PendingIo.DropLogical(s, i), i)
    {
    }

    lemma DropWorkerDrops(s: State)
      requires s.worker.Dropping? && s.worker.op in s.ops && s.ops[s.worker.op].life == Linked
      ensures Drops(s, PendingIo.DropWorker(s), s.worker.op)
    {
    }

    // -------------------------------------------------------------------------------------------
    // The work list
    // -------------------------------------------------------------------------------------------

    predicate Refuses(c: Context, post: bool)
      requires c.instance in instances
      reads `stopping, `instances, c
    {
      stopping || instances[c.instance].stopping || c.wakeReason >= 2 ||
      c.mode == (if post then FailPostQueue else FailPreQueue)
    }

    lemma RefusesFits(s: State, c: Context, o: Operation, post: bool)
      requires Globals(s) && c.Is(o) && o.instance in s.instances
      ensures c.instance in instances && (Refuses(c, post) <==> Refused(s, o, post))
    {
    }

    lemma RefusedEffect(s: State, i: OperationId, post: bool)
      requires i in s.ops && s.ops[i].instance in s.instances && Refused(s, s.ops[i], post)
      ensures Local(s, PendingIo.Queue(s, i, post), i, s.ops[i], s.ledger)
    {
    }

    lemma QueueEffect(s: State, i: OperationId, post: bool)
      requires i in s.ops && s.ops[i].instance in s.instances && !Refused(s, s.ops[i], post)
      ensures var t := PendingIo.Queue(s, i, post);
              && Core(s, t, i, Handed(s.ops[i], post), QueuedLedger(s.ledger, post))
              && t.work == s.work + [i] && t.workAvailable
    {
    }

    lemma Append(c: Context, ids: seq<OperationId>, q: seq<Context>)
      requires Lists(q, ids) && Allocated(c) && forall k | 0 <= k < |q| :: Allocated(q[k])
      requires work == q + [c]
      ensures Working(ids + [c.id])
    {
    }

    /** Queue: a refusal changes nothing, otherwise the worker owns the data and a reference. */
    method Queue(ghost s: State, c: Context, post: bool) returns (queued: bool)
      requires Represents(s) && Allocated(c) && c.id in s.ops && s.ops[c.id].instance in s.instances
      modifies this`work, this`workAvailable, this`status, c`references, c`data, c`postWork, c`wakeReason, c`resume
      ensures Represents(PendingIo.Queue(s, c.id, post)) && queued == !Refused(s, s.ops[c.id], post)
    {
      hide Shape, Listing, IsListing, Working, Matched, MatchedBut, Globals, Core, Context.Is, Refused, Refuses,
        PendingIo.Queue, Lists;
      ghost var t, o := PendingIo.Queue(s, c.id, post), s.ops[c.id];
      Present(c, s);
      RefusesFits(s, c, o, post);
      queued := !Refuses(c, post);
      if queued {
        QueueEffect(s, c.id, post);
        Enqueue(s, t, c, post);
      } else {
        RefusedEffect(s, c.id, post);
        SameGlobals(s, t, c.id, o, status);
        Rejoin(c, s, t, o, status);
      }
    }

    /** InsertTailList on g_Work, its counters and its event. */
    method Link(c: Context, post: bool, ghost ids: seq<OperationId>)
      requires Working(ids) && Allocated(c)
      modifies this`work, this`workAvailable, this`status
      ensures Working(ids + [c.id]) && workAvailable && status == QueuedLedger(old(status), post)
    {
      ghost var q := work;
      work := work + [c];
      Append(c, ids, q);
      status := QueuedLedger(status, post);
      workAvailable := true;
    }

    method Enqueue(ghost s: State, ghost t: State, c: Context, post: bool)
      requires Represents(s) && Allocated(c) && c.id in s.ops
      requires t.work == s.work + [c.id] && t.workAvailable
      requires Core(s, t, c.id, Handed(s.ops[c.id], post), QueuedLedger(s.ledger, post))
      modifies this`work, this`workAvailable, this`status, c`references, c`data, c`postWork, c`wakeReason, c`resume
      ensures Represents(t)
    {
      hide Shape, Matched, MatchedBut, Globals, Core, Listing, Working, Context.Is, Lists, Handed;
      ghost var o, l := s.ops[c.id], QueuedLedger(s.ledger, post);
      Present(c, s);
      SameGlobals(s, t, c.id, Handed(o, post), l);
      c.Hand(o, post);
      Link(c, post, s.work);
      Rejoin(c, s, t, Handed(o, post), l);
    }

    // -------------------------------------------------------------------------------------------
    // The completion worker
    // -------------------------------------------------------------------------------------------

    lemma PopEffect(s: State)
      requires s.work != [] && s.work[0] in s.ops
      ensures var t, i := PendingIo.Pop(s), s.work[0];
              && Core(s, t, i, s.ops[i], s.ledger.(queueDepth := s.ledger.queueDepth - 1,
                                                   activeWorkers := s.ledger.activeWorkers + 1))
              && t.work == s.work[1..] && t.workAvailable == s.workAvailable
              && t.worker == Holding(i, s.ops[i].postWork)
    {
    }

    lemma FirstWork(s: State)
      requires Shape(s)
      ensures |work| == |s.work| && forall k | 0 <= k < |work| :: Allocated(work[k]) && work[k].id == s.work[k]
      ensures forall k | 0 <= k < |work| :: work[k].id in s.ops
    {
    }

    /** The head of the drain loop. Without work the answer is whether to terminate. */
    method Pop(ghost s: State) returns (c: Context?, stop: bool)
      requires Represents(s)
      modifies this`work, this`status
      ensures s.work != [] ==> s.work[0] in s.ops
      ensures Represents(PendingIo.Pop(s))
      ensures c == null <==> s.work == []
      ensures c != null ==> Allocated(c) && PendingIo.Pop(s).worker == Holding(c.id, c.postWork)
      ensures stop <==> PendingIo.Pop(s).worker == Terminated
    {
      hide Shape, Listing, IsListing, Working, Matched, MatchedBut, Globals, Core, Context.Is;
      FirstWork(s);
      Seen(s);
      c, stop := null, false;
      if work == [] {
        stop := stopping;
        Unseen(s, PendingIo.Pop(s));
      } else {
        c := work[0];
        Take(s, c);
        c.Reads(s.ops[c.id]);
      }
    }

    method Take(ghost s: State, c: Context)
      requires Represents(s) && work != [] && s.work != [] && c == work[0] && Allocated(c)
      requires c.id == s.work[0] && c.id in s.ops
      modifies this`work, this`status
      ensures Represents(PendingIo.Pop(s)) && c.Is(s.ops[c.id])
    {
      hide Shape, Listing, IsListing, Working, Matched, MatchedBut, Globals, Core, Context.Is, PendingIo.Pop;
      ghost var t := PendingIo.Pop(s);
      ghost var l := status.(queueDepth := status.queueDepth - 1, activeWorkers := status.activeWorkers + 1);
      Present(c, s);
      PopEffect(s);
      SameGlobals(s, t, c.id, s.ops[c.id], l);
      Unqueue(s.work);
      Rejoin(c, s, t, s.ops[c.id], l);
    }

    method Unqueue(ghost ids: seq<OperationId>)
      requires Working(ids) && work != [] && ids != []
      modifies this`work, this`status
      ensures Working(ids[1..])
      ensures status == old(status).(queueDepth := old(status).queueDepth - 1,
                                     activeWorkers := old(status).activeWorkers + 1)
    {
      work := work[1..];
      status := status.(queueDepth := status.queueDepth - 1, activeWorkers := status.activeWorkers + 1);
    }

    lemma DecideEffect(s: State, waited: bool)
      requires s.worker.Holding? && s.worker.op in s.ops && s.ops[s.worker.op].instance in s.instances
      ensures var i, post := s.worker.op, s.worker.post; var o := s.ops[i];
              Local(s, PendingIo.Decide(s, waited), i, o,
                    Decided(s.ledger, post, !post && o.read && !o.mdl, Cancels(s, o, post, waited)))
    {
    }

    lemma CancelsFits(s: State, c: Context, o: Operation, post: bool, waited: bool)
      requires Globals(s) && c.Is(o) && o.instance in s.instances
      ensures c.instance in instances && c.read == o.read && c.mdl == o.mdl
      ensures Cancels(s, o, post, waited) <==>
              (!post && c.read && !c.mdl) || !waited || c.wakeReason >= 2 || stopping || instances[c.instance].stopping
    {
    }

    /** The section after the wait: cancel or forward. */
    method Decide(ghost s: State, c: Context, post: bool, waited: bool) returns (cancel: bool)
      requires Represents(s) && Allocated(c) && s.worker == Holding(c.id, post)
      requires c.id in s.ops && s.ops[c.id].instance in s.instances
      modifies this`status
      ensures Represents(PendingIo.Decide(s, waited)) && cancel == Cancels(s, s.ops[c.id], post, waited)
    {
      hide Shape, Listing, IsListing, Working, Matched, MatchedBut, Globals, Core, Context.Is, Cancels,
        PendingIo.Decide;
      Present(c, s);
      CancelsFits(s, c, s.ops[c.id], post, waited);
      DecideEffect(s, waited);
      var missing := !post && c.read && !c.mdl;
      cancel := missing || !waited || c.wakeReason >= 2 || stopping || instances[c.instance].stopping;
      ghost var l := Decided(status, post, missing, cancel);
      SameGlobals(s, PendingIo.Decide(s, waited), c.id, s.ops[c.id], l);
      Record(post, missing, cancel);
      Rejoin(c, s, PendingIo.Decide(s, waited), s.ops[c.id], l);
    }

    method Record(post: bool, missing: bool, cancel: bool)
      modifies this`status
      ensures status == Decided(old(status), post, missing, cancel)
    {
      if missing {
        status := status.(violations := status.violations + 1);
      }
      if post {
        status := status.(postCompleted := status.postCompleted + 1);
      } else {
        status := status.(preCompleted := status.preCompleted + 1);
        if cancel {
          status := status.(preCancelled := status.preCancelled + 1);
        }
      }
    }

    /** The look at the arm before the worker parks: with a target its wait is timed. */
    method Sample(ghost s: State) returns (armed: bool)
      requires Represents(s)
      ensures Represents(s.(worker := Waiting(s.target.Some?))) && armed == s.target.Some?
    {
      hide Shape, Matched, Globals;
      Seen(s);
      armed := target.Some?;
      Unseen(s, s.(worker := Waiting(s.target.Some?)));
    }

    /** The end of the wait: a signal is consumed, a timeout leaves the event as it is. */
    method Wait(ghost s: State, timedOut: bool)
      requires Represents(s)
      modifies this`workAvailable
      ensures Represents(PendingIo.WorkerWait(s, timedOut))
    {
      hide Shape, Matched, Globals;
      if !timedOut {
        workAvailable := false;
      }
      Elsewhere(s, PendingIo.WorkerWait(s, timedOut));
    }

    lemma Elsewhere(s: State, t: State)
      requires Shape(s) && Matched(s.ops) && Globals(s) && status == s.ledger
      requires t.ops == s.ops && t.order == s.order && t.work == s.work && SameControl(s, t) && t.ledger == s.ledger
      requires workAvailable == t.workAvailable
      ensures Represents(t)
    {
      hide Matched;
      SameShape(s, t);
    }

    /** The worker moved and nothing else did. */
    lemma Moved(s: State, w: WorkerPc)
      requires Represents(s)
      ensures Represents(s.(worker := w))
    {
      hide Shape, Matched, Globals;
      Unseen(s, s.(worker := w));
    }

    lemma CompleteEffect(s: State)
      requires s.worker.Completing? && s.worker.op in s.ops && s.ops[s.worker.op].data.Some?
      ensures Local(s, PendingIo.Complete(s), s.worker.op, s.ops[s.worker.op], s.ledger)
    {
    }

    /** FltCompletePended changes nothing that the driver holds: it hands the data back to Filter Manager. */
    lemma Completed(s: State, c: Context)
      requires Represents(s) && Allocated(c) && s.worker.Completing? && s.worker.op == c.id
      requires c.id in s.ops && s.ops[c.id].data.Some?
      ensures Represents(PendingIo.Complete(s))
    {
      hide Shape, Listing, IsListing, Working, Matched, MatchedBut, Globals, Core, PendingIo.Complete;
      Present(c, s);
      CompleteEffect(s);
      SameGlobals(s, PendingIo.Complete(s), c.id, s.ops[c.id], status);
      Rejoin(c, s, PendingIo.Complete(s), s.ops[c.id], status);
    }

    lemma PassEffect(s: State, i: OperationId)
      requires i in s.ops
      ensures Local(s, PendingIo.PassToPost(s, i), i, s.ops[i], s.ledger)
    {
    }

    /** A pre callback that only returns its context. */
    lemma Passed(s: State, c: Context)
      requires Represents(s) && Allocated(c) && c.id in s.ops
      ensures Represents(PendingIo.PassToPost(s, c.id))
    {
      hide Shape, Listing, IsListing, Working, Matched, MatchedBut, Globals, Core, PendingIo.PassToPost;
      Present(c, s);
      PassEffect(s, c.id);
      SameGlobals(s, PendingIo.PassToPost(s, c.id), c.id, s.ops[c.id], status);
      Rejoin(c, s, PendingIo.PassToPost(s, c.id), s.ops[c.id], status);
    }

    /** An allocated context is one of those the state names. */
    lemma Member(s: State, c: Context)
      requires Represents(s) && Allocated(c)
      ensures c.id in s.ops && c in contexts.Values
    {
      hide Matched, Globals;
    }

    /** What a context never changes is what the state says of its operation. */
    lemma Constants(s: State, c: Context)
      requires Represents(s) && Allocated(c)
      ensures c.id in s.ops && c.mode == s.ops[c.id].mode && c.lower == s.ops[c.id].lower && c.read == s.ops[c.id].read
    {
      hide Globals;
    }

    /** A freed name is no longer allocated, an allocated context has the name the model gives it. */
    lemma Names(s: State, c: Context)
      requires Represents(s)
      ensures contexts.Keys == s.ops.Keys
      ensures Allocated(c) && c.id !in s.work ==> c !in work
    {
      hide Matched, Globals;
      forall k | 0 <= k < |work| ensures work[k].id in s.work {
        assert s.work[k] == work[k].id;
      }
    }

    method WorkerTail(ghost s: State)
      requires Represents(s)
      modifies this`status
      ensures Represents(PendingIo.WorkerTail(s))
    {
      hide Shape, Matched, Globals;
      status := status.(activeWorkers := status.activeWorkers - 1);
      Unseen(s, PendingIo.WorkerTail(s));
    }

    // -------------------------------------------------------------------------------------------
    // Publication and the end of a context
    // -------------------------------------------------------------------------------------------

    lemma UnlinkEffect(s: State, i: OperationId)
      requires i in s.ops
      ensures var t := PendingIo.Unlink(s, i);
              && t.ops == s.ops[i := t.ops[i]] && t.ops[i] == s.ops[i].(life := Unlinked)
              && t.order == Without(s.order, i) && t.work == s.work && t.workAvailable == s.workAvailable
              && SameControl(s, t)
              && t.ledger == s.ledger.(liveContexts := s.ledger.liveContexts - 1, freed := s.ledger.freed + 1)
    {
    }

    lemma UnlinkedListing(c: Context, q: seq<Context>, s: State, t: State)
      requires IsListing(q, s) && Allocated(c) && c.id in s.ops
      requires t.ops == s.ops[c.id := s.ops[c.id].(life := Unlinked)] && t.order == Without(s.order, c.id)
      ensures IsListing(Removed(q, c), t)
    {
      RemovedLists(q, s.order, c);
      UnlinkedMembers(c, q, s.ops);
      RemovedDistinct(q, c);
      hide Removed, Without, Exactly, AllAllocated, Distinct, Lists;
    }

    lemma UnlinkedMembers(c: Context, q: seq<Context>, ops: map<OperationId, Operation>)
      requires Exactly(q, ops) && AllAllocated(q) && Distinct(q) && Allocated(c) && c.id in ops
      ensures Exactly(Removed(q, c), ops[c.id := ops[c.id].(life := Unlinked)]) && AllAllocated(Removed(q, c))
    {
      RemovedMembers(q, c);
      hide Removed;
    }

    /** The g_Lock section of DropReference. */
    method Unlink(ghost s: State, c: Context)
      requires Represents(s) && Allocated(c) && c.id in s.ops
      modifies this`operations, this`status
      ensures Represents(PendingIo.Unlink(s, c.id))
    {
      hide Shape, Working, IsListing, Matched, MatchedBut, Globals, SameControl, Context.Is, PendingIo.Unlink, Removed;
      ghost var t := PendingIo.Unlink(s, c.id);
      Present(c, s);
      UnlinkEffect(s, c.id);
      SameIs(c, s.ops[c.id], t.ops[c.id]);
      OneMatched(c, s, t.ops[c.id]);
      SameGlobalsBy(s, t);
      UnlinkedListing(c, operations, s, t);
      operations := Removed(operations, c);
      status := status.(liveContexts := status.liveContexts - 1, freed := status.freed + 1);
      Whole(t);
    }

    lemma SameGlobalsBy(s: State, t: State)
      requires Globals(s) && SameControl(s, t)
      ensures Globals(t)
    {
    }

    lemma Whole(t: State)
      requires Listing(t) && Working(t.work) && Matched(t.ops) && Globals(t)
      requires status == t.ledger && workAvailable == t.workAvailable
      ensures Represents(t)
    {
    }

    lemma FreedLists(c: Context, s: State, q: seq<Context>, w: seq<Context>, was: map<OperationId, Context>)
      requires contexts == was - {c.id} && c.id in was && was[c.id] == c
      requires s.ops.Keys == was.Keys && (forall i | i in was :: was[i].id == i)
      requires forall k | 0 <= k < |q| :: q[k].id in was && was[q[k].id] == q[k]
      requires forall k | 0 <= k < |w| :: w[k].id in was && was[w[k].id] == w[k]
      requires forall i | i in was :: was[i] in q <==> s.ops[i].life != Unlinked
      requires s.ops[c.id].life == Unlinked && c !in w
      ensures Exactly(q, s.ops - {c.id}) && AllAllocated(q) && AllAllocated(w)
    {
      forall k | 0 <= k < |q| ensures Allocated(q[k]) {
        assert q[k] in q;
      }
      forall k | 0 <= k < |w| ensures Allocated(w[k]) {
        assert w[k] in w;
      }
    }

    /** What the lists and contexts are before a context joins or leaves them. */
    lemma ContextFacts(s: State)
      requires Represents(s)
      ensures s.ops.Keys == contexts.Keys && (forall i | i in contexts :: contexts[i].id == i)
      ensures forall k | 0 <= k < |operations| ::
                operations[k].id in contexts && contexts[operations[k].id] == operations[k]
      ensures forall k | 0 <= k < |work| :: work[k].id in contexts && contexts[work[k].id] == work[k]
      ensures forall i | i in contexts :: contexts[i] in operations <==> s.ops[i].life != Unlinked
      ensures Distinct(operations) && Lists(operations, s.order) && Lists(work, s.work) && Globals(s)
      ensures forall i | i in contexts :: i in s.ops && contexts[i].Is(s.ops[i])
      ensures status == s.ledger && workAvailable == s.workAvailable
    {
      hide Globals, Context.Is, Distinct, Lists;
    }

    lemma ContextWhole(t: State)
      requires Exactly(operations, t.ops) && AllAllocated(operations) && AllAllocated(work)
      requires Distinct(operations) && Lists(operations, t.order) && Lists(work, t.work)
      requires Matched(t.ops) && Globals(t) && status == t.ledger && workAvailable == t.workAvailable
      ensures Represents(t)
    {
      hide Exactly, AllAllocated, Distinct, Lists, Matched, Globals;
    }

    lemma FreeEffect(s: State, i: OperationId, p: Process)
      requires i in s.ops && p == s.ops[i].target
      ensures var t := PendingIo.FreeOperation(s, i);
              && t.ops == s.ops - {i} && t.order == s.order && t.work == s.work && t.ledger == s.ledger
              && t.workAvailable == s.workAvailable
              && SameControl(s.(references := s.references - multiset{p}), t)
    {
    }

    lemma FreedMatched(s: State, i: OperationId)
      requires forall k | k in contexts :: k in s.ops - {i} && contexts[k].Is(s.ops[k])
      ensures Matched(s.ops - {i})
    {
      hide Context.Is;
    }

    lemma TargetOf(s: State, c: Context)
      requires Represents(s) && Allocated(c)
      ensures c.id in contexts && contexts[c.id] == c && c.id in s.ops && c.target == s.ops[c.id].target
    {
      hide Globals;
    }

    /** ObDereferenceObject on a reference that an object of the driver holds. */
    ghost method Unreference(s: State, p: Process)
      requires Represents(s)
      modifies this`processReferences
      ensures Represents(s.(references := s.references - multiset{p}))
    {
      hide Shape, Matched;
      processReferences := processReferences - multiset{p};
      SameShape(s, s.(references := s.references - multiset{p}));
    }

    /** The reference on the target goes, and ExFreePool: the context is on neither list any more. */
    ghost method Free(s: State, c: Context)
      requires Represents(s) && Allocated(c) && c.id in s.ops && s.ops[c.id].life == Unlinked && c !in work
      modifies this`contexts, this`processReferences
      ensures Represents(PendingIo.FreeOperation(s, c.id)) && contexts == old(contexts) - {c.id}
      ensures contexts.Values <= old(contexts.Values)
    {
      hide *;
      TargetOf(s, c);
      ghost var u, t := s.(references := s.references - multiset{c.target}), PendingIo.FreeOperation(s, c.id);
      FreeEffect(s, c.id, c.target);
      Unreference(s, c.target);
      ContextFacts(u);
      SameGlobalsBy(u, t);
      ghost var was := contexts;
      contexts := contexts - {c.id};
      FreedLists(c, s, operations, work, was);
      FreedMatched(s, c.id);
      ContextWhole(t);
    }

    // -------------------------------------------------------------------------------------------
    // The pre callback
    // -------------------------------------------------------------------------------------------

    predicate EligibleContext(c: Context, data: DataId, file: FileId, requestor: Process)
      reads c, `topologyGeneration, `owner
    {
      && PairMode(c.mode) && !c.lowerClaimed && !c.logicalReleased
      && c.file == file && c.target == requestor && c.preIdentity == data
      && c.generation == topologyGeneration && c.owner == owner && c.wakeReason < 2
    }

    lemma EligibleFits(s: State, c: Context, o: Operation, data: DataId, file: FileId, requestor: Process)
      requires Globals(s) && c.Is(o)
      ensures EligibleContext(c, data, file, requestor) <==> Eligible(s, o, data, file, requestor)
    {
    }

    lemma Listed(s: State, k: nat)
      requires Shape(s) && Matched(s.ops) && k < |operations|
      ensures |operations| == |s.order| && Allocated(operations[k])
      ensures s.order[k] == operations[k].id && operations[k].id in s.ops && operations[k].Is(s.ops[operations[k].id])
    {
    }

    lemma SameLength(s: State)
      requires Shape(s)
      ensures |operations| == |s.order|
    {
    }

    /** The search for the upper half of this read, in list order. */
    method FindPair(ghost s: State, data: DataId, file: FileId, requestor: Process) returns (c: Context?)
      requires Represents(s)
      ensures PendingIo.FindPair(s, s.order, data, file, requestor) == (if c == null then None else Some(c.id))
      ensures c != null ==> Allocated(c) && c.Is(s.ops[c.id])
    {
      hide Shape, Matched, Globals, Context.Is, Eligible, EligibleContext;
      SameLength(s);
      var k := 0;
      while k < |operations|
        invariant 0 <= k <= |operations| == |s.order|
        invariant PendingIo.FindPair(s, s.order, data, file, requestor) ==
                  PendingIo.FindPair(s, s.order[k..], data, file, requestor)
      {
        Listed(s, k);
        EligibleFits(s, operations[k], s.ops[operations[k].id], data, file, requestor);
        assert s.order[k..][1..] == s.order[k + 1..];
        if EligibleContext(operations[k], data, file, requestor) {
          return operations[k];
        }
        k := k + 1;
      }
      c := null;
    }

    lemma PublishEffect(s: State, o: Operation)
      ensures Alike(s, PendingIo.Publish(s, o, false)) && PendingIo.Publish(s, o, false).ledger == s.ledger
      ensures PendingIo.Publish(s, o, false).locals == s.locals + multiset{o.target}
      ensures PendingIo.Publish(s, o, true).locals == s.locals
      ensures var t := PendingIo.Publish(s, o, true);
              && t.ops == s.ops[s.ledger.created := o] && t.order == s.order + [s.ledger.created]
              && t.work == s.work && t.workAvailable == s.workAvailable && SameControl(s, t)
              && t.ledger == s.ledger.(liveContexts := s.ledger.liveContexts + 1, created := s.ledger.created + 1)
    {
    }

    lemma PublishedLists(c: Context, q: seq<Context>, was: map<OperationId, Context>, s: State, o: Operation)
      requires contexts == was[c.id := c] && c.id !in was && operations == q + [c]
      requires s.ops.Keys == was.Keys && forall i | i in was :: was[i].id == i
      requires forall k | 0 <= k < |q| :: q[k].id in was && was[q[k].id] == q[k]
      requires forall k | 0 <= k < |work| :: work[k].id in was && was[work[k].id] == work[k]
      requires forall i | i in was :: was[i] in q <==> s.ops[i].life != Unlinked
      requires Distinct(q) && Lists(q, s.order) && o.life == Linked
      ensures Exactly(operations, s.ops[c.id := o]) && AllAllocated(operations) && AllAllocated(work)
      ensures Distinct(operations) && Lists(operations, s.order + [c.id])
    {
      forall k | 0 <= k < |operations| ensures Allocated(operations[k]) {
        assert k < |q| ==> operations[k] == q[k];
      }
      assert c !in q;
      assert c in operations;
    }

    lemma PublishedMatched(c: Context, was: map<OperationId, Context>, s: State, o: Operation)
      requires contexts == was[c.id := c] && c.id !in was && c.Is(o)
      requires forall i | i in was :: i in s.ops && was[i].Is(s.ops[i])
      ensures Matched(s.ops[c.id := o])
    {
      hide Context.Is;
    }

    lemma OneMoreValue(was: map<OperationId, Context>, i: OperationId, c: Context)
      ensures was[i := c].Values <= was.Values + {c}
    {
    }

    /** Allocation, initialisation and InsertTailList on g_Operations. */
    method Publish(ghost s: State, instance: InstanceId, lower: bool, file: FileId, target: Process, data: DataId,
                   generation: nat, owner: ClientId, mode: Mode, read: bool, granted: bool) returns (c: Context?)
      requires Represents(s) && s.ledger.created !in s.ops
      modifies this`operations, this`status, this`contexts
      ensures var o := NewOperation(instance, lower, file, target, data, generation, owner, mode, read);
              Represents(PendingIo.Publish(s, o, granted))
              && PendingIo.Publish(s, o, granted).locals == s.locals + if granted then multiset{} else multiset{target}
      ensures c == null <==> !granted
      ensures c != null ==> fresh(c) && Allocated(c) && c.id == s.ledger.created
      ensures fresh(contexts.Values - old(contexts.Values))
    {
      hide Shape, Matched, Globals, Context.Is, SameControl, PendingIo.Publish;
      ghost var o := NewOperation(instance, lower, file, target, data, generation, owner, mode, read);
      PublishEffect(s, o);
      if granted {
        c := new Context(s.ledger.created, instance, lower, file, target, data, generation, owner, mode, read);
        OneMoreValue(contexts, s.ledger.created, c);
        Insert(s, c, o);
      } else {
        c := null;
        Unseen(s, PendingIo.Publish(s, o, false));
      }
    }

    lemma InList(c: Context)
      requires c.id in contexts && contexts[c.id] == c
      ensures Allocated(c)
    {
    }

    method Insert(ghost s: State, c: Context, ghost o: Operation)
      requires Represents(s) && s.ledger.created !in s.ops && c.Is(o) && o.life == Linked
      requires c.id == s.ledger.created && c !in contexts.Values
      modifies this`operations, this`status, this`contexts
      ensures Represents(PendingIo.Publish(s, o, true)) && Allocated(c)
      ensures contexts == old(contexts)[c.id := c]
    {
      hide *;
      PublishEffect(s, o);
      ContextFacts(s);
      SameGlobalsBy(s, PendingIo.Publish(s, o, true));
      ghost var q, was := operations, contexts;
      operations := operations + [c];
      status := status.(liveContexts := status.liveContexts + 1, created := status.created + 1);
      contexts := contexts[c.id := c];
      PublishedLists(c, q, was, s, o);
      PublishedMatched(c, was, s, o);
      ContextWhole(PendingIo.Publish(s, o, true));
      InList(c);
    }

    /** One reservation of the arm goes; the answer is whether the arm's process reference went with it. */
    method Consume(ghost s: State, ghost requestor: Process) returns (transferred: bool)
      requires Globals(s)
      modifies this`target, this`armedMode, this`armedRemaining, this`armedGeneration, this`processReferences
      ensures Globals(PendingIo.Consume(s, requestor))
      ensures transferred <==> PendingIo.Consume(s, requestor).references == s.references
    {
      armedRemaining := armedRemaining - 1;
      transferred := armedRemaining == 0;
      if transferred {
        armedMode, target, armedGeneration := NoMode, None, 0;
      }
      if !transferred {
        processReferences := processReferences + multiset{requestor};
        assert PendingIo.Consume(s, requestor).references[requestor] == s.references[requestor] + 1;
      }
    }

    lemma ConsumeEffect(s: State, requestor: Process)
      ensures var t := PendingIo.Consume(s, requestor);
              && t.ops == s.ops && t.order == s.order && t.work == s.work && t.workAvailable == s.workAvailable
              && t.ledger == s.ledger && t.locals == s.locals
    {
    }

    lemma ClaimEffect(s: State, i: OperationId, requestor: Process)
      requires i in s.ops
      ensures Local(s.(references := s.references + multiset{requestor}), PendingIo.Claim(s, i, requestor), i,
              s.ops[i].(lowerClaimed := true), s.ledger)
    {
    }

    method Claim(ghost s: State, c: Context, ghost requestor: Process)
      requires Represents(s) && Allocated(c) && c.id in s.ops
      modifies this`processReferences, c`lowerClaimed
      ensures Represents(PendingIo.Claim(s, c.id, requestor))
    {
      hide Shape, Listing, IsListing, Working, Matched, MatchedBut, Globals, Core, PendingIo.Claim;
      Reference(s, requestor);
      ghost var u := s.(references := s.references + multiset{requestor});
      Present(c, u);
      ClaimEffect(s, c.id, requestor);
      ghost var t, o := PendingIo.Claim(s, c.id, requestor), s.ops[c.id].(lowerClaimed := true);
      SameGlobals(u, t, c.id, o, status);
      c.lowerClaimed := true;
      Rejoin(c, u, t, o, status);
    }

    predicate TakesUpper(instance: InstanceId, requestor: Process, read: bool)
      requires instance in instances
      reads this
    {
      && !stopping && !instances[instance].stopping && !instances[instance].lower
      && armedMode != NoMode && target == Some(requestor) && read == PairMode(armedMode)
    }

    predicate TakesLower(instance: InstanceId, read: bool)
      requires instance in instances
      reads this
    {
      !stopping && !instances[instance].stopping && instances[instance].lower && read
    }

    lemma TakesFits(s: State, instance: InstanceId, requestor: Process, read: bool)
      requires Globals(s) && instance in s.instances
      ensures instance in instances
      ensures TakesUpper(instance, requestor, read) <==> AdmitsUpper(s, instance, requestor, read)
      ensures TakesLower(instance, read) <==> AdmitsLower(s, instance, read)
      ensures armedMode == s.armedMode && armedGeneration == s.armedGeneration && owner == s.owner
    {
    }

    /** The g_Lock section of the pre callback: reserve, or find and claim the upper half, then publish. */
    method Admit(ghost s: State, data: DataId, instance: InstanceId, requestor: Process, file: FileId,
                 read: bool, granted: bool) returns (c: Context?, lost: Option<Process>)
      requires Represents(s) && s.ledger.created !in s.ops && instance in s.instances
      modifies this, contexts.Values`lowerClaimed
      ensures Represents(PendingIo.Admit(s, data, instance, requestor, file, read, granted))
      ensures c != null <==> s.ledger.created in PendingIo.Admit(s, data, instance, requestor, file, read, granted).ops
      ensures c != null ==> Allocated(c) && c.id == s.ledger.created
      ensures PendingIo.Admit(s, data, instance, requestor, file, read, granted).locals == s.locals + Bag(lost)
      ensures lost == None || (lost == Some(requestor) && c == null)
      ensures fresh(contexts.Values - old(contexts.Values))
    {
      hide Shape, Matched, Globals, Context.Is, AdmitsUpper, AdmitsLower, TakesUpper, TakesLower, Eligible,
        NewOperation;
      TakesFits(s, instance, requestor, read);
      c, lost := null, None;
      if TakesUpper(instance, requestor, read) {
        c, lost := AdmitUpper(s, data, instance, requestor, file, read, granted);
      } else if TakesLower(instance, read) {
        var upper := FindPair(s, data, file, requestor);
        if upper != null {
          c, lost := AdmitLower(s, upper, data, instance, requestor, file, read, granted);
        }
      }
    }

    method AdmitUpper(ghost s: State, data: DataId, instance: InstanceId, requestor: Process, file: FileId,
                      read: bool, granted: bool) returns (c: Context?, lost: Option<Process>)
      requires Represents(s) && s.ledger.created !in s.ops && instance in s.instances
      requires AdmitsUpper(s, instance, requestor, read)
      modifies this
      ensures Represents(PendingIo.Admit(s, data, instance, requestor, file, read, granted))
      ensures c != null <==> s.ledger.created in PendingIo.Admit(s, data, instance, requestor, file, read, granted).ops
      ensures c != null ==> Allocated(c) && c.id == s.ledger.created
      ensures PendingIo.Admit(s, data, instance, requestor, file, read, granted).locals == s.locals + Bag(lost)
      ensures lost == None || (lost == Some(requestor) && c == null)
      ensures fresh(contexts.Values - old(contexts.Values))
    {
      hide Shape, Matched, Globals, Context.Is, AdmitsUpper, PendingIo.Consume, NewOperation;
      TakesFits(s, instance, requestor, read);
      var mode, generation := armedMode, armedGeneration;
      ConsumeEffect(s, requestor);
      ghost var t := PendingIo.Consume(s, requestor);
      var transferred := Consume(s, requestor);
      SameShape(s, t);
      c := Publish(t, instance, false, file, requestor, data, generation, owner, mode, read,
                   granted && mode != FailAlloc);
      lost := if c == null then Some(requestor) else None;
    }

    method AdmitLower(ghost s: State, upper: Context, data: DataId, instance: InstanceId, requestor: Process,
                      file: FileId, read: bool, granted: bool) returns (c: Context?, lost: Option<Process>)
      requires Represents(s) && s.ledger.created !in s.ops && instance in s.instances
      requires AdmitsLower(s, instance, read) && !AdmitsUpper(s, instance, requestor, read)
      requires Allocated(upper) && PendingIo.FindPair(s, s.order, data, file, requestor) == Some(upper.id)
      requires upper.id in s.ops && upper.Is(s.ops[upper.id])
      modifies this, upper`lowerClaimed
      ensures Represents(PendingIo.Admit(s, data, instance, requestor, file, read, granted))
      ensures c != null <==> s.ledger.created in PendingIo.Admit(s, data, instance, requestor, file, read, granted).ops
      ensures c != null ==> Allocated(c) && c.id == s.ledger.created
      ensures PendingIo.Admit(s, data, instance, requestor, file, read, granted).locals == s.locals + Bag(lost)
      ensures lost == None || (lost == Some(requestor) && c == null)
      ensures fresh(contexts.Values - old(contexts.Values))
    {
      hide Shape, Matched, Globals, Context.Is, AdmitsUpper, AdmitsLower, NewOperation, Eligible;
      upper.Reads(s.ops[upper.id]);
      Claim(s, upper, requestor);
      ghost var t := PendingIo.Claim(s, upper.id, requestor);
      c := Publish(t, instance, true, file, requestor, data, upper.generation, upper.owner,
                   if upper.mode == FailReadLock then FailReadLock else Pre, read, granted);
      lost := if c == null then Some(requestor) else None;
    }

    // -------------------------------------------------------------------------------------------
    // Releases, sweeps and messages
    // -------------------------------------------------------------------------------------------

    /** ReleaseOwner under a condition, seen from the state the whole section leads to. */
    method ReleaseIf(ghost s: State, ghost t: State, release: bool)
      returns (retired: Option<Process>, released: Option<Process>)
      requires Represents(s)
      requires var r := if release then PendingIo.ReleaseOwner(s) else s; Alike(r, t) && t.ledger == r.ledger
      modifies this`target, this`armedMode, this`armedRemaining, this`armedGeneration, this`ownerProcess, this`owner,
        contexts.Values`wakeReason, contexts.Values`resume
      ensures Represents(t)
      ensures retired == (if release then s.target else None) && released == if release then s.ownerProcess else None
    {
      hide Shape, Matched, Globals, Alike, PendingIo.ReleaseOwner;
      retired, released := None, None;
      if release {
        retired, released := ReleaseOwner(s);
        Unseen(PendingIo.ReleaseOwner(s), t);
      } else {
        Unseen(s, t);
      }
    }

    /** A release leaves the references of the arm and of the lease to locals of the caller. */
    lemma ReleasedLocals(s: State)
      ensures PendingIo.ReleaseOwner(s).locals == s.locals + Bag(s.target) + Bag(s.ownerProcess)
      ensures s.locals == s.locals + Bag(None) + Bag(None)
    {
      hide WakeAll;
    }

    method DisconnectRelease(ghost s: State, id: ClientId)
      returns (retired: Option<Process>, released: Option<Process>)
      requires Represents(s)
      modifies this`target, this`armedMode, this`armedRemaining, this`armedGeneration, this`ownerProcess, this`owner,
        contexts.Values`wakeReason, contexts.Values`resume
      ensures Represents(PendingIo.DisconnectRelease(s, id))
      ensures PendingIo.DisconnectRelease(s, id).locals == s.locals + Bag(retired) + Bag(released)
    {
      hide Shape, Matched, Globals, PendingIo.ReleaseOwner;
      ReleasedLocals(s);
      Seen(s);
      retired, released := ReleaseIf(s, PendingIo.DisconnectRelease(s, id), owner == id);
    }

    method DisconnectRemove(ghost s: State, id: ClientId)
      requires Represents(s) && s.control == Disconnecting(id)
      modifies this`clients
      ensures Represents(PendingIo.DisconnectRemove(s))
    {
      hide Shape, Matched;
      SameShape(s, PendingIo.DisconnectRemove(s));
      clients := clients - {id};
    }

    method MessageRelease(ghost s: State)
      returns (retired: Option<Process>, released: Option<Process>)
      requires Represents(s) && s.control.MessageReleasing?
      modifies this`target, this`armedMode, this`armedRemaining, this`armedGeneration, this`ownerProcess, this`owner,
        contexts.Values`wakeReason, contexts.Values`resume
      ensures Represents(PendingIo.MessageRelease(s))
      ensures PendingIo.MessageRelease(s).locals == s.locals + Bag(retired) + Bag(released)
    {
      hide Shape, Matched, Globals, PendingIo.ReleaseOwner;
      ReleasedLocals(s);
      retired, released := ReleaseIf(s, PendingIo.MessageRelease(s), true);
    }

    method Reply(ghost s: State, id: ClientId, copied: bool)
      returns (retired: Option<Process>, released: Option<Process>)
      requires Represents(s) && s.control == Replying(id)
      modifies this`target, this`armedMode, this`armedRemaining, this`armedGeneration, this`ownerProcess, this`owner,
        contexts.Values`wakeReason, contexts.Values`resume
      ensures Represents(PendingIo.Reply(s, copied))
      ensures PendingIo.Reply(s, copied).locals == s.locals + Bag(retired) + Bag(released)
    {
      hide Shape, Matched, Globals, PendingIo.ReleaseOwner;
      ReleasedLocals(s);
      Seen(s);
      retired, released := ReleaseIf(s, PendingIo.Reply(s, copied), !copied && owner == id);
    }

    method ExitRelease(ghost s: State, process: Process)
      returns (retired: Option<Process>, released: Option<Process>)
      requires Represents(s)
      modifies this`target, this`armedMode, this`armedRemaining, this`armedGeneration, this`ownerProcess, this`owner,
        contexts.Values`wakeReason, contexts.Values`resume
      ensures Represents(PendingIo.ExitRelease(s, process))
      ensures PendingIo.ExitRelease(s, process).locals == s.locals + Bag(retired) + Bag(released)
    {
      hide Shape, Matched, Globals, PendingIo.ReleaseOwner;
      ReleasedLocals(s);
      Seen(s);
      retired, released := ReleaseIf(s, PendingIo.ExitRelease(s, process), ownerProcess == Some(process));
    }

    method StopRelease(ghost s: State)
      returns (retired: Option<Process>, released: Option<Process>)
      requires Represents(s)
      modifies this`target, this`armedMode, this`armedRemaining, this`armedGeneration, this`ownerProcess, this`owner,
        contexts.Values`wakeReason, contexts.Values`resume
      ensures Represents(PendingIo.StopRelease(s))
      ensures PendingIo.StopRelease(s).locals == s.locals + Bag(retired) + Bag(released)
    {
      hide Shape, Matched, Globals, PendingIo.ReleaseOwner;
      ReleasedLocals(s);
      retired, released := ReleaseIf(s, PendingIo.StopRelease(s), true);
    }

    /** From `s` to `t` a sweep ran and nothing else happened to the lists. */
    ghost predicate SweptTo(s: State, t: State, sweep: Sweep, reason: nat) {
      t.ops == WakeAll(s.ops, sweep, reason) && t.order == s.order && t.work == s.work
    }

    /** A sweep, after which the lists represent the state the whole section leads to. */
    method SweepTo(ghost s: State, ghost t: State, sweep: Sweep, reason: nat)
      requires Shape(s) && Matched(s.ops) && SweptTo(s, t, sweep, reason)
      modifies contexts.Values`wakeReason, contexts.Values`resume
      ensures Shape(t) && Matched(t.ops)
    {
      hide Shape, Matched, WakeAll;
      WakeListed(s, sweep, reason);
      SameShape(s.(ops := WakeAll(s.ops, sweep, reason)), t);
    }

    method Snapshot(ghost s: State) returns (p: Option<Process>)
      requires Represents(s)
      modifies this`processReferences
      ensures Represents(PendingIo.Snapshot(s)) && p == s.target
    {
      hide Shape, Matched, Globals;
      Seen(s);
      p := target;
      ghost var u := s;
      if p.Some? {
        Reference(s, p.value);
        u := s.(references := s.references + multiset{p.value});
      }
      Unseen(u, PendingIo.Snapshot(s));
    }

    lemma VerdictEffect(s: State, p: Process, exited: bool)
      requires s.worker.Probing? && s.worker.target == p
      ensures var t := PendingIo.Verdict(s, exited);
              && (if s.target == Some(p) && exited
                  then SweptTo(s, t, Targeting(p), 2) && SameControl(PendingIo.Disarm(s), t)
                  else t.ops == s.ops && t.order == s.order && t.work == s.work && SameControl(s, t))
              && t.locals == s.locals + Bag(if s.target == Some(p) && exited then Some(p) else None) + multiset{p}
              && t.workAvailable == s.workAvailable && t.ledger == s.ledger
    {
      hide WakeAll;
    }

    /** The section after the probe: the arm may have been retired meanwhile. */
    method Verdict(ghost s: State, p: Process, exited: bool) returns (retired: Option<Process>)
      requires Represents(s) && s.worker.Probing? && s.worker.target == p
      modifies this`target, this`armedMode, this`armedRemaining, this`armedGeneration,
        contexts.Values`wakeReason, contexts.Values`resume
      ensures Represents(PendingIo.Verdict(s, exited))
      ensures PendingIo.Verdict(s, exited).locals == s.locals + Bag(retired) + multiset{p}
      ensures retired == if exited && s.target == Some(p) then Some(p) else None
    {
      hide Shape, Matched, Globals, SameControl, SweptTo, PendingIo.Verdict, PendingIo.Disarm;
      ghost var t := PendingIo.Verdict(s, exited);
      Seen(s);
      VerdictEffect(s, p, exited);
      retired := None;
      if target == Some(p) && exited {
        retired := Disarm(s);
        SweepTo(s, t, Targeting(p), 2);
        SameGlobalsBy(PendingIo.Disarm(s), t);
      } else {
        SameShape(s, t);
        SameGlobalsBy(s, t);
      }
    }

    lemma ExitSweepEffect(s: State)
      requires s.control.Exiting?
      ensures var t, p := PendingIo.ExitSweep(s), s.control.process;
              && SweptTo(s, t, Targeting(p), 2)
              && SameControl(if s.target == Some(p) then PendingIo.Disarm(s) else s, t)
              && t.locals == s.locals + Bag(if s.target == Some(p) then s.target else None)
              && t.workAvailable == s.workAvailable && t.ledger == s.ledger
    {
      hide WakeAll;
    }

    method ExitSweep(ghost s: State, p: Process) returns (retired: Option<Process>)
      requires Represents(s) && s.control == Exiting(p)
      modifies this`target, this`armedMode, this`armedRemaining, this`armedGeneration,
        contexts.Values`wakeReason, contexts.Values`resume
      ensures Represents(PendingIo.ExitSweep(s)) && PendingIo.ExitSweep(s).locals == s.locals + Bag(retired)
    {
      hide Shape, Matched, Globals, SameControl, SweptTo, PendingIo.ExitSweep, PendingIo.Disarm;
      ghost var t := PendingIo.ExitSweep(s);
      Seen(s);
      ExitSweepEffect(s);
      retired := None;
      if target == Some(p) {
        retired := Disarm(s);
        SameGlobalsBy(PendingIo.Disarm(s), t);
      } else {
        SameGlobalsBy(s, t);
      }
      SweepTo(s, t, Targeting(p), 2);
    }

    lemma StopMarkEffect(s: State)
      ensures var t := PendingIo.StopMark(s);
              && SweptTo(s, t, Everything, 3) && SameControl(s.(stopping := true), t)
              && t.workAvailable && t.ledger == s.ledger
    {
      hide WakeAll;
    }

    method StopMark(ghost s: State)
      requires Represents(s)
      modifies this`stopping, this`workAvailable, contexts.Values`wakeReason, contexts.Values`resume
      ensures Represents(PendingIo.StopMark(s))
    {
      hide Shape, Matched, SweptTo, SameControl, PendingIo.StopMark;
      ghost var t := PendingIo.StopMark(s);
      StopMarkEffect(s);
      stopping := true;
      SameGlobalsBy(s.(stopping := true), t);
      hide Globals;
      SweepTo(s, t, Everything, 3);
      workAvailable := true;
    }

    predicate IdleNow()
      reads `armedMode, `status
    {
      armedMode == NoMode && status.liveContexts == 0 && status.activeWorkers == 0 && status.queueDepth == 0
    }

    method Judge(ghost s: State, id: ClientId, caller: Process, action: Action) returns (answer: Status)
      requires Globals(s) && status == s.ledger
      ensures answer == MessageStatus(s, id, caller, action)
    {
      Seen(s);
      hide Globals;
      if id !in clients || clients[id] != caller {
        answer := AccessDenied;
      } else if stopping {
        answer := Deleting;
      } else if owner != 0 && owner != id {
        answer := DeviceBusy;
      } else if !action.Arm? {
        answer := Success;
      } else if !action.alive {
        answer := TargetExited;
      } else if status.instanceStarts != status.instanceCompletes {
        answer := DeviceBusy;
      } else if status.liveInstances == 0 {
        answer := NotReady;
      } else if !IdleNow() {
        answer := DeviceBusy;
      } else {
        answer := Success;
      }
    }

    lemma ArmEffect(s: State, id: ClientId, caller: Process, action: Action)
      requires MessageStatus(s, id, caller, action) == Success && action.Arm?
      ensures var t := PendingIo.Message(s, id, caller, action);
              && t.ops == s.ops && t.order == s.order && t.work == s.work && t.workAvailable && t.ledger == s.ledger
    {
    }

    method ArmTarget(ghost s: State, id: ClientId, caller: Process, action: Action)
      requires Globals(s) && action.Arm? && MessageStatus(s, id, caller, action) == Success
      modifies this`target, this`armedMode, this`armedRemaining, this`armedGeneration, this`ownerProcess, this`owner,
        this`processReferences
      ensures Globals(PendingIo.Message(s, id, caller, action))
    {
      hide MessageStatus;
      if owner == 0 {
        owner := id;
        ownerProcess := Some(caller);
        processReferences := processReferences + multiset{caller};
      }
      target := Some(action.target);
      armedMode, armedRemaining := action.mode, action.count;
      armedGeneration := topologyGeneration;
    }

    lemma ResumeEffect(s: State, id: ClientId, caller: Process)
      requires MessageStatus(s, id, caller, Resume) == Success
      ensures var t := PendingIo.Message(s, id, caller, Resume);
              SweptTo(s, t, OwnedBy(id), 1) && SameControl(s, t) && t.workAvailable == s.workAvailable
                && t.ledger == s.ledger
    {
      hide WakeAll, MessageStatus;
    }

    lemma QuietEffect(s: State, id: ClientId, caller: Process, action: Action)
      requires MessageStatus(s, id, caller, action) != Success || action == Release
      ensures var t := PendingIo.Message(s, id, caller, action); Alike(s, t) && t.ledger == s.ledger
    {
      hide MessageStatus;
    }

    /** The checking section of a control message; arming and resuming happen in it, a release after it. */
    method Message(ghost s: State, id: ClientId, caller: Process, action: Action) returns (answer: Status)
      requires Represents(s)
      modifies this`target, this`armedMode, this`armedRemaining, this`armedGeneration, this`ownerProcess, this`owner,
        this`workAvailable, this`processReferences, contexts.Values`wakeReason, contexts.Values`resume
      ensures Represents(PendingIo.Message(s, id, caller, action)) && answer == MessageStatus(s, id, caller, action)
    {
      hide Shape, Matched, Globals, SameControl, SweptTo, Alike, MessageStatus, PendingIo.Message;
      ghost var t := PendingIo.Message(s, id, caller, action);
      answer := Judge(s, id, caller, action);
      if answer == Success && action.Arm? {
        ArmEffect(s, id, caller, action);
        ArmTarget(s, id, caller, action);
        workAvailable := true;
        SameShape(s, t);
      } else if answer == Success && action.Resume? {
        ResumeEffect(s, id, caller);
        SameGlobalsBy(s, t);
        SweepTo(s, t, OwnedBy(id), 1);
      } else {
        QuietEffect(s, id, caller, action);
        Unseen(s, t);
      }
    }

    // -------------------------------------------------------------------------------------------
    // Instances
    // -------------------------------------------------------------------------------------------

    lemma SetupEffect(s: State, i: InstanceId, lower: bool)
      ensures var t := PendingIo.SetupInstance(s, i, lower);
              && t.ops == s.ops && t.order == s.order && t.work == s.work
              && t.workAvailable == s.workAvailable && t.ledger == s.ledger
              && t.locals == s.locals + Bag(if s.stopping then None else s.target)
              && SameControl(if s.stopping then s
                             else PendingIo.ChangeTopology(s.(instances := s.instances[i := Instance(lower, false)])),
                             t)
    {
    }

    method SetupInstance(ghost s: State, i: InstanceId, lower: bool)
      returns (accepted: bool, retired: Option<Process>)
      requires Represents(s)
      modifies this`target, this`armedMode, this`armedRemaining, this`armedGeneration, this`topologyGeneration,
        this`instances
      ensures Represents(PendingIo.SetupInstance(s, i, lower)) && accepted == !s.stopping
      ensures PendingIo.SetupInstance(s, i, lower).locals == s.locals + Bag(retired)
      ensures retired == if accepted then s.target else None
    {
      hide Shape, Matched, SameControl, PendingIo.ChangeTopology, PendingIo.SetupInstance;
      ghost var t := PendingIo.SetupInstance(s, i, lower);
      SetupEffect(s, i, lower);
      SameShape(s, t);
      accepted, retired := !stopping, None;
      if accepted {
        ghost var u := s.(instances := s.instances[i := Instance(lower, false)]);
        instances := instances[i := Instance(lower, false)];
        retired := ChangeTopology(u);
        SameGlobalsBy(PendingIo.ChangeTopology(u), t);
      } else {
        SameGlobalsBy(s, t);
      }
      hide Globals;
    }

    lemma TeardownEffect(s: State, i: InstanceId, u: State)
      requires i in s.instances && u == s.(instances := s.instances[i := s.instances[i].(stopping := true)])
      ensures var t := PendingIo.TeardownInstance(s, i);
              && SweptTo(s, t, Inside(i), 3) && t.workAvailable == s.workAvailable
              && t.ledger == s.ledger.(instanceStarts := s.ledger.instanceStarts + 1)
              && t.locals == s.locals + Bag(s.target)
              && SameControl(PendingIo.ChangeTopology(u), t)
    {
      hide WakeAll;
    }

    method StopInstance(ghost s: State, i: InstanceId, ghost u: State)
      requires Globals(s) && i in s.instances
      requires u == s.(instances := s.instances[i := s.instances[i].(stopping := true)])
      modifies this`instances
      ensures Globals(u)
    {
      instances := instances[i := instances[i].(stopping := true)];
    }

    lemma Parts(s: State)
      requires Represents(s)
      ensures Shape(s) && Matched(s.ops) && Globals(s) && status == s.ledger && workAvailable == s.workAvailable
    {
      hide Shape, Matched, Globals;
    }

    lemma Together(t: State)
      requires Shape(t) && Matched(t.ops) && Globals(t) && status == t.ledger && workAvailable == t.workAvailable
      ensures Represents(t)
    {
      hide Shape, Matched, Globals;
    }

    method TeardownInstance(ghost s: State, i: InstanceId) returns (retired: Option<Process>)
      requires Represents(s) && i in s.instances
      modifies this`target, this`armedMode, this`armedRemaining, this`armedGeneration, this`topologyGeneration,
        this`instances, this`status, contexts.Values`wakeReason, contexts.Values`resume
      ensures Represents(PendingIo.TeardownInstance(s, i))
      ensures PendingIo.TeardownInstance(s, i).locals == s.locals + Bag(retired) && retired == s.target
    {
      hide *;
      Parts(s);
      ghost var t := PendingIo.TeardownInstance(s, i);
      ghost var u := s.(instances := s.instances[i := s.instances[i].(stopping := true)]);
      TeardownEffect(s, i, u);
      StopInstance(s, i, u);
      retired := ChangeTopology(u);
      SameGlobalsBy(PendingIo.ChangeTopology(u), t);
      status := status.(instanceStarts := status.instanceStarts + 1);
      SweepTo(s, t, Inside(i), 3);
      Together(t);
    }
  }

  /** RemoveEntryList: the list without this context. */
  function Removed(q: seq<Context>, c: Context): seq<Context> {
    if q == [] then [] else if q[0] == c then q[1..] else [q[0]] + Removed(q[1..], c)
  }

  lemma {:induction false} RemovedLists(q: seq<Context>, ids: seq<OperationId>, c: Context)
    requires Lists(q, ids) && forall k | 0 <= k < |q| && q[k].id == c.id :: q[k] == c
    ensures Lists(Removed(q, c), Without(ids, c.id))
  {
    if q == [] || q[0] == c {
    } else {
      RemovedLists(q[1..], ids[1..], c);
    }
  }

  lemma {:induction false} RemovedMembers(q: seq<Context>, c: Context)
    requires Distinct(q)
    ensures forall d :: d in Removed(q, c) <==> d in q && d != c
    ensures forall k | 0 <= k < |Removed(q, c)| :: Removed(q, c)[k] in q
  {
    if q == [] {
    } else {
      RemovedMembers(q[1..], c);
      assert q == [q[0]] + q[1..];
      assert q[0] !in q[1..];
    }
  }

  lemma {:induction false} RemovedDistinct(q: seq<Context>, c: Context)
    requires Distinct(q)
    ensures Distinct(Removed(q, c))
  {
    if q == [] {
    } else {
      RemovedDistinct(q[1..], c);
      RemovedMembers(q[1..], c);
      assert q[0] !in q[1..];
    }
  }
}
