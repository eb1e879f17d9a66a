/**
The pended-I/O provider of the minifilter fixture as a shared-state protocol.

Every `g_Lock` section and every interlocked operation of the driver is one atomic action. Threads are
modelled by where they stand: the completion worker by `WorkerPc`, the holder of `g_Control` by `Control`,
and the callback thread that owns an operation's logical share by the operation's `Stage`. Filter Manager
is the environment: the guards of the callback actions are exactly what it promises.
*/
module PendingIo {

  import opened Options

  type OperationId = nat
  type DataId = nat
  type FileId = nat
  type Process = nat
  type ClientId = nat
  type InstanceId = nat

  const MAX_CLIENTS := 16
  const MAX_BATCH := 8
  const MAX_CLIENT_ID := 0xFFFF_FFFF_FFFF_FFFF

  datatype Mode =
    | NoMode
    | Pre
    | Post
    | Both
    | DrainPair
    | FailPreQueue
    | FailPostQueue
    | FailAlloc
    | FailReadLock

  /** Who executes the steps of FinishLogical: a Filter Manager callback or the worker. */
  datatype Runner = InCallback | InWorker

  /** What the holder of an operation's logical share does next. */
  datatype Stage =
    | LockBuffer
    | TryPreQueue
    | PassThrough
    | PreQueued
    | PreHeld
    | PreDecided(cancel: bool)
    | AwaitPost
    | TryPostQueue
    | PostQueued
    | PostHeld
    | PostDecided
    | FinishSwap(runner: Runner)
    | FinishCount(runner: Runner, first: bool)
    | FinishDrop(runner: Runner)
    | Done

  /** Linked: on g_Operations. Unlinking: references hit zero, removal pending. Unlinked: removed, not yet freed. */
  datatype Life = Linked | Unlinking | Unlinked

  datatype Operation = Operation(
    references: int,
    logicalReleased: bool,
    instance: InstanceId,
    lower: bool,
    file: FileId,
    target: Process,
    data: Option<DataId>,
    preIdentity: DataId,
    generation: nat,
    owner: ClientId,
    mode: Mode,
    wakeReason: nat,
    resume: bool,
    lowerClaimed: bool,
    postWork: bool,
    read: bool,
    mdl: bool,
    stage: Stage,
    life: Life)

  datatype Instance = Instance(lower: bool, stopping: bool)

  datatype WorkerPc =
    | Starting
    | Watch
    | Probing(target: Process, epoch: nat)
    | Sample
    | Waiting(armed: bool)
    | Draining
    | Holding(op: OperationId, post: bool)
    | Completing(op: OperationId, post: bool, cancel: bool)
    | Finishing(op: OperationId)
    | Dropping(op: OperationId)
    | Freeing(op: OperationId)
    | Tail
    | Terminated

  /** The phase of the thread that holds g_Control between two of its g_Lock sections. */
  datatype Control =
    | Free
    | WorkerWatch
    | Disconnecting(client: ClientId)
    | Exiting(process: Process)
    | StopReleasing
    | MessageReleasing(client: ClientId)
    | Replying(client: ClientId)

  datatype Ledger = Ledger(
    created: nat,
    freed: nat,
    liveContexts: int,
    logicalCompleted: nat,
    queueDepth: int,
    activeWorkers: int,
    preQueued: nat,
    preCompleted: nat,
    preCancelled: nat,
    postCalled: nat,
    postQueued: nat,
    postCompleted: nat,
    bufferLockFailures: nat,
    violations: nat,
    liveInstances: int,
    instanceStarts: nat,
    instanceCompletes: nat)

  /** One hand-over of a callback data to the worker: the pre (or post) of `op` was pended with `data`. */
  datatype Ticket = Ticket(op: OperationId, data: DataId, post: bool)

  datatype State = State(
    ops: map<OperationId, Operation>,
    order: seq<OperationId>,
    work: seq<OperationId>,
    worker: WorkerPc,
    workAvailable: bool,
    control: Control,
    stopping: bool,
    clients: map<ClientId, Process>,
    nextClient: nat,
    owner: ClientId,
    ownerProcess: Option<Process>,
    target: Option<Process>,
    armedMode: Mode,
    armedRemaining: int,
    armedGeneration: nat,
    topologyGeneration: nat,
    instances: map<InstanceId, Instance>,
    ledger: Ledger,
    // Process references the driver holds, and those of them held by locals a thread drops next.
    references: multiset<Process>,
    locals: multiset<Process>,
    // History: what was handed to the worker, what the worker completed, which uppers were claimed,
    // how many arms succeeded, how many reservations the latest one took and what it admitted.
    pended: multiset<Ticket>,
    completed: multiset<Ticket>,
    claims: multiset<OperationId>,
    armEpoch: nat,
    epochLimit: nat,
    epochUppers: nat,
    epochLowers: nat)

  function Initial(): State {
    State(map[], [], [], Starting, false, Free, false, map[], 0, 0, None, None, NoMode, 0, 0, 0, map[],
          Ledger(0, 0, 0, 0, 0, 0, 0, 0, 0, 0, 0, 0, 0, 0, 0, 0, 0),
          multiset{}, multiset{}, multiset{}, multiset{}, multiset{}, 0, 0, 0, 0)
  }

  // ---------------------------------------------------------------------------------------------
  // Shared pieces of the g_Lock sections
  // ---------------------------------------------------------------------------------------------

  function Bag(process: Option<Process>): multiset<Process> {
    match process
    case None => multiset{}
    case Some(p) => multiset{p}
  }

  /** Which listed operations a cancellation sweep wakes. */
  datatype Sweep =
    | OwnedBy(owner: ClientId)
    | Targeting(process: Process)
    | Inside(instance: InstanceId)
    | Everything

  predicate Hit(sweep: Sweep, o: Operation) {
    o.life != Unlinked &&
    match sweep
    case OwnedBy(c) => o.owner == c
    case Targeting(p) => o.target == p
    case Inside(i) => o.instance == i
    case Everything => true
  }

  function Wake(o: Operation, reason: nat): Operation {
    o.(wakeReason := if reason > o.wakeReason then reason else o.wakeReason, resume := true)
  }

  function WakeAll(ops: map<OperationId, Operation>, sweep: Sweep, reason: nat): map<OperationId, Operation> {
    map i | i in ops :: if Hit(sweep, ops[i]) then Wake(ops[i], reason) else ops[i]
  }

  /** Retires the arm; its process reference is left to a local of the caller. */
  function Disarm(s: State): State {
    s.(locals := s.locals + Bag(s.target),
       target := None, armedMode := NoMode, armedRemaining := 0, armedGeneration := 0)
  }

  function ChangeTopology(s: State): State {
    Disarm(s.(topologyGeneration := s.topologyGeneration + 1))
  }

  function ReleaseOwner(s: State): State {
    var d := Disarm(s);
    d.(locals := d.locals + Bag(d.ownerProcess),
       ownerProcess := None,
       ops := WakeAll(d.ops, OwnedBy(d.owner), 2),
       owner := 0)
  }

  predicate PairMode(mode: Mode) {
    mode == DrainPair || mode == FailReadLock
  }

  predicate PostMode(mode: Mode) {
    mode == Post || mode == Both || mode == FailPostQueue
  }

  predicate Pends(lower: bool, mode: Mode) {
    mode == Pre || mode == Both || mode == FailPreQueue || (lower && mode == FailReadLock)
  }

  /** What the pre callback does with the operation it has just published. */
  function FirstStage(lower: bool, mode: Mode, read: bool): Stage {
    if !Pends(lower, mode) then PassThrough else if read then LockBuffer else TryPreQueue
  }

  predicate Queued(stage: Stage) {
    stage == PreQueued || stage == PostQueued
  }

  /** The callback data is inside one of our callbacks, or pended and owned by us. */
  predicate Busy(stage: Stage) {
    match stage
    case AwaitPost => false
    case Done => false
    case FinishSwap(r) => r == InCallback
    case FinishCount(r, _) => r == InCallback
    case FinishDrop(r) => r == InCallback
    case _ => true
  }

  ghost predicate DataIdle(s: State, data: DataId) {
    forall i | i in s.ops && s.ops[i].preIdentity == data :: !Busy(s.ops[i].stage)
  }

  // ---------------------------------------------------------------------------------------------
  // Pre-operation callback
  // ---------------------------------------------------------------------------------------------

  predicate Eligible(s: State, o: Operation, data: DataId, file: FileId, requestor: Process) {
    && PairMode(o.mode)
    && !o.lowerClaimed
    && !o.logicalReleased
    && o.file == file
    && o.target == requestor
    && o.preIdentity == data
    && o.generation == s.topologyGeneration
    && o.owner == s.owner
    && o.wakeReason < 2
  }

  /** The first listed upper context the lower read may claim. */
  function FindPair(s: State, order: seq<OperationId>, data: DataId, file: FileId, requestor: Process)
    : (r: Option<OperationId>)
    ensures r.Some? ==> r.value in order && r.value in s.ops && Eligible(s, s.ops[r.value], data, file, requestor)
    ensures r.None? ==> forall i | i in order && i in s.ops :: !Eligible(s, s.ops[i], data, file, requestor)
  {
    if order == [] then None
    else if order[0] in s.ops && Eligible(s, s.ops[order[0]], data, file, requestor) then Some(order[0])
    else FindPair(s, order[1..], data, file, requestor)
  }

  function NewOperation(instance: InstanceId, lower: bool, file: FileId, target: Process, data: DataId,
                        generation: nat, owner: ClientId, mode: Mode, read: bool): Operation
  {
    Operation(1, false, instance, lower, file, target, None, data, generation, owner, mode, 0, false,
              false, false, read, false, FirstStage(lower, mode, read), Linked)
  }

  /** Allocation and publication, under the same lock as arm consumption. */
  function Publish(s: State, o: Operation, granted: bool): State {
    if !granted then s.(locals := s.locals + multiset{o.target})
    else s.(ops := s.ops[s.ledger.created := o],
            order := s.order + [s.ledger.created],
            ledger := s.ledger.(liveContexts := s.ledger.liveContexts + 1, created := s.ledger.created + 1),
            epochUppers := if o.lower then s.epochUppers else s.epochUppers + 1,
            epochLowers := if o.lower then s.epochLowers + 1 else s.epochLowers)
  }

  predicate AdmitsUpper(s: State, instance: InstanceId, requestor: Process, read: bool)
    requires instance in s.instances
  {
    && !s.stopping && !s.instances[instance].stopping && !s.instances[instance].lower
    && s.armedMode != NoMode && s.target == Some(requestor) && read == PairMode(s.armedMode)
  }

  predicate AdmitsLower(s: State, instance: InstanceId, read: bool)
    requires instance in s.instances
  {
    !s.stopping && !s.instances[instance].stopping && s.instances[instance].lower && read
  }

  /** Consumes one reservation of the arm; the last one takes over the arm's process reference. */
  function Consume(s: State, requestor: Process): State {
    if s.armedRemaining - 1 == 0 then
      s.(armedMode := NoMode, target := None, armedRemaining := 0, armedGeneration := 0)
    else
      s.(armedRemaining := s.armedRemaining - 1, references := s.references + multiset{requestor})
  }

  function Claim(s: State, upper: OperationId, requestor: Process): State
    requires upper in s.ops
  {
    s.(ops := s.ops[upper := s.ops[upper].(lowerClaimed := true)],
       references := s.references + multiset{requestor},
       claims := s.claims + multiset{upper})
  }

  /** The single g_Lock section of the pre-operation callback. */
  function Admit(s: State, data: DataId, instance: InstanceId, requestor: Process, file: FileId,
                 read: bool, granted: bool): State
    requires instance in s.instances
  {
    if AdmitsUpper(s, instance, requestor, read) then
      Publish(Consume(s, requestor),
              NewOperation(instance, false, file, requestor, data, s.armedGeneration, s.owner, s.armedMode, read),
              granted && s.armedMode != FailAlloc)
    else if AdmitsLower(s, instance, read) then
      match FindPair(s, s.order, data, file, requestor)
      case None => s
      case Some(upper) =>
        var u := s.ops[upper];
        Publish(Claim(s, upper, requestor),
                NewOperation(instance, true, file, requestor, data, u.generation, u.owner,
                             if u.mode == FailReadLock then FailReadLock else Pre, read),
                granted)
    else s
  }

  function Set(s: State, i: OperationId, o: Operation): State {
    s.(ops := s.ops[i := o])
  }

  /** The buffer-lock section: an unpinned buffer is never forwarded, the callback finishes the I/O itself. */
  function LockUserBuffer(s: State, i: OperationId, locked: bool): State
    requires i in s.ops
  {
    var o := s.ops[i];
    var ready := locked && o.mode != FailReadLock;
    Set(s, i, o.(mdl := ready || o.mdl, stage := if ready then TryPreQueue else FinishSwap(InCallback)))
    .(ledger := if ready then s.ledger
                else s.ledger.(bufferLockFailures := s.ledger.bufferLockFailures + 1))
  }

  function PassToPost(s: State, i: OperationId): State
    requires i in s.ops
  {
    Set(s, i, s.ops[i].(stage := AwaitPost))
  }

  predicate Refused(s: State, o: Operation, post: bool)
    requires o.instance in s.instances
  {
    s.stopping || s.instances[o.instance].stopping || o.wakeReason >= 2 ||
    o.mode == (if post then FailPostQueue else FailPreQueue)
  }

  /** Queue: hands the data to the worker with a reference of its own, or leaves the callback in charge. */
  function Queue(s: State, i: OperationId, post: bool): State
    requires i in s.ops && s.ops[i].instance in s.instances
  {
    var o := s.ops[i];
    if Refused(s, o, post) then
      Set(s, i, o.(stage := if post then FinishSwap(InCallback) else AwaitPost))
    else
      Set(s, i, o.(references := o.references + 1,
                   data := Some(o.preIdentity),
                   postWork := post,
                   wakeReason := if post then 0 else o.wakeReason,
                   resume := if post then false else o.resume,
                   stage := if post then PostQueued else PreQueued))
      .(work := s.work + [i],
        workAvailable := true,
        pended := s.pended + multiset{Ticket(i, o.preIdentity, post)},
        ledger := s.ledger.(queueDepth := s.ledger.queueDepth + 1,
                            preQueued := if post then s.ledger.preQueued else s.ledger.preQueued + 1,
                            postQueued := if post then s.ledger.postQueued + 1 else s.ledger.postQueued))
  }

  // ---------------------------------------------------------------------------------------------
  // Post-operation callback, FinishLogical and DropReference
  // ---------------------------------------------------------------------------------------------

  function EnterPost(s: State, i: OperationId, draining: bool): State
    requires i in s.ops
  {
    var o := s.ops[i];
    Set(s, i, o.(stage := if !draining && PostMode(o.mode) then TryPostQueue else FinishSwap(InCallback)))
    .(ledger := s.ledger.(postCalled := s.ledger.postCalled + 1))
  }

  function SwapReleased(s: State, i: OperationId): State
    requires i in s.ops && s.ops[i].stage.FinishSwap?
  {
    var o := s.ops[i];
    Set(s, i, o.(logicalReleased := true, stage := FinishCount(o.stage.runner, !o.logicalReleased)))
  }

  function CountReleased(s: State, i: OperationId): State
    requires i in s.ops && s.ops[i].stage.FinishCount?
  {
    var o := s.ops[i];
    Set(s, i, o.(stage := if o.stage.first then FinishDrop(o.stage.runner) else Done))
    .(ledger := if o.stage.first then s.ledger.(logicalCompleted := s.ledger.logicalCompleted + 1)
                else s.ledger.(violations := s.ledger.violations + 1))
  }

  function Drop(o: Operation): Operation {
    o.(references := o.references - 1, life := if o.references - 1 == 0 then Unlinking else o.life)
  }

  function DropLogical(s: State, i: OperationId): State
    requires i in s.ops
  {
    Set(s, i, Drop(s.ops[i]).(stage := Done))
  }

  function Without(order: seq<OperationId>, i: OperationId): (r: seq<OperationId>)
    ensures i !in order ==> r == order
  {
    if order == [] then [] else if order[0] == i then order[1..] else [order[0]] + Without(order[1..], i)
  }

  function Unlink(s: State, i: OperationId): State
    requires i in s.ops
  {
    Set(s, i, s.ops[i].(life := Unlinked))
    .(order := Without(s.order, i),
      ledger := s.ledger.(liveContexts := s.ledger.liveContexts - 1, freed := s.ledger.freed + 1))
  }

  function FreeOperation(s: State, i: OperationId): State
    requires i in s.ops
  {
    s.(ops := s.ops - {i}, references := s.references - multiset{s.ops[i].target})
  }

  // ---------------------------------------------------------------------------------------------
  // The completion worker
  // ---------------------------------------------------------------------------------------------

  /** RetireExitedTarget up to the probe: takes g_Control and a reference on the armed target. */
  function Snapshot(s: State): State {
    match s.target
    case None => s.(worker := Sample)
    case Some(p) =>
      s.(worker := Probing(p, s.armEpoch), control := WorkerWatch, references := s.references + multiset{p})
  }

  function Verdict(s: State, exited: bool): State
    requires s.worker.Probing?
  {
    var p := s.worker.target;
    var d := if s.target == Some(p) && exited
             then Disarm(s.(ops := WakeAll(s.ops, Targeting(p), 2)))
             else s;
    d.(worker := Sample, control := Free, locals := d.locals + multiset{p})
  }

  function WorkerWait(s: State, timedOut: bool): State {
    s.(worker := Draining, workAvailable := if timedOut then s.workAvailable else false)
  }

  /** The section at the head of the drain loop: stop, wait again, or take the oldest work item. */
  function Pop(s: State): State
    requires s.work != [] ==> s.work[0] in s.ops
  {
    if s.work == [] then s.(worker := if s.stopping then Terminated else Watch)
    else
      var i := s.work[0];
      var o := s.ops[i];
      Set(s, i, o.(stage := if o.postWork then PostHeld else PreHeld))
      .(work := s.work[1..],
        worker := Holding(i, o.postWork),
        ledger := s.ledger.(queueDepth := s.ledger.queueDepth - 1, activeWorkers := s.ledger.activeWorkers + 1))
  }

  predicate Cancels(s: State, o: Operation, post: bool, waited: bool)
    requires o.instance in s.instances
  {
    || (!post && o.read && !o.mdl)
    || !waited || o.wakeReason >= 2 || s.stopping || s.instances[o.instance].stopping
  }

  function Decide(s: State, waited: bool): State
    requires s.worker.Holding? && s.worker.op in s.ops && s.ops[s.worker.op].instance in s.instances
  {
    var i, post := s.worker.op, s.worker.post;
    var o := s.ops[i];
    var missing := !post && o.read && !o.mdl;
    var cancel := Cancels(s, o, post, waited);
    var l := if missing then s.ledger.(violations := s.ledger.violations + 1) else s.ledger;
    Set(s, i, o.(stage := if post then PostDecided else PreDecided(cancel)))
    .(worker := Completing(i, post, cancel),
      ledger := if post then l.(postCompleted := l.postCompleted + 1)
                else l.(preCompleted := l.preCompleted + 1,
                        preCancelled := if cancel then l.preCancelled + 1 else l.preCancelled))
  }

  /** The FltCompletePended call: a forwarded pre passes its logical share on to its post. */
  function Complete(s: State): State
    requires s.worker.Completing? && s.worker.op in s.ops && s.ops[s.worker.op].data.Some?
  {
    var i := s.worker.op;
    var o := s.ops[i];
    var finish := s.worker.post || s.worker.cancel;
    Set(s, i, o.(stage := if finish then FinishSwap(InWorker) else AwaitPost))
    .(worker := if finish then Finishing(i) else Dropping(i),
      completed := s.completed + multiset{Ticket(i, o.data.value, s.worker.post)})
  }

  function DropWorker(s: State): State
    requires s.worker.Dropping? && s.worker.op in s.ops
  {
    var i := s.worker.op;
    var o := Drop(s.ops[i]);
    Set(s, i, o).(worker := if o.references == 0 then Freeing(i) else Tail)
  }

  function WorkerTail(s: State): State {
    s.(worker := Draining, ledger := s.ledger.(activeWorkers := s.ledger.activeWorkers - 1))
  }

  // ---------------------------------------------------------------------------------------------
  // Control: clients, owner, arm, process exit, topology and stop
  // ---------------------------------------------------------------------------------------------

  function Connect(s: State, caller: Process): State {
    if s.stopping || s.nextClient >= MAX_CLIENT_ID || |s.clients| >= MAX_CLIENTS then s
    else s.(nextClient := s.nextClient + 1, clients := s.clients[s.nextClient + 1 := caller])
  }

  function DisconnectRelease(s: State, id: ClientId): State {
    (if s.owner == id then ReleaseOwner(s) else s).(control := Disconnecting(id))
  }

  function DisconnectRemove(s: State): State
    requires s.control.Disconnecting?
  {
    s.(clients := s.clients - {s.control.client}, control := Free)
  }

  function LookupProcess(s: State, p: Process): State {
    s.(references := s.references + multiset{p}, locals := s.locals + multiset{p})
  }

  function Dereference(s: State, p: Process): State {
    s.(references := s.references - multiset{p}, locals := s.locals - multiset{p})
  }

  datatype Action = Arm(mode: Mode, target: Process, count: nat, alive: bool) | Resume | Release

  datatype Status = Success | AccessDenied | Deleting | DeviceBusy | TargetExited | NotReady

  predicate Idle(s: State) {
    s.armedMode == NoMode && s.ledger.liveContexts == 0 && s.ledger.activeWorkers == 0 && s.ledger.queueDepth == 0
  }

  function MessageStatus(s: State, id: ClientId, caller: Process, action: Action): Status {
    if id !in s.clients || s.clients[id] != caller then AccessDenied
    else if s.stopping then Deleting
    else if s.owner != 0 && s.owner != id then DeviceBusy
    else if !action.Arm? then Success
    else if !action.alive then TargetExited
    else if s.ledger.instanceStarts != s.ledger.instanceCompletes then DeviceBusy
    else if s.ledger.liveInstances == 0 then NotReady
    else if !Idle(s) then DeviceBusy
    else Success
  }

  /** The request passed validation: a mode, and one reservation or a batch of at most eight. */
  predicate ValidRequest(action: Action) {
    action.Arm? ==> action.mode != NoMode && 1 <= action.count <= MAX_BATCH
  }

  function Message(s: State, id: ClientId, caller: Process, action: Action): State {
    if MessageStatus(s, id, caller, action) != Success then s
    else
      match action
      case Arm(mode, p, count, _) =>
        (if s.owner == 0
         then s.(owner := id, ownerProcess := Some(caller), references := s.references + multiset{caller})
         else s)
        .(target := Some(p), locals := s.locals - multiset{p},
          armedMode := mode, armedRemaining := count, armedGeneration := s.topologyGeneration,
          workAvailable := true, control := Replying(id),
          armEpoch := s.armEpoch + 1, epochLimit := count, epochUppers := 0, epochLowers := 0)
      case Resume => s.(ops := WakeAll(s.ops, OwnedBy(id), 1), control := Replying(id))
      case Release => s.(control := MessageReleasing(id))
  }

  function MessageRelease(s: State): State
    requires s.control.MessageReleasing?
  {
    ReleaseOwner(s).(control := Replying(s.control.client))
  }

  /** A lost reply releases the lease that the request left behind. */
  function Reply(s: State, copied: bool): State
    requires s.control.Replying?
  {
    (if !copied && s.owner == s.control.client then ReleaseOwner(s) else s).(control := Free)
  }

  function ExitRelease(s: State, p: Process): State {
    (if s.ownerProcess == Some(p) then ReleaseOwner(s) else s).(control := Exiting(p))
  }

  function ExitSweep(s: State): State
    requires s.control.Exiting?
  {
    var p := s.control.process;
    var d := if s.target == Some(p) then Disarm(s) else s;
    d.(ops := WakeAll(d.ops, Targeting(p), 2), control := Free)
  }

  function StopMark(s: State): State {
    s.(stopping := true, ops := WakeAll(s.ops, Everything, 3), workAvailable := true, control := StopReleasing)
  }

  function StopRelease(s: State): State {
    ReleaseOwner(s).(control := Free)
  }

  /** The publishing section of instance setup; the allocation of its context is a separate action. */
  function SetupInstance(s: State, i: InstanceId, lower: bool): State {
    if s.stopping then s else ChangeTopology(s.(instances := s.instances[i := Instance(lower, false)]))
  }

  function TeardownInstance(s: State, i: InstanceId): State
    requires i in s.instances
  {
    var d := ChangeTopology(s.(instances := s.instances[i := s.instances[i].(stopping := true)]));
    d.(ops := WakeAll(d.ops, Inside(i), 3),
       ledger := d.ledger.(instanceStarts := d.ledger.instanceStarts + 1))
  }

  function TeardownComplete(s: State): State {
    s.(ledger := s.ledger.(instanceCompletes := s.ledger.instanceCompletes + 1))
  }

  function ContextCount(s: State, delta: int): State {
    s.(ledger := s.ledger.(liveInstances := s.ledger.liveInstances + delta))
  }

  // ---------------------------------------------------------------------------------------------
  // The transition system
  // ---------------------------------------------------------------------------------------------

  datatype Label =
    // Filter Manager callbacks
    | LAdmit(data: DataId, instance: InstanceId, requestor: Process, file: FileId, read: bool, granted: bool)
    | LLockBuffer(op: OperationId, locked: bool)
    | LPass(op: OperationId)
    | LQueue(op: OperationId, post: bool)
    | LEnterPost(op: OperationId, draining: bool)
    // FinishLogical and DropReference, by whichever thread holds the share
    | LSwap(op: OperationId)
    | LCount(op: OperationId)
    | LDropLogical(op: OperationId)
    | LUnlink(op: OperationId)
    | LFree(op: OperationId)
    // Worker
    | LStart
    | LSnapshot
    | LVerdict(exited: bool)
    | LSample
    | LWait(timedOut: bool)
    | LPop
    | LDecide(waited: bool)
    | LComplete
    | LFinished
    | LDropWorker
    | LFreed
    | LTail
    // Control
    | LConnect(caller: Process)
    | LDisconnect(client: ClientId)
    | LDisconnectRemove
    | LLookup(process: Process)
    | LDereference(process: Process)
    | LMessage(client: ClientId, caller: Process, action: Action)
    | LMessageRelease
    | LReply(copied: bool)
    | LExit(process: Process)
    | LExitSweep
    | LStop
    | LStopRelease
    // Instances
    | LContextAllocated
    | LContextCleaned
    | LSetup(instance: InstanceId, lower: bool)
    | LTeardown(instance: InstanceId)
    | LTeardownComplete

  /** The sections of the callbacks, and those of FinishLogical and DropReference by whichever thread runs them. */
  predicate CallbackCode(l: Label) {
    l.LAdmit? || l.LLockBuffer? || l.LPass? || l.LQueue? || l.LEnterPost? || l.LSwap? || l.LCount? || l.LDropLogical?
    || l.LUnlink? || l.LFree?
  }

  /** The sections and interlocked operations of the worker's own code. */
  predicate WorkerCode(l: Label) {
    l.LStart? || l.LSnapshot? || l.LVerdict? || l.LSample? || l.LWait? || l.LPop? || l.LDecide? || l.LComplete?
    || l.LFinished? || l.LDropWorker? || l.LFreed? || l.LTail?
  }

  /** The sections under g_Control, but for the worker's probe. */
  predicate ControlCode(l: Label) {
    l.LConnect? || l.LDisconnect? || l.LDisconnectRemove? || l.LMessage? || l.LMessageRelease? || l.LReply? || l.LExit?
    || l.LExitSweep? || l.LStop? || l.LStopRelease?
  }

  ghost predicate CallbackEnabled(s: State, l: Label) {
    match l
    // Filter Manager never runs two callbacks on one data, nor any on a data we hold pended.
    case LAdmit(data, instance, _, _, _, _) => instance in s.instances && DataIdle(s, data)
    case LLockBuffer(i, _) => i in s.ops && s.ops[i].stage == LockBuffer
    case LPass(i) => i in s.ops && s.ops[i].stage == PassThrough
    case LQueue(i, post) => i in s.ops && s.ops[i].stage == (if post then TryPostQueue else TryPreQueue)
                            && s.ops[i].instance in s.instances
    // A context is given to exactly one post, and only if its pre passed it on.
    case LEnterPost(i, _) => i in s.ops && s.ops[i].stage == AwaitPost && DataIdle(s, s.ops[i].preIdentity)
    case LSwap(i) => i in s.ops && s.ops[i].stage.FinishSwap?
    case LCount(i) => i in s.ops && s.ops[i].stage.FinishCount?
    case LDropLogical(i) => i in s.ops && s.ops[i].stage.FinishDrop?
    case LUnlink(i) => i in s.ops && s.ops[i].life == Unlinking
    case LFree(i) => i in s.ops && s.ops[i].life == Unlinked
    case _ => false
  }

  // A step that is not enabled does not happen.

  ghost function CallbackApply(s: State, l: Label): State {
    if !CallbackEnabled(s, l) then s else
    match l
    case LAdmit(data, instance, requestor, file, read, granted) =>
      Admit(s, data, instance, requestor, file, read, granted)
    case LLockBuffer(i, locked) => LockUserBuffer(s, i, locked)
    case LPass(i) => PassToPost(s, i)
    case LQueue(i, post) => Queue(s, i, post)
    case LEnterPost(i, draining) => EnterPost(s, i, draining)
    case LSwap(i) => SwapReleased(s, i)
    case LCount(i) => CountReleased(s, i)
    case LDropLogical(i) => DropLogical(s, i)
    case LUnlink(i) => Unlink(s, i)
    case LFree(i) => FreeOperation(s, i)
  }

  predicate WorkerEnabled(s: State, l: Label) {
    match l
    case LStart => s.worker == Starting
    case LSnapshot => s.worker == Watch && s.control == Free
    case LVerdict(_) => s.worker.Probing?
    case LSample => s.worker == Sample
    case LWait(timedOut) => s.worker.Waiting? && (if timedOut then s.worker.armed else s.workAvailable)
    case LPop => s.worker == Draining && (s.work != [] ==> s.work[0] in s.ops)
    case LDecide(_) => s.worker.Holding? && s.worker.op in s.ops && s.ops[s.worker.op].instance in s.instances
    case LComplete => s.worker.Completing? && s.worker.op in s.ops && s.ops[s.worker.op].data.Some?
    case LFinished => s.worker.Finishing? && s.worker.op in s.ops && s.ops[s.worker.op].stage == Done
    case LDropWorker => s.worker.Dropping? && s.worker.op in s.ops
    case LFreed => s.worker.Freeing? && s.worker.op !in s.ops
    case LTail => s.worker == Tail
    case _ => false
  }

  function WorkerApply(s: State, l: Label): State {
    if !WorkerEnabled(s, l) then s else
    match l
    case LStart => s.(worker := Watch)
    case LSnapshot => Snapshot(s)
    case LVerdict(exited) => Verdict(s, exited)
    case LSample => s.(worker := Waiting(s.target.Some?))
    case LWait(timedOut) => WorkerWait(s, timedOut)
    case LPop => Pop(s)
    case LDecide(waited) => Decide(s, waited)
    case LComplete => Complete(s)
    case LFinished => s.(worker := Dropping(s.worker.op))
    case LDropWorker => DropWorker(s)
    case LFreed => s.(worker := Tail)
    case LTail => WorkerTail(s)
  }

  predicate ControlEnabled(s: State, l: Label) {
    match l
    case LConnect(_) => s.control == Free
    case LDisconnect(id) => s.control == Free && id != 0
    case LDisconnectRemove => s.control.Disconnecting?
    case LMessage(id, _, action) =>
      s.control == Free && id != 0 && ValidRequest(action) && (action.Arm? ==> action.target in s.locals)
    case LMessageRelease => s.control.MessageReleasing?
    case LReply(_) => s.control.Replying?
    case LExit(_) => s.control == Free
    case LExitSweep => s.control.Exiting?
    case LStop => s.control == Free
    case LStopRelease => s.control == StopReleasing
    case _ => false
  }

  function ControlApply(s: State, l: Label): State {
    if !ControlEnabled(s, l) then s else
    match l
    case LConnect(caller) => Connect(s, caller)
    case LDisconnect(id) => DisconnectRelease(s, id)
    case LDisconnectRemove => DisconnectRemove(s)
    case LMessage(id, caller, action) => Message(s, id, caller, action)
    case LMessageRelease => MessageRelease(s)
    case LReply(copied) => Reply(s, copied)
    case LExit(p) => ExitRelease(s, p)
    case LExitSweep => ExitSweep(s)
    case LStop => StopMark(s)
    case LStopRelease => StopRelease(s)
  }

  predicate SetupEnabled(s: State, l: Label) {
    match l
    case LLookup(_) => true
    case LDereference(p) => p in s.locals
    case LContextAllocated => true
    case LContextCleaned => s.ledger.liveInstances > 0
    case LSetup(i, _) => i !in s.instances
    case LTeardown(i) => i in s.instances
    case LTeardownComplete => true
    case _ => false
  }

  function SetupApply(s: State, l: Label): State {
    if !SetupEnabled(s, l) then s else
    match l
    case LLookup(p) => LookupProcess(s, p)
    case LDereference(p) => Dereference(s, p)
    case LContextAllocated => ContextCount(s, 1)
    case LContextCleaned => ContextCount(s, -1)
    case LSetup(i, lower) => SetupInstance(s, i, lower)
    case LTeardown(i) => TeardownInstance(s, i)
    case LTeardownComplete => TeardownComplete(s)
  }

  ghost predicate Enabled(s: State, l: Label) {
    if CallbackCode(l) then CallbackEnabled(s, l)
    else if WorkerCode(l) then WorkerEnabled(s, l)
    else if ControlCode(l) then ControlEnabled(s, l)
    else SetupEnabled(s, l)
  }

  ghost function Apply(s: State, l: Label): State {
    if CallbackCode(l) then CallbackApply(s, l)
    else if WorkerCode(l) then WorkerApply(s, l)
    else if ControlCode(l) then ControlApply(s, l)
    else SetupApply(s, l)
  }
}
