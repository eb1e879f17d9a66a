/**
The managed callback control of the minifilter fixture: two counting bodies that one client at a time may pause.

Every g_State section and every rundown operation is one
atomic action; whoever holds g_Control stands where `control` says, and the callback threads that have got past
their first section are the multiset `threads`.
*/
module ManagedCallbacks {

  import opened Options

  type ClientId = nat
  type Process = nat

  const MAX_CLIENTS := 16
  const MAX_CLIENT_ID := 0xFFFF_FFFF_FFFF_FFFF

  datatype Body = PreBody | PostBody

  /** A two-bit mask. */
  datatype Mask = Mask(pre: bool, post: bool) {
    predicate Has(b: Body) {
      if b == PreBody then pre else post
    }

    function Minus(m: Mask): Mask {
      Mask(pre && !m.pre, post && !m.post)
    }

    function Plus(m: Mask): Mask {
      Mask(pre || m.pre, post || m.post)
    }

    predicate Disjoint(m: Mask) {
      !(pre && m.pre) && !(post && m.post)
    }
  }

  const NEITHER := Mask(false, false)
  const BOTH := Mask(true, true)

  function Bit(b: Body): Mask {
    Mask(b == PreBody, b == PostBody)
  }

  datatype PerBody<T> = PerBody(pre: T, post: T) {
    function At(b: Body): T {
      if b == PreBody then pre else post
    }

    function With(b: Body, x: T): PerBody<T> {
      if b == PreBody then this.(pre := x) else this.(post := x)
    }
  }

  /** EX_RUNDOWN_REF: closed once a wait for its release has begun, until it is initialised again. */
  datatype Rundown = Rundown(closed: bool, count: int)

  /** A callback held before its body, inside it, or past it with its rundown reference still to release. */
  datatype Thread = HeldBefore(body: Body) | Inside(body: Body, held: bool) | Leaving(body: Body)

  datatype Request =
    | Disable(mask: Mask)
    | Enable(mask: Mask)
    | Hold(mask: Mask, process: Process, beforeBody: bool)
    | Release

  /** Who runs ReleaseOwner. */
  datatype Caller =
    | OnExit
    | OnDisconnect(client: ClientId)
    | OnRelease(client: ClientId, before: Mask)
    | OnLostReply
    | OnStop

  /** Why SetEnabled runs. */
  datatype Purpose =
    | ForRequest(client: ClientId, request: Request, before: Mask)
    | ForPause(caller: Caller)
    | ForRestore(caller: Caller)
    | ForStop

  datatype Control =
    | Free
    | Granted(client: ClientId, process: Process, request: Request, before: Mask)
    | Applying(client: ClientId, request: Request, before: Mask)
    | Switching(purpose: Purpose, desired: Mask, disable: Mask, enable: Mask, index: nat, waiting: bool)
    | Answering(client: ClientId, request: Request, before: Mask)
    | Releasing(caller: Caller)
    | Pausing(caller: Caller)
    | Restoring(caller: Caller)
    | Disowning(caller: Caller)
    | Removing(client: ClientId)
    | StopPausing

  datatype State = State(
    enabled: Mask,
    draining: Mask,
    active: PerBody<int>,
    rundown: PerBody<Rundown>,
    generation: nat,
    stopping: bool,
    holdMask: Mask,
    holdProcess: Process,
    holdBefore: bool,
    holdEntered: nat,
    holdCompleted: nat,
    clients: map<ClientId, Process>,
    nextClient: nat,
    owner: ClientId,
    ownerProcess: Option<Process>,
    control: Control,
    threads: multiset<Thread>)

  function Initial(): State {
    State(BOTH, NEITHER, PerBody(0, 0), PerBody(Rundown(false, 0), Rundown(false, 0)), 0, false, NEITHER, 0, false,
          0, 0, map[], 0, 0, None, Free, multiset{})
  }

  // ---------------------------------------------------------------------------------------------
  // Callback bodies
  // ---------------------------------------------------------------------------------------------

  /** TestHoldBeforeBody up to its delay. */
  function HoldBefore(s: State, b: Body, process: Process): State {
    if !s.stopping && s.holdBefore && s.holdMask == Bit(b) && process == s.holdProcess then
      s.(holdMask := NEITHER, holdEntered := s.holdEntered + 1, threads := s.threads + multiset{HeldBefore(b)})
    else s
  }

  function HoldBeforeDone(s: State, b: Body): State {
    s.(holdCompleted := s.holdCompleted + 1, threads := s.threads - multiset{HeldBefore(b)})
  }

  predicate Acquires(s: State, b: Body) {
    s.enabled.Has(b) && !s.rundown.At(b).closed
  }

  predicate HoldsInside(s: State, b: Body, process: Process) {
    !s.holdBefore && s.holdMask == Bit(b) && process == s.holdProcess
  }

  /** The first section of RunBody: the mask is tested and the rundown acquired under one lock. */
  function EnterBody(s: State, b: Body, process: Process): State {
    if !Acquires(s, b) then s
    else
      var held := HoldsInside(s, b, process);
      var r := s.rundown.At(b);
      s.(active := s.active.With(b, s.active.At(b) + 1),
         rundown := s.rundown.With(b, r.(count := r.count + 1)),
         holdMask := if held then NEITHER else s.holdMask,
         holdEntered := if held then s.holdEntered + 1 else s.holdEntered,
         threads := s.threads + multiset{Inside(b, held)})
  }

  function LeaveBody(s: State, b: Body, held: bool): State {
    s.(active := s.active.With(b, s.active.At(b) - 1),
       holdCompleted := if held then s.holdCompleted + 1 else s.holdCompleted,
       threads := s.threads - multiset{Inside(b, held)} + multiset{Leaving(b)})
  }

  function ReleaseRundown(s: State, b: Body): State {
    var r := s.rundown.At(b);
    s.(rundown := s.rundown.With(b, r.(count := r.count - 1)), threads := s.threads - multiset{Leaving(b)})
  }

  // ---------------------------------------------------------------------------------------------
  // SetEnabled
  // ---------------------------------------------------------------------------------------------

  /** The first section: what is to be paused stops admitting bodies at once. */
  function Mark(s: State, purpose: Purpose, desired: Mask): State {
    var disable, enable := s.enabled.Minus(desired), desired.Minus(s.enabled);
    s.(enabled := s.enabled.Minus(disable), draining := s.draining.Plus(disable),
       control := Switching(purpose, desired, disable, enable, 0, false))
  }

  function BodyAt(index: nat): Body {
    if index == 0 then PreBody else PostBody
  }

  /** The thread waits in ExWaitForRundownProtectionRelease for a body still inside. */
  predicate Blocked(s: State) {
    s.control.Switching? && s.control.index < 2 && s.control.waiting && s.rundown.At(BodyAt(s.control.index)).count != 0
  }

  /** One iteration of the loop over the two rundown references; a wait closes the reference first. */
  function SwitchBody(s: State): State
    requires s.control.Switching? && s.control.index < 2
  {
    var c := s.control;
    var b := BodyAt(c.index);
    if c.disable.Has(b) && !c.waiting then
      s.(rundown := s.rundown.With(b, s.rundown.At(b).(closed := true)), control := c.(waiting := true))
    else if c.enable.Has(b) then
      s.(rundown := s.rundown.With(b, Rundown(false, 0)), control := c.(index := c.index + 1, waiting := false))
    else
      s.(control := c.(index := c.index + 1, waiting := false))
  }

  function AfterSwitch(purpose: Purpose): Control {
    match purpose
    case ForRequest(client, request, before) => Answering(client, request, before)
    case ForPause(caller) => Restoring(caller)
    case ForRestore(caller) => Disowning(caller)
    case ForStop => Free
  }

  /** The last section. */
  function Commit(s: State): State
    requires s.control.Switching?
  {
    var c := s.control;
    s.(draining := s.draining.Minus(c.disable), enabled := s.enabled.Plus(c.enable),
       generation := if c.disable.Plus(c.enable) != NEITHER then s.generation + 1 else s.generation,
       control := AfterSwitch(c.purpose))
  }

  // ---------------------------------------------------------------------------------------------
  // The holder of g_Control
  // ---------------------------------------------------------------------------------------------

  function AfterRelease(caller: Caller): Control {
    match caller
    case OnExit => Free
    case OnDisconnect(client) => Removing(client)
    case OnRelease(client, before) => Answering(client, Release, before)
    case OnLostReply => Free
    case OnStop => StopPausing
  }

  /** ReleaseOwner returns at once if there is no owner. */
  function StartRelease(s: State, caller: Caller): State {
    s.(control := if s.owner == 0 then AfterRelease(caller) else Releasing(caller))
  }

  function Take(s: State): State
    requires s.control.Granted?
  {
    var c := s.control;
    s.(owner := if s.owner == 0 then c.client else s.owner,
       ownerProcess := if s.owner == 0 then Some(c.process) else s.ownerProcess,
       control := Applying(c.client, c.request, c.before))
  }

  function Wanted(request: Request, before: Mask): Mask {
    match request
    case Disable(mask) => before.Minus(mask)
    case Enable(mask) => before.Plus(mask)
    case _ => before
  }

  function ApplyRequest(s: State): State
    requires s.control.Applying?
  {
    var c := s.control;
    if c.request.Hold? then
      s.(holdMask := c.request.mask, holdProcess := c.request.process, holdBefore := c.request.beforeBody,
         control := Answering(c.client, c.request, c.before))
    else Mark(s, ForRequest(c.client, c.request, c.before), Wanted(c.request, c.before))
  }

  /** What the thread that holds g_Control does next; while it waits, and while nobody holds the lock, nothing. */
  function Advance(s: State): State {
    if Blocked(s) then s else
    match s.control
    case Free => s
    case Granted(_, _, _, _) => Take(s)
    case Applying(_, _, _) => ApplyRequest(s)
    case Switching(_, _, _, _, index, _) => if index < 2 then SwitchBody(s) else Commit(s)
    case Releasing(caller) => s.(holdMask := NEITHER, control := Pausing(caller))
    case Pausing(caller) => Mark(s, ForPause(caller), NEITHER)
    case Restoring(caller) => if s.stopping then s.(control := Disowning(caller)) else Mark(s, ForRestore(caller), BOTH)
    case Answering(_, _, _) => s
    case Disowning(caller) => s.(owner := 0, ownerProcess := None, control := AfterRelease(caller))
    case Removing(client) => s.(clients := s.clients - {client}, control := Free)
    case StopPausing => Mark(s, ForStop, NEITHER)
  }

  // ---------------------------------------------------------------------------------------------
  // Entry points
  // ---------------------------------------------------------------------------------------------

  function Connect(s: State, caller: Process): State {
    if s.stopping || s.nextClient >= MAX_CLIENT_ID || |s.clients| >= MAX_CLIENTS then s
    else s.(nextClient := s.nextClient + 1, clients := s.clients[s.nextClient + 1 := caller])
  }

  function Disconnect(s: State, id: ClientId): State {
    if s.owner == id then StartRelease(s, OnDisconnect(id)) else s.(control := Removing(id))
  }

  function ProcessExit(s: State, process: Process): State {
    if s.ownerProcess == Some(process) then StartRelease(s, OnExit) else s
  }

  datatype Status = Success | AccessDenied | Deleting | RevisionMismatch | DeviceBusy

  predicate ValidRequest(request: Request) {
    match request
    case Disable(mask) => mask != NEITHER
    case Enable(mask) => mask != NEITHER
    case Hold(mask, _, _) => mask != NEITHER && mask != BOTH
    case Release => true
  }

  function MessageStatus(s: State, id: ClientId, caller: Process, matches: bool): Status {
    if id !in s.clients || s.clients[id] != caller then AccessDenied
    else if s.stopping then Deleting
    else if !matches then RevisionMismatch
    else if s.owner != 0 && s.owner != id then DeviceBusy
    else Success
  }

  /** A control message up to the test of the lease; `matches` says whether it names the running filter. */
  function Message(s: State, id: ClientId, caller: Process, request: Request, matches: bool): State {
    if MessageStatus(s, id, caller, matches) != Success then s
    else if request.Release? then StartRelease(s, OnRelease(id, s.enabled))
    else s.(control := Granted(id, caller, request, s.enabled))
  }

  /** A lost reply must not leave an unacknowledged pause behind. */
  function Reply(s: State, copied: bool): State
    requires s.control.Answering?
  {
    if !copied && s.owner == s.control.client then StartRelease(s, OnLostReply) else s.(control := Free)
  }

  function Stop(s: State): State {
    StartRelease(s.(stopping := true, holdMask := NEITHER), OnStop)
  }

  // ---------------------------------------------------------------------------------------------
  // The transition system
  // ---------------------------------------------------------------------------------------------

  datatype Label =
    | LHoldBefore(body: Body, process: Process)
    | LHoldBeforeDone(body: Body)
    | LEnter(body: Body, process: Process)
    | LLeave(body: Body, held: bool)
    | LReleaseRundown(body: Body)
    | LConnect(caller: Process)
    | LDisconnect(client: ClientId)
    | LExit(process: Process)
    | LMessage(client: ClientId, caller: Process, request: Request, matches: bool)
    | LReply(copied: bool)
    | LStop
    | LAdvance

  predicate Enabled(s: State, l: Label) {
    match l
    case LHoldBefore(_, _) => true
    case LHoldBeforeDone(b) => HeldBefore(b) in s.threads
    case LEnter(_, _) => true
    case LLeave(b, held) => Inside(b, held) in s.threads
    case LReleaseRundown(b) => Leaving(b) in s.threads
    case LConnect(_) => s.control == Free
    case LDisconnect(id) => s.control == Free && id != 0
    case LExit(_) => s.control == Free
    case LMessage(id, _, request, _) => s.control == Free && id != 0 && ValidRequest(request)
    case LReply(_) => s.control.Answering?
    case LStop => s.control == Free
    case LAdvance => s.control != Free && !s.control.Answering? && !Blocked(s)
  }

  /** A step that is not enabled does not happen. */
  function Apply(s: State, l: Label): State {
    if !Enabled(s, l) then s else
    match l
    case LHoldBefore(b, process) => HoldBefore(s, b, process)
    case LHoldBeforeDone(b) => HoldBeforeDone(s, b)
    case LEnter(b, process) => EnterBody(s, b, process)
    case LLeave(b, held) => LeaveBody(s, b, held)
    case LReleaseRundown(b) => ReleaseRundown(s, b)
    case LConnect(caller) => Connect(s, caller)
    case LDisconnect(id) => Disconnect(s, id)
    case LExit(process) => ProcessExit(s, process)
    case LMessage(id, caller, request, matches) => Message(s, id, caller, request, matches)
    case LReply(copied) => Reply(s, copied)
    case LStop => Stop(s)
    case LAdvance => Advance(s)
  }

  /** What an unlocked query copies out of the status block. */
  datatype Snapshot = Snapshot(enabled: Mask, draining: Mask, active: PerBody<int>, generation: nat, owner: ClientId)

  function Query(s: State): Snapshot {
    Snapshot(s.enabled, s.draining, s.active, s.generation, s.owner)
  }
}
