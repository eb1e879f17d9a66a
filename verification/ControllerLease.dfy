/**
The exclusive lease of the driver's device and the notification callbacks that must not outlive it.

Every section of the owner lock and every registration call is one atomic action. A request on a handle is in
flight until it is answered, and the I/O manager closes a handle only when no request on it is in flight.
*/
module ControllerLease {

  import opened Options

  type Handle = nat
  type Pid = nat

  datatype Callbacks = Callbacks(process: bool, image: bool, thread: bool) {
    predicate All() {
      process && image && thread
    }

    predicate None() {
      !process && !image && !thread
    }
  }

  datatype Kind = ProcessKind | ImageKind | ThreadKind

  predicate On(c: Callbacks, kind: Kind) {
    match kind
    case ProcessKind => c.process
    case ImageKind => c.image
    case ThreadKind => c.thread
  }

  /** What the holder of the timeline control lock does once its callbacks are off. */
  datatype After = Answer | Register | Forget

  /** Where the holder of the timeline control lock stands. */
  datatype Holder =
    | Nobody
    | Begun(handle: Handle)
    | Registering(handle: Handle, step: nat)
    | Unregistering(handle: Handle, step: nat, after: After)

  /** The thread that closed the last handle, until it lets new owners in. */
  datatype Closer = NoCloser | Waiting | Stopping | Leaving

  datatype State = State(
    contexts: map<Handle, Pid>,
    requests: multiset<Handle>,
    ownerPid: Pid,
    openCount: nat,
    closing: bool,
    holder: Holder,
    closer: Closer,
    callbacks: Callbacks,
    enabled: bool)

  const NO_CALLBACKS := Callbacks(false, false, false)

  function Initial(): State {
    State(map[], multiset{}, 0, 0, false, Nobody, NoCloser, NO_CALLBACKS, false)
  }

  // ---------------------------------------------------------------------------------------------
  // The lease
  // ---------------------------------------------------------------------------------------------

  predicate Busy(s: State, pid: Pid) {
    s.closing || (s.ownerPid != 0 && s.ownerPid != pid)
  }

  function Create(s: State, h: Handle, pid: Pid): State {
    if Busy(s, pid) then s
    else s.(ownerPid := pid, openCount := s.openCount + 1, contexts := s.contexts[h := pid])
  }

  /** The context leaves the file object; the last one closes the door behind its owner. */
  function Close(s: State, h: Handle): State
    requires h in s.contexts
  {
    var mine := s.ownerPid == s.contexts[h];
    var count := if mine && s.openCount > 0 then s.openCount - 1 else s.openCount;
    var last := mine && count == 0;
    s.(contexts := s.contexts - {h}, openCount := count, closing := s.closing || last,
       closer := if last then Waiting else s.closer)
  }

  /** The end of the last close: the door opens again. */
  function Open(s: State): State {
    s.(ownerPid := 0, closing := false, closer := NoCloser)
  }

  // ---------------------------------------------------------------------------------------------
  // Registration
  // ---------------------------------------------------------------------------------------------

  function Answered(s: State, h: Handle): State {
    s.(holder := Nobody, requests := s.requests - multiset{h})
  }

  /** START with a ring: everything registered needs enabling only, something registered goes off first. */
  function BeginRegister(s: State): State
    requires s.holder.Begun?
  {
    var h := s.holder.handle;
    if s.callbacks.All() then Answered(s.(enabled := true), h)
    else if !s.callbacks.None() then s.(holder := Unregistering(h, 0, Register))
    else s.(holder := Registering(h, 0))
  }

  function RegisterNext(s: State, granted: bool): State
    requires s.holder.Registering?
  {
    var h, step := s.holder.handle, s.holder.step;
    if !granted then
      if step == 0 then Answered(s, h) else s.(holder := Unregistering(h, 0, Answer))
    else if step == 0 then s.(callbacks := s.callbacks.(process := true), holder := Registering(h, 1))
    else if step == 1 then s.(callbacks := s.callbacks.(image := true), holder := Registering(h, 2))
    else Answered(s.(callbacks := s.callbacks.(thread := true), enabled := true), h)
  }

  function UnregisterNext(s: State): State
    requires s.holder.Unregistering?
  {
    var u := s.holder;
    if u.step == 0 then s.(enabled := false, holder := u.(step := 1))
    else if u.step == 1 then s.(callbacks := s.callbacks.(thread := false), holder := u.(step := 2))
    else if u.step == 2 then s.(callbacks := s.callbacks.(process := false), holder := u.(step := 3))
    else
      var t := s.(callbacks := s.callbacks.(image := false));
      match u.after
      case Answer => Answered(t, u.handle)
      case Register => t.(holder := Registering(u.handle, 0))
      case Forget => t.(holder := Nobody, closer := Leaving)
  }

  // ---------------------------------------------------------------------------------------------
  // The transition system
  // ---------------------------------------------------------------------------------------------

  datatype Label =
    | LCreate(handle: Handle, pid: Pid)
    | LClose(handle: Handle)
    | LRequest(handle: Handle)
    | LRefuse(handle: Handle)
    | LTakeLock(handle: Handle)
    | LStart(ring: bool)
    | LStop
    | LRegister(granted: bool)
    | LUnregister
    | LCloserLock
    | LOpen
    | LNotify(kind: Kind)

  predicate Enabled(s: State, l: Label) {
    match l
    case LCreate(h, pid) => h !in s.contexts && pid != 0
    case LClose(h) => h in s.contexts && h !in s.requests
    case LRequest(h) => h in s.contexts
    // Denied, malformed or interrupted before it gets the lock.
    case LRefuse(h) => s.requests[h] > (if Holds(s.holder, h) then 1 else 0)
    case LTakeLock(h) => h in s.requests && s.holder == Nobody
    case LStart(_) => s.holder.Begun?
    case LStop => s.holder.Begun?
    case LRegister(_) => s.holder.Registering?
    case LUnregister => s.holder.Unregistering?
    case LCloserLock => s.closer == Waiting && s.holder == Nobody
    case LOpen => s.closer == Leaving
    case LNotify(kind) => On(s.callbacks, kind)
  }

  /** A request on this handle holds the timeline control lock. */
  predicate Holds(holder: Holder, h: Handle) {
    holder != Nobody && !(holder.Unregistering? && holder.after == Forget) && holder.handle == h
  }

  /** A step that is not enabled does not happen. */
  function Apply(s: State, l: Label): State {
    if !Enabled(s, l) then s else
    match l
    case LCreate(h, pid) => Create(s, h, pid)
    case LClose(h) => Close(s, h)
    case LRequest(h) => s.(requests := s.requests + multiset{h})
    case LRefuse(h) => s.(requests := s.requests - multiset{h})
    case LTakeLock(h) => s.(holder := Begun(h))
    case LStart(ring) => if ring then BeginRegister(s) else Answered(s, s.holder.handle)
    case LStop => s.(holder := Unregistering(s.holder.handle, 0, Answer))
    case LRegister(granted) => RegisterNext(s, granted)
    case LUnregister => UnregisterNext(s)
    case LCloserLock => s.(holder := Unregistering(0, 0, Forget), closer := Stopping)
    case LOpen => Open(s)
    case LNotify(_) => s
  }

  // ---------------------------------------------------------------------------------------------
  // Invariant
  // ---------------------------------------------------------------------------------------------

  ghost predicate LeaseFits(s: State) {
    && s.openCount == |s.contexts|
    && (forall h | h in s.contexts :: s.contexts[h] == s.ownerPid)
    && (forall h | h in s.requests :: h in s.contexts)
    && (s.closing <==> s.closer != NoCloser)
    && (s.closing ==> s.ownerPid != 0 && s.contexts == map[])
    && (s.ownerPid != 0 ==> s.closing || s.contexts != map[])
    && (s.ownerPid == 0 ==> s.contexts == map[])
  }

  /** All three registered and collecting, or none and not. */
  predicate Whole(callbacks: Callbacks, enabled: bool) {
    (callbacks.All() && enabled) || (callbacks.None() && !enabled)
  }

  /** Callbacks and flag follow from where the holder of the lock stands. */
  predicate HolderFits(s: State) {
    match s.holder
    case Nobody => Whole(s.callbacks, s.enabled) && s.closer != Stopping
    case Begun(h) => Whole(s.callbacks, s.enabled) && h in s.requests
    case Registering(h, step) =>
      && h in s.requests && step <= 2 && !s.enabled
      && s.callbacks == Callbacks(step >= 1, step >= 2, false)
    case Unregistering(h, step, after) =>
      && step <= 3 && (step >= 1 ==> !s.enabled)
      && (step >= 2 ==> !s.callbacks.thread) && (step >= 3 ==> !s.callbacks.process)
      && (if after == Forget then s.closer == Stopping else h in s.requests)
  }

  predicate CloserFits(s: State) {
    && (s.closer == Stopping ==> s.holder.Unregistering? && s.holder.after == Forget)
    && (s.closer == Leaving || s.ownerPid == 0 ==> s.holder == Nobody && s.callbacks.None() && !s.enabled)
  }

  ghost predicate Invariant(s: State) {
    LeaseFits(s) && HolderFits(s) && CloserFits(s)
  }

  lemma CloseKeeps(s: State, h: Handle)
    requires Invariant(s) && h in s.contexts && h !in s.requests
    ensures Invariant(Close(s, h))
  {
    var t := Close(s, h);
    assert |s.contexts - {h}| == |s.contexts| - 1 by {
      assert s.contexts.Keys - {h} == (s.contexts - {h}).Keys;
    }
    assert t.openCount == 0 <==> t.contexts == map[];
  }

  lemma CreateKeeps(s: State, h: Handle, pid: Pid)
    requires Invariant(s) && h !in s.contexts && pid != 0
    ensures Invariant(Create(s, h, pid))
  {
    assert |s.contexts[h := pid]| == |s.contexts| + 1;
    assert h in s.contexts[h := pid];
  }

  lemma StartKeeps(s: State)
    requires Invariant(s) && s.holder.Begun?
    ensures Invariant(BeginRegister(s))
  {
  }

  lemma StopKeeps(s: State)
    requires Invariant(s) && s.holder.Begun?
    ensures Invariant(Apply(s, LStop)) && Invariant(Answered(s, s.holder.handle))
  {
  }

  lemma RegisterKeeps(s: State, granted: bool)
    requires Invariant(s) && s.holder.Registering?
    ensures Invariant(RegisterNext(s, granted))
  {
  }

  lemma UnregisterKeeps(s: State)
    requires Invariant(s) && s.holder.Unregistering?
    ensures Invariant(UnregisterNext(s))
  {
  }

  lemma ApplyKeeps(s: State, l: Label)
    requires Invariant(s) && Enabled(s, l)
    ensures Invariant(Apply(s, l))
  {
    match l
    case LCreate(h, pid) => CreateKeeps(s, h, pid);
    case LClose(h) => CloseKeeps(s, h);
    case LStart(ring) =>
      if ring {
        StartKeeps(s);
      } else {
        StopKeeps(s);
      }
    case LStop => StopKeeps(s);
    case LRegister(granted) => RegisterKeeps(s, granted);
    case LUnregister => UnregisterKeeps(s);
    case _ =>
  }

  datatype Run = Run(states: seq<State>, labels: seq<Label>)

  ghost predicate IsRun(r: Run) {
    && |r.states| == |r.labels| + 1 && r.states[0] == Initial()
    && forall k | 0 <= k < |r.labels| ::
         Enabled(r.states[k], r.labels[k]) && r.states[k + 1] == Apply(r.states[k], r.labels[k])
  }

  lemma {:induction false} RunKeeps(r: Run, k: nat)
    requires IsRun(r) && k < |r.states|
    ensures Invariant(r.states[k])
  {
    if k == 0 {
    } else {
      RunKeeps(r, k - 1);
      ApplyKeeps(r.states[k - 1], r.labels[k - 1]);
    }
  }

  // ---------------------------------------------------------------------------------------------
  // What every run guarantees
  // ---------------------------------------------------------------------------------------------

  /** The door lets this process in. */
  predicate LetsIn(s: State, pid: Pid) {
    !s.closing && (s.ownerPid == 0 || s.ownerPid == pid)
  }

  /** A create that is let in makes its process the owner; the close of the last context closes the door. */
  predicate DoorChange(s: State, l: Label, t: State) {
    match l
    case LCreate(h, pid) =>
      if LetsIn(s, pid) then
        t.contexts == s.contexts[h := pid] && t.openCount == s.openCount + 1 && t.ownerPid == pid && !t.closing
      else SameDoor(s, t)
    case LClose(h) =>
      && t.contexts == s.contexts - {h} && t.openCount == s.openCount - 1 && t.ownerPid == s.ownerPid
      && (t.closing <==> t.contexts == map[])
    case LOpen => t.contexts == map[] && t.openCount == 0 && t.ownerPid == 0 && !t.closing
    case _ => SameDoor(s, t)
  }

  predicate SameDoor(s: State, t: State) {
    t.contexts == s.contexts && t.openCount == s.openCount && t.ownerPid == s.ownerPid && t.closing == s.closing
  }

  /** Each registration that the kernel grants sets one of them, each turn of an unregistration clears one. */
  predicate CallbackChange(s: State, l: Label, t: State) {
    var on := l == LRegister(true) && s.holder.Registering?;
    var off := l == LUnregister && s.holder.Unregistering?;
    && (t.callbacks.process <==> (on && s.holder.step == 0) || (s.callbacks.process && !(off && s.holder.step == 2)))
    && (t.callbacks.image <==> (on && s.holder.step == 1) || (s.callbacks.image && !(off && s.holder.step == 3)))
    && (t.callbacks.thread <==> (on && s.holder.step == 2) || (s.callbacks.thread && !(off && s.holder.step == 1)))
  }

  /** Collecting begins once all three are registered and ends before any of them goes. */
  predicate CollectChange(s: State, l: Label, t: State) {
    t.enabled <==>
    || (l == LStart(true) && s.callbacks == Callbacks(true, true, true))
    || (l == LRegister(true) && s.holder.Registering? && s.holder.step == 2)
    || (s.enabled && !(l == LUnregister && s.holder.Unregistering? && s.holder.step == 0))
  }

  /** The request on this handle is answered, and the lock is free again. */
  predicate IsAnswered(s: State, t: State, h: Handle) {
    t.holder == Nobody && t.requests == s.requests - multiset{h}
  }

  /** What START and STOP lead to, and what a registration that the kernel refuses or completes leads to. */
  predicate CourseChange(s: State, l: Label, t: State) {
    match l
    case LStart(ring) =>
      s.holder.Begun? ==>
        var h := s.holder.handle;
        if !ring || s.callbacks == Callbacks(true, true, true) then IsAnswered(s, t, h)
        else if s.callbacks == Callbacks(false, false, false) then t.holder == Registering(h, 0)
        else t.holder == Unregistering(h, 0, Register)
    case LStop => s.holder.Begun? ==> t.holder == Unregistering(s.holder.handle, 0, Answer)
    case LRegister(granted) =>
      s.holder.Registering? ==>
        var h, step := s.holder.handle, s.holder.step;
        if granted && step < 2 then t.holder == Registering(h, step + 1)
        else if granted || step == 0 then IsAnswered(s, t, h)
        else t.holder == Unregistering(h, 0, Answer)
    case LUnregister =>
      s.holder.Unregistering? ==>
        var h, step := s.holder.handle, s.holder.step;
        if step < 3 then t.holder == Unregistering(h, step + 1, s.holder.after)
        else if s.holder.after == Answer then IsAnswered(s, t, h)
        else if s.holder.after == Register then t.holder == Registering(h, 0)
        else t.holder == Nobody && t.closer == Leaving
    case _ => true
  }

  predicate Changes(s: State, l: Label, t: State) {
    DoorChange(s, l, t) && CallbackChange(s, l, t) && CollectChange(s, l, t) && CourseChange(s, l, t)
  }

  lemma DoorSteps(s: State, l: Label)
    requires Invariant(s) && Enabled(s, l) && (l.LCreate? || l.LClose? || l.LOpen?)
    ensures Changes(s, l, Apply(s, l))
  {
    if l.LClose? {
      assert s.contexts.Keys - {l.handle} == (s.contexts - {l.handle}).Keys;
      assert |s.contexts - {l.handle}| == |s.contexts| - 1;
    }
    hide BeginRegister, RegisterNext, UnregisterNext;
  }

  lemma RegisterSteps(s: State, granted: bool)
    requires HolderFits(s) && s.holder.Registering?
    ensures Changes(s, LRegister(granted), RegisterNext(s, granted))
  {
  }

  lemma TurnSteps(s: State)
    requires s.holder.Unregistering? && s.holder.step < 3
    ensures Changes(s, LUnregister, UnregisterNext(s))
  {
  }

  lemma LastTurnSteps(s: State)
    requires s.holder.Unregistering? && s.holder.step == 3
    ensures Changes(s, LUnregister, UnregisterNext(s))
  {
    var t := UnregisterNext(s);
    match s.holder.after
    case Answer => assert IsAnswered(s, t, s.holder.handle);
    case Register => assert t.holder == Registering(s.holder.handle, 0);
    case Forget => assert t.holder == Nobody;
  }

  lemma UnregisterSteps(s: State)
    requires HolderFits(s) && s.holder.Unregistering?
    ensures Changes(s, LUnregister, UnregisterNext(s))
  {
    hide Changes, UnregisterNext;
    if s.holder.step < 3 {
      TurnSteps(s);
    } else {
      LastTurnSteps(s);
    }
  }

  lemma StartSteps(s: State)
    requires s.holder.Begun?
    ensures Changes(s, LStart(true), BeginRegister(s))
  {
  }

  lemma StopSteps(s: State)
    requires s.holder.Begun?
    ensures Changes(s, LStop, Apply(s, LStop)) && Changes(s, LStart(false), Answered(s, s.holder.handle))
  {
    hide RegisterNext, UnregisterNext, BeginRegister, Create, Close, Open;
  }

  lemma StillChanges(s: State, l: Label, t: State)
    requires SameDoor(s, t) && t.callbacks == s.callbacks && t.enabled == s.enabled
    requires !l.LCreate? && !l.LClose? && !l.LOpen? && !l.LRegister? && !l.LUnregister? && !l.LStart? && !l.LStop?
    ensures Changes(s, l, t)
  {
  }

  lemma OtherSteps(s: State, l: Label)
    requires Enabled(s, l) && !l.LCreate? && !l.LClose? && !l.LOpen? && !l.LRegister? && !l.LUnregister?
    requires !l.LStart? && !l.LStop?
    ensures Changes(s, l, Apply(s, l))
  {
    hide Changes, RegisterNext, UnregisterNext, BeginRegister, Create, Close, Open;
    StillChanges(s, l, Apply(s, l));
  }

  /** What every step changes, by cause. */
  lemma StepChanges(s: State, l: Label)
    requires Invariant(s) && Enabled(s, l)
    ensures Changes(s, l, Apply(s, l))
  {
    hide LeaseFits, CloserFits, HolderFits, Changes, Create, Close, Open, BeginRegister, RegisterNext, UnregisterNext;
    match l
    case LRegister(granted) => RegisterSteps(s, granted);
    case LUnregister => UnregisterSteps(s);
    case LStart(ring) =>
      StartSteps(s);
      StopSteps(s);
    case LStop => StopSteps(s);
    case _ =>
      hide Apply;
      if l.LCreate? || l.LClose? || l.LOpen? {
        DoorSteps(s, l);
      } else {
        OtherSteps(s, l);
      }
  }

  /** The count is the number of open contexts, and all of them are the owner's. */
  lemma CountIsContexts(r: Run, k: nat)
    requires IsRun(r) && k < |r.states|
    ensures var s := r.states[k];
            && s.openCount == |s.contexts| && (forall h | h in s.contexts :: s.contexts[h] == s.ownerPid != 0)
            && (s.ownerPid != 0 <==> s.contexts != map[] || s.closing)
  {
    hide IsRun;
    RunKeeps(r, k);
    var s := r.states[k];
    forall h | h in s.contexts ensures s.contexts[h] == s.ownerPid != 0 {
      assert s.contexts != map[];
    }
  }

  /**
  A close always counts down, so the guards of KnDbgReleaseController never fail; only the last one closes the
  door.
  */
  lemma CloseCountsDown(r: Run, k: nat, h: Handle)
    requires IsRun(r) && k < |r.labels| && r.labels[k] == LClose(h)
    ensures var s, t := r.states[k], r.states[k + 1];
            && s.openCount > 0 && t.openCount == s.openCount - 1
            && (t.closing <==> t.openCount == 0) && !s.closing
  {
    var s := r.states[k];
    assert Enabled(s, r.labels[k]) && r.states[k + 1] == Apply(s, r.labels[k]);
    hide IsRun;
    RunKeeps(r, k);
    assert s.contexts.Keys != {};
  }

  /** Nobody is let in while the last owner's collectors are being stopped, nor another process while one owns. */
  lemma NobodyEntersWhileClosing(r: Run, k: nat, h: Handle, pid: Pid)
    requires IsRun(r) && k < |r.labels| && r.labels[k] == LCreate(h, pid)
    ensures var s, t := r.states[k], r.states[k + 1];
            h in t.contexts <==> !s.closing && (s.ownerPid == 0 || s.ownerPid == pid)
    ensures var t := r.states[k + 1];
            h in t.contexts ==> t.ownerPid == pid && forall g | g in t.contexts :: t.contexts[g] == pid
  {
    assert Enabled(r.states[k], r.labels[k]) && r.states[k + 1] == Apply(r.states[k], r.labels[k]);
    hide IsRun;
    RunKeeps(r, k);
  }

  /** Whoever holds no lock sees registration as all or nothing. */
  lemma RegistrationIsWhole(r: Run, k: nat)
    requires IsRun(r) && k < |r.states| && r.states[k].holder == Nobody
    ensures Whole(r.states[k].callbacks, r.states[k].enabled)
  {
    hide IsRun;
    RunKeeps(r, k);
  }

  /** The branch that finds only some of the callbacks registered is never taken. */
  lemma NeverPartlyRegistered(r: Run, k: nat)
    requires IsRun(r) && k < |r.labels| && r.labels[k] == LStart(true)
    ensures r.states[k].callbacks.All() || r.states[k].callbacks.None()
    ensures !(r.states[k + 1].holder.Unregistering? && r.states[k + 1].holder.after == Register)
  {
    var s := r.states[k];
    assert Enabled(s, r.labels[k]) && r.states[k + 1] == Apply(s, r.labels[k]);
    hide IsRun;
    RunKeeps(r, k);
  }

  /** No collector outlives its owner: without one nothing is registered, enabled, notified or in flight. */
  lemma NoOwnerNoCollector(r: Run, k: nat)
    requires IsRun(r) && k < |r.states| && r.states[k].ownerPid == 0
    ensures var s := r.states[k];
            s.callbacks.None() && !s.enabled && s.requests == multiset{} && s.holder == Nobody && !s.closing
    ensures k < |r.labels| ==> !r.labels[k].LNotify?
  {
    if k < |r.labels| {
      assert Enabled(r.states[k], r.labels[k]);
    }
    hide IsRun;
    RunKeeps(r, k);
    var s := r.states[k];
    assert forall h :: h !in s.requests;
  }

  /** Between two different owners there is a moment without callbacks: the door opened on silence. */
  lemma {:induction false} HandoverIsSilent(r: Run, j: nat, k: nat) returns (m: nat)
    requires IsRun(r) && j < k < |r.states|
    requires r.states[j].ownerPid != 0 && r.states[k].ownerPid != 0 && r.states[j].ownerPid != r.states[k].ownerPid
    ensures j < m < k && r.states[m].ownerPid == 0 && r.states[m].callbacks.None() && !r.states[m].enabled
  {
    hide *;
    OwnerHolds(r, k);
    if r.states[k - 1].ownerPid == 0 {
      m := k - 1;
      NoOwnerNoCollector(r, m);
    } else {
      m := HandoverIsSilent(r, j, k - 1);
    }
  }

  lemma OwnerHolds(r: Run, k: nat)
    requires IsRun(r) && 0 < k < |r.states|
    ensures r.states[k].ownerPid == 0 || r.states[k - 1].ownerPid == 0
            || r.states[k].ownerPid == r.states[k - 1].ownerPid
  {
    hide Apply;
    OwnerStep(r.states[k - 1], r.labels[k - 1]);
  }

  lemma OwnerStep(s: State, l: Label)
    requires Enabled(s, l)
    ensures Apply(s, l).ownerPid == 0 || s.ownerPid == 0 || Apply(s, l).ownerPid == s.ownerPid
  {
  }

  // ---------------------------------------------------------------------------------------------
  // The lock is returned and the door opens again
  // ---------------------------------------------------------------------------------------------

  /** The steps of the thread that holds the timeline control lock. */
  predicate ByHolder(s: State, l: Label) {
    match s.holder
    case Nobody => false
    case Begun(_) => l.LStart? || l == LStop
    case Registering(_, _) => l.LRegister?
    case Unregistering(_, _, _) => l == LUnregister
  }

  /** A bound on the steps the holder of the lock has still to take; a failed registration is rolled back. */
  function HolderLeft(holder: Holder): int {
    match holder
    case Nobody => 0
    case Begun(_) => 12
    case Registering(_, step) => 3 - step + 4
    case Unregistering(_, step, after) => 4 - step + (if after == Register then 7 else 0)
  }

  /** The holder is never stuck, its steps bring the release nearer, and nobody else moves it. */
  lemma LockIsReturned(r: Run, k: nat)
    requires IsRun(r) && k < |r.states| && r.states[k].holder != Nobody
    ensures exists l :: ByHolder(r.states[k], l) && Enabled(r.states[k], l)
    ensures HolderLeft(r.states[k].holder) > 0
    ensures k < |r.labels| ==>
              if ByHolder(r.states[k], r.labels[k]) then
                HolderLeft(r.states[k + 1].holder) < HolderLeft(r.states[k].holder)
              else r.states[k + 1].holder == r.states[k].holder
  {
    RunHolder(r, k);
    var s := r.states[k];
    hide IsRun;
    HolderStep(s);
    if k < |r.labels| {
      RunStep(r, k);
      HolderMoves(s, r.labels[k]);
    }
  }

  lemma RunHolder(r: Run, k: nat)
    requires IsRun(r) && k < |r.states|
    ensures HolderFits(r.states[k])
  {
    hide *;
    RunKeeps(r, k);
    Parts(r.states[k]);
  }

  lemma Parts(s: State)
    requires Invariant(s)
    ensures LeaseFits(s) && HolderFits(s) && CloserFits(s)
  {
    hide LeaseFits, HolderFits, CloserFits;
  }

  lemma RunStep(r: Run, k: nat)
    requires IsRun(r) && k < |r.labels|
    ensures Enabled(r.states[k], r.labels[k]) && r.states[k + 1] == Apply(r.states[k], r.labels[k])
  {
    hide Enabled, Apply;
  }

  lemma HolderStep(s: State)
    requires HolderFits(s) && s.holder != Nobody
    ensures exists l :: ByHolder(s, l) && Enabled(s, l)
    ensures HolderLeft(s.holder) > 0
  {
    var l := match s.holder
      case Begun(_) => LStop
      case Registering(_, _) => LRegister(true)
      case _ => LUnregister;
    assert ByHolder(s, l) && Enabled(s, l);
  }

  lemma HolderMoves(s: State, l: Label)
    requires HolderFits(s) && s.holder != Nobody && Enabled(s, l)
    ensures if ByHolder(s, l) then HolderLeft(Apply(s, l).holder) < HolderLeft(s.holder)
            else Apply(s, l).holder == s.holder
  {
    hide Create, Close, Busy, Open;
    OthersKeepHolder(s, l);
  }

  /** What leaves the lock alone. */
  lemma OthersKeepHolder(s: State, l: Label)
    requires Enabled(s, l)
    ensures l.LCreate? ==> Apply(s, l).holder == s.holder
    ensures l.LClose? ==> Apply(s, l).holder == s.holder
    ensures l.LOpen? ==> Apply(s, l).holder == s.holder
  {
    hide HolderFits, BeginRegister, RegisterNext, UnregisterNext;
  }

  /** The thread that closed the last handle: it takes the lock, unregisters and opens the door. */
  predicate ByCloser(s: State, l: Label) {
    match s.closer
    case NoCloser => false
    case Waiting => l == LCloserLock
    case Stopping => l == LUnregister
    case Leaving => l == LOpen
  }

  function CloserLabel(s: State): Label {
    match s.closer
    case Stopping => LUnregister
    case Leaving => LOpen
    case _ => LCloserLock
  }

  /** The steps that the closing phase still takes. */
  function ClosingLeft(s: State): int {
    match s.closer
    case NoCloser => 0
    case Waiting => 6
    case Stopping => if s.holder.Unregistering? then 5 - s.holder.step else 0
    case Leaving => 1
  }

  /** With the door closed no request is left, so the closer finds the lock free and is never stuck behind one. */
  lemma CloserStep(s: State)
    requires Invariant(s) && s.closing
    ensures ByCloser(s, CloserLabel(s)) && Enabled(s, CloserLabel(s)) && ClosingLeft(s) > 0
  {
    assert forall h :: h !in s.requests;
  }

  /** Each step of the closer leaves one step less, and no other thread moves the closing phase. */
  lemma CloserMoves(s: State, l: Label)
    requires Invariant(s) && s.closing && Enabled(s, l)
    ensures if ByCloser(s, l) then ClosingLeft(Apply(s, l)) == ClosingLeft(s) - 1
            else ClosingLeft(Apply(s, l)) == ClosingLeft(s) && Apply(s, l).closing
  {
    assert forall h :: h !in s.requests && h !in s.contexts;
    hide LeaseFits;
  }

  /** The closing phase ends: whatever else runs, the closer always has a step and at most six are left. */
  lemma ClosingEnds(r: Run, k: nat)
    requires IsRun(r) && k < |r.states| && r.states[k].closing
    ensures var s := r.states[k]; ByCloser(s, CloserLabel(s)) && Enabled(s, CloserLabel(s)) && 0 < ClosingLeft(s) <= 6
    ensures k < |r.labels| ==>
              ClosingLeft(r.states[k + 1]) ==
              ClosingLeft(r.states[k]) - (if ByCloser(r.states[k], r.labels[k]) then 1 else 0)
  {
    hide *;
    RunKeeps(r, k);
    var s := r.states[k];
    CloserStep(s);
    AtMostSix(s);
    if k < |r.labels| {
      RunStep(r, k);
      CloserMoves(s, r.labels[k]);
    }
  }

  lemma AtMostSix(s: State)
    requires Invariant(s) && s.closing
    ensures ClosingLeft(s) <= 6
  {
    hide LeaseFits;
  }

  /** A path of steps from one state to another. */
  ghost predicate Path(s: State, labels: seq<Label>, t: State)
    decreases |labels|
  {
    if labels == [] then t == s
    else Enabled(s, labels[0]) && Path(Apply(s, labels[0]), labels[1..], t)
  }

  lemma {:induction false} PathJoin(s: State, a: seq<Label>, u: State, b: seq<Label>, t: State)
    requires Path(s, a, u) && Path(u, b, t)
    ensures Path(s, a + b, t)
    decreases |a|
  {
    hide Enabled, Apply;
    if a == [] {
      assert a + b == b;
    } else {
      PathJoin(Apply(s, a[0]), a[1..], u, b, t);
      assert (a + b)[1..] == a[1..] + b;
    }
  }

  lemma PathStep(s: State, a: seq<Label>, u: State, l: Label)
    requires Path(s, a, u) && Enabled(u, l)
    ensures Path(s, a + [l], Apply(u, l))
  {
    hide Enabled, Apply;
    assert [l][1..] == [];
    assert Path(Apply(u, l), [l][1..], Apply(u, l));
    assert Path(u, [l], Apply(u, l));
    PathJoin(s, a, u, [l], Apply(u, l));
  }

  // ---------------------------------------------------------------------------------------------
  // The driver's globals
  // ---------------------------------------------------------------------------------------------

  /** The four steps of an unregistration. */
  const UNREGISTRATION := [LUnregister, LUnregister, LUnregister, LUnregister]

  /** Where an unregistration leads. */
  function Unregistered(s: State): State
    requires s.holder.Unregistering? && s.holder.step == 0
  {
    UnregisterNext(UnregisterNext(UnregisterNext(UnregisterNext(s))))
  }

  lemma UnregisteredPath(s: State)
    requires s.holder.Unregistering? && s.holder.step == 0
    ensures Path(s, UNREGISTRATION, Unregistered(s))
  {
    var u := UnregisterNext(s);
    var v := UnregisterNext(u);
    var w := UnregisterNext(v);
    assert Path(s, [], s);
    PathStep(s, [], s, LUnregister);
    PathStep(s, [LUnregister], u, LUnregister);
    PathStep(s, [LUnregister, LUnregister], v, LUnregister);
    PathStep(s, [LUnregister, LUnregister, LUnregister], w, LUnregister);
    assert [] + [LUnregister] == [LUnregister];
  }

  lemma StartPath(s: State)
    requires s.holder.Begun?
    ensures Path(s, [LStart(true)], BeginRegister(s))
  {
    assert Path(s, [], s);
    PathStep(s, [], s, LStart(true));
    assert [] + [LStart(true)] == [LStart(true)];
  }

  class FileContext {
    var ownerPid: Pid
    var ownsController: bool

    constructor ()
      ensures ownerPid == 0 && !ownsController
    {
      ownerPid, ownsController := 0, false;
    }
  }

  class Driver {
    var ownerPid: Pid
    var openCount: nat
    var closing: bool
    var processRegistered: bool
    var imageRegistered: bool
    var threadRegistered: bool
    var timelineEnabled: bool

    ghost predicate Represents(s: State)
      reads this
    {
      && ownerPid == s.ownerPid && openCount == s.openCount && closing == s.closing && timelineEnabled == s.enabled
      && Callbacks(processRegistered, imageRegistered, threadRegistered) == s.callbacks
    }

    ghost predicate Describes(c: FileContext, s: State, h: Handle)
      reads c
    {
      h in s.contexts && c.ownsController && c.ownerPid == s.contexts[h]
    }

    constructor ()
      ensures Represents(Initial())
    {
      ownerPid, openCount, closing, timelineEnabled := 0, 0, false, false;
      processRegistered, imageRegistered, threadRegistered := false, false, false;
    }

    method AcquireController(ghost s: State, ghost h: Handle, context: FileContext, currentPid: Pid)
      returns (busy: bool)
      requires Represents(s)
      modifies this`ownerPid, this`openCount, context
      ensures Represents(Create(s, h, currentPid))
      ensures busy <==> closing || (old(ownerPid) != 0 && old(ownerPid) != currentPid)
      ensures if busy then ownerPid == old(ownerPid) && openCount == old(openCount)
              else ownerPid == currentPid && openCount == old(openCount) + 1
      ensures !busy ==> Describes(context, Create(s, h, currentPid), h)
    {
      busy := closing || (ownerPid != 0 && ownerPid != currentPid);
      if !busy {
        ownerPid := currentPid;
        openCount := openCount + 1;
        context.ownerPid := currentPid;
        context.ownsController := true;
      }
    }

    method ReleaseController(ghost s: State, ghost h: Handle, context: FileContext) returns (lastController: bool)
      requires Represents(s) && Describes(context, s, h)
      modifies this`openCount, this`closing, context`ownsController
      ensures Represents(Close(s, h)) && !context.ownsController
      ensures lastController ==> Close(s, h).closer == Waiting
      ensures !lastController ==> Close(s, h).closer == s.closer
      ensures lastController <==> ownerPid == context.ownerPid && old(openCount) <= 1
      ensures closing == (old(closing) || lastController)
    {
      lastController := false;
      if !context.ownsController {
        return;
      }
      if ownerPid == context.ownerPid {
        if openCount > 0 {
          openCount := openCount - 1;
        }
        if openCount == 0 {
          closing := true;
          lastController := true;
        }
      }
      context.ownsController := false;
    }

    method OpenDoor(ghost s: State)
      requires Represents(s)
      modifies this`ownerPid, this`closing
      ensures Represents(Open(s)) && ownerPid == 0 && !closing
    {
      ownerPid := 0;
      closing := false;
    }

    /** Under the control lock: the flag goes first, then each callback that is registered. */
    method UnregisterCallbacks(ghost s: State) returns (ghost t: State)
      requires Represents(s) && s.holder.Unregistering? && s.holder.step == 0
      modifies this`processRegistered, this`imageRegistered, this`threadRegistered, this`timelineEnabled
      ensures !processRegistered && !imageRegistered && !threadRegistered && !timelineEnabled
      ensures Represents(t) && Path(s, UNREGISTRATION, t)
      ensures t.holder == if s.holder.after == Register then Registering(s.holder.handle, 0) else Nobody
    {
      timelineEnabled := false;
      if threadRegistered {
        threadRegistered := false;
      }
      if processRegistered {
        processRegistered := false;
      }
      if imageRegistered {
        imageRegistered := false;
      }
      t := Unregistered(s);
      UnregisteredPath(s);
    }

    /** Registration under the control lock; the arguments say which of the three calls the kernel grants. */
    method RegisterCallbacks(process: bool, image: bool, thread: bool, ghost s: State)
      returns (registered: bool, ghost t: State, ghost labels: seq<Label>)
      requires Represents(s) && s.holder.Begun?
      modifies this`processRegistered, this`imageRegistered, this`threadRegistered, this`timelineEnabled
      ensures registered <==> s.callbacks.All() || (process && image && thread)
      ensures registered ==> processRegistered && imageRegistered && threadRegistered && timelineEnabled
      ensures !registered ==> !processRegistered && !imageRegistered && !threadRegistered
      ensures Whole(s.callbacks, s.enabled) ==> Whole(t.callbacks, t.enabled)
      ensures Represents(t) && Path(s, labels, t) && t.holder == Nobody
    {
      hide Path, UNREGISTRATION;
      registered := false;
      StartPath(s);
      t, labels := BeginRegister(s), [LStart(true)];
      if processRegistered && imageRegistered && threadRegistered {
        timelineEnabled := true;
        return true, t, labels;
      }
      if processRegistered || imageRegistered || threadRegistered {
        ghost var u := UnregisterCallbacks(t);
        PathJoin(s, labels, t, UNREGISTRATION, u);
        t, labels := u, labels + UNREGISTRATION;
      }
      registered, t, labels := RegisterEach(process, image, thread, s, labels, t);
    }

    method RegisterEach(process: bool, image: bool, thread: bool, ghost s: State, ghost a: seq<Label>, ghost u: State)
      returns (registered: bool, ghost t: State, ghost labels: seq<Label>)
      requires Represents(u) && u.holder.Registering? && u.holder.step == 0 && u.callbacks.None() && Path(s, a, u)
      modifies this`processRegistered, this`imageRegistered, this`threadRegistered, this`timelineEnabled
      ensures registered <==> process && image && thread
      ensures registered ==> processRegistered && imageRegistered && threadRegistered && timelineEnabled
      ensures !registered ==> !processRegistered && !imageRegistered && !threadRegistered
      ensures !registered && !u.enabled ==> !t.enabled
      ensures Represents(t) && Path(s, labels, t) && t.holder == Nobody
    {
      hide Path, UNREGISTRATION;
      registered, t, labels := false, RegisterNext(u, process), a + [LRegister(process)];
      PathStep(s, a, u, LRegister(process));
      if !process {
        return;
      }
      processRegistered := true;
      PathStep(s, labels, t, LRegister(image));
      t, labels := RegisterNext(t, image), labels + [LRegister(image)];
      if !image {
        ghost var v := UnregisterCallbacks(t);
        PathJoin(s, labels, t, UNREGISTRATION, v);
        t, labels := v, labels + UNREGISTRATION;
        return;
      }
      imageRegistered := true;
      PathStep(s, labels, t, LRegister(thread));
      t, labels := RegisterNext(t, thread), labels + [LRegister(thread)];
      if !thread {
        ghost var v := UnregisterCallbacks(t);
        PathJoin(s, labels, t, UNREGISTRATION, v);
        t, labels := v, labels + UNREGISTRATION;
        return;
      }
      threadRegistered := true;
      timelineEnabled := true;
      registered := true;
    }
  }
}
