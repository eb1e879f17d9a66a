/**
The inductive invariant of the managed callback control, and its preservation by every action.
*/
module ManagedCallbacksInvariant {

  import opened Options
  import opened ManagedCallbacks

  function Running(s: State, b: Body): nat {
    s.threads[Inside(b, false)] + s.threads[Inside(b, true)]
  }

  /** The counters are the numbers of threads that stand where they say. */
  ghost predicate Counted(s: State) {
    && s.active.pre == Running(s, PreBody) && s.active.post == Running(s, PostBody)
    && s.rundown.pre.count == Running(s, PreBody) + s.threads[Leaving(PreBody)]
    && s.rundown.post.count == Running(s, PostBody) + s.threads[Leaving(PostBody)]
    && s.holdEntered == s.holdCompleted + s.threads[HeldBefore(PreBody)] + s.threads[HeldBefore(PostBody)]
                        + s.threads[Inside(PreBody, true)] + s.threads[Inside(PostBody, true)]
  }

  function IndexOf(b: Body): nat {
    if b == PreBody then 0 else 1
  }

  ghost predicate MasksFit(s: State) {
    match s.control
    case Switching(_, desired, disable, enable, index, waiting) =>
      && s.draining == disable && disable.Disjoint(s.enabled) && enable.Disjoint(s.enabled) && disable.Disjoint(enable)
      && desired == s.enabled.Plus(enable)
      && index <= 2 && (waiting ==> index < 2 && disable.Has(BodyAt(index)))
    case _ => s.draining == NEITHER
  }

  /** The state of a body's rundown reference follows from its bits and from how far a transition has got. */
  ghost predicate RundownFits(s: State, b: Body) {
    var r, c := s.rundown.At(b), s.control;
    if s.enabled.Has(b) then !r.closed
    else if c.Switching? && c.disable.Has(b) then
      && (r.closed <==> IndexOf(b) < c.index || (IndexOf(b) == c.index && c.waiting))
      && (IndexOf(b) < c.index ==> r.count == 0)
    else if c.Switching? && c.enable.Has(b) && IndexOf(b) < c.index then r == Rundown(false, 0)
    else r == Rundown(true, 0)
  }

  ghost predicate Leased(s: State) {
    && (s.owner != 0 <==> s.ownerProcess.Some?)
    && (s.owner != 0 ==> s.owner in s.clients && s.ownerProcess == Some(s.clients[s.owner]))
    && (forall c | c in s.clients :: 1 <= c <= s.nextClient)
    && |s.clients| <= MAX_CLIENTS && s.nextClient <= MAX_CLIENT_ID
    && (s.owner == 0 && !s.stopping ==> s.enabled == BOTH && !s.control.Switching?)
    && (s.holdMask != NEITHER ==> s.owner != 0 && !s.stopping)
  }

  predicate CallerFits(s: State, caller: Caller) {
    && s.owner != 0 && (caller == OnStop <==> s.stopping)
    && (caller.OnDisconnect? ==> s.owner == caller.client)
    && (caller.OnRelease? ==> s.owner == caller.client)
  }

  predicate Switches(request: Request) {
    request.Disable? || request.Enable?
  }

  ghost predicate PurposeFits(s: State, purpose: Purpose, desired: Mask) {
    match purpose
    case ForRequest(client, request, before) =>
      !s.stopping && s.owner == client && client != 0 && Switches(request) && desired == Wanted(request, before)
    case ForPause(caller) => CallerFits(s, caller) && desired == NEITHER && s.holdMask == NEITHER
    case ForRestore(caller) => CallerFits(s, caller) && desired == BOTH && s.holdMask == NEITHER && !s.stopping
    case ForStop => s.stopping && s.owner == 0 && desired == NEITHER
  }

  ghost predicate ControlFits(s: State) {
    match s.control
    case Free => true
    case Granted(client, process, request, before) =>
      && !s.stopping && client != 0 && client in s.clients && s.clients[client] == process
      && (s.owner == 0 || s.owner == client) && before == s.enabled && !request.Release?
    case Applying(client, request, before) =>
      !s.stopping && client != 0 && s.owner == client && before == s.enabled && !request.Release?
    case Switching(purpose, desired, _, _, _, _) => PurposeFits(s, purpose, desired)
    case Answering(client, request, before) =>
      && !s.stopping && client != 0
      && (if request.Release? then s.owner == 0 else s.owner == client && s.enabled == Wanted(request, before))
    case Releasing(caller) => CallerFits(s, caller)
    case Pausing(caller) => CallerFits(s, caller) && s.holdMask == NEITHER
    case Restoring(caller) => CallerFits(s, caller) && s.holdMask == NEITHER && s.enabled == NEITHER
    case Disowning(caller) =>
      CallerFits(s, caller) && s.holdMask == NEITHER && s.enabled == (if s.stopping then NEITHER else BOTH)
    case Removing(client) => s.owner != client
    case StopPausing => s.stopping && s.owner == 0
  }

  predicate StopSequence(control: Control) {
    match control
    case Releasing(caller) => caller == OnStop
    case Pausing(caller) => caller == OnStop
    case Restoring(caller) => caller == OnStop
    case Disowning(caller) => caller == OnStop
    case Switching(purpose, _, _, _, _, _) => purpose == ForStop || purpose == ForPause(OnStop)
    case StopPausing => true
    case _ => false
  }

  ghost predicate StopFits(s: State) {
    s.stopping ==> StopSequence(s.control) || (s.owner == 0 && s.enabled == NEITHER)
  }

  ghost predicate Invariant(s: State) {
    && Counted(s) && MasksFit(s) && RundownFits(s, PreBody) && RundownFits(s, PostBody)
    && Leased(s) && ControlFits(s) && StopFits(s)
  }

  lemma InitialInvariant()
    ensures Invariant(Initial())
  {
  }

  // ---------------------------------------------------------------------------------------------
  // Callback bodies
  // ---------------------------------------------------------------------------------------------

  lemma HoldBeforeKeeps(s: State, b: Body, process: Process)
    requires Invariant(s)
    ensures Invariant(HoldBefore(s, b, process))
  {
  }

  lemma HoldBeforeDoneKeeps(s: State, b: Body)
    requires Invariant(s) && HeldBefore(b) in s.threads
    ensures Invariant(HoldBeforeDone(s, b))
  {
    hide MasksFit, RundownFits, Leased, ControlFits, StopFits;
    assert Counted(HoldBeforeDone(s, b));
    OthersKept(s, HoldBeforeDone(s, b));
  }

  /** Nothing but the counts of threads changes, and no closed reference gains one. */
  lemma OthersKept(s: State, t: State)
    requires Invariant(s) && Counted(t)
    requires t.enabled == s.enabled && t.draining == s.draining && t.stopping == s.stopping && t.clients == s.clients
    requires t.nextClient == s.nextClient && t.owner == s.owner && t.ownerProcess == s.ownerProcess
    requires t.control == s.control && (t.holdMask == s.holdMask || t.holdMask == NEITHER)
    requires CountKept(s, t, PreBody) && CountKept(s, t, PostBody)
    ensures Invariant(t)
  {
    hide Counted;
  }

  predicate CountKept(s: State, t: State, b: Body) {
    && t.rundown.At(b).closed == s.rundown.At(b).closed
    && 0 <= t.rundown.At(b).count
    && (t.rundown.At(b).count > s.rundown.At(b).count ==> s.enabled.Has(b))
  }

  lemma EnterKeeps(s: State, b: Body, process: Process)
    requires Invariant(s)
    ensures Invariant(EnterBody(s, b, process))
  {
    hide MasksFit, RundownFits, Leased, ControlFits, StopFits;
    EnterCounted(s, b, process);
    OthersKept(s, EnterBody(s, b, process));
  }

  lemma EnterCounted(s: State, b: Body, process: Process)
    requires Counted(s)
    ensures Counted(EnterBody(s, b, process))
  {
  }

  lemma LeaveCounted(s: State, b: Body, held: bool)
    requires Counted(s) && Inside(b, held) in s.threads
    ensures Counted(LeaveBody(s, b, held))
  {
    var t := LeaveBody(s, b, held);
    LeaveThreads(s, b, held);
    if b == PreBody {
      assert t.active == s.active.(pre := s.active.pre - 1);
    } else {
      assert t.active == s.active.(post := s.active.post - 1);
    }
  }

  /** One thread moves from inside its body to past it. */
  lemma LeaveThreads(s: State, b: Body, held: bool)
    requires Inside(b, held) in s.threads
    ensures var t := LeaveBody(s, b, held).threads;
            && (forall c :: t[HeldBefore(c)] == s.threads[HeldBefore(c)])
            && (forall c :: t[Leaving(c)] == s.threads[Leaving(c)] + (if c == b then 1 else 0))
            && (forall c, h :: t[Inside(c, h)] == s.threads[Inside(c, h)] - (if c == b && h == held then 1 else 0))
  {
  }

  lemma LeaveKeeps(s: State, b: Body, held: bool)
    requires Invariant(s) && Inside(b, held) in s.threads
    ensures Invariant(LeaveBody(s, b, held))
  {
    hide MasksFit, RundownFits, Leased, ControlFits, StopFits;
    LeaveCounted(s, b, held);
    OthersKept(s, LeaveBody(s, b, held));
  }

  lemma ReleaseRundownKeeps(s: State, b: Body)
    requires Invariant(s) && Leaving(b) in s.threads
    ensures Invariant(ReleaseRundown(s, b))
  {
    hide MasksFit, RundownFits, Leased, ControlFits, StopFits;
    assert Counted(ReleaseRundown(s, b));
    OthersKept(s, ReleaseRundown(s, b));
  }

  // ---------------------------------------------------------------------------------------------
  // The holder of g_Control
  // ---------------------------------------------------------------------------------------------

  lemma MarkKeeps(s: State, purpose: Purpose, desired: Mask)
    requires Invariant(s) && !s.control.Switching?
    requires PurposeFits(s, purpose, desired) && StopFits(Mark(s, purpose, desired))
    requires s.owner != 0 || s.stopping
    ensures Invariant(Mark(s, purpose, desired))
  {
  }

  lemma SwitchRundown(s: State, b: Body)
    requires MasksFit(s) && RundownFits(s, b) && s.control.Switching? && s.control.index < 2 && !Blocked(s)
    requires 0 <= s.rundown.At(b).count
    ensures RundownFits(SwitchBody(s), b)
    ensures SwitchBody(s).rundown.At(b).count == s.rundown.At(b).count
  {
  }

  lemma SwitchCounted(s: State)
    requires Counted(s) && MasksFit(s) && s.control.Switching? && s.control.index < 2 && !Blocked(s)
    requires RundownFits(s, PreBody) && RundownFits(s, PostBody)
    ensures Counted(SwitchBody(s))
  {
    SwitchRundown(s, PreBody);
    SwitchRundown(s, PostBody);
    hide MasksFit, RundownFits;
  }

  lemma SwitchRest(s: State)
    requires Invariant(s) && s.control.Switching? && s.control.index < 2 && !Blocked(s)
    ensures var t := SwitchBody(s); MasksFit(t) && Leased(t) && ControlFits(t) && StopFits(t)
  {
    hide Counted, RundownFits, Leased, Wanted, Blocked;
    SwitchLeased(s);
  }

  lemma SwitchLeased(s: State)
    requires Leased(s) && s.control.Switching? && s.control.index < 2
    ensures Leased(SwitchBody(s))
  {
  }

  lemma SwitchKeeps(s: State)
    requires Invariant(s) && s.control.Switching? && s.control.index < 2 && !Blocked(s)
    ensures Invariant(SwitchBody(s))
  {
    hide MasksFit, RundownFits, Leased, ControlFits, StopFits, SwitchBody;
    SwitchRest(s);
    SwitchCounted(s);
    SwitchRundown(s, PreBody);
    SwitchRundown(s, PostBody);
  }

  lemma CommitKeeps(s: State)
    requires Invariant(s) && s.control.Switching? && s.control.index == 2
    ensures Invariant(Commit(s))
  {
  }

  lemma RestartKeeps(s: State)
    requires Invariant(s) && Enabled(s, LAdvance)
    requires s.control.Applying? || s.control.Pausing? || s.control.Restoring? || s.control.StopPausing?
    ensures Invariant(Advance(s))
  {
    match s.control
    case Applying(_, request, before) =>
      if !request.Hold? {
        MarkKeeps(s, ForRequest(s.control.client, request, before), Wanted(request, before));
      }
    case Pausing(caller) =>
      MarkKeeps(s, ForPause(caller), NEITHER);
    case Restoring(caller) =>
      if !s.stopping {
        MarkKeeps(s, ForRestore(caller), BOTH);
      }
    case StopPausing =>
      MarkKeeps(s, ForStop, NEITHER);
  }

  lemma AdvanceKeeps(s: State)
    requires Invariant(s) && Enabled(s, LAdvance)
    ensures Invariant(Advance(s))
  {
    match s.control
    case Switching(_, _, _, _, index, _) =>
      assert index <= 2;
      hide MasksFit, RundownFits, Leased, ControlFits, StopFits, Counted;
      if index < 2 {
        SwitchKeeps(s);
      } else {
        CommitKeeps(s);
      }
    case Granted(_, _, _, _) => StepKeeps(s);
    case Releasing(_) => StepKeeps(s);
    case Disowning(_) => StepKeeps(s);
    case Removing(_) => StepKeeps(s);
    case _ =>
      hide MasksFit, RundownFits, Leased, ControlFits, StopFits, Counted;
      RestartKeeps(s);
  }

  lemma StepKeeps(s: State)
    requires Invariant(s) && Enabled(s, LAdvance)
    requires s.control.Granted? || s.control.Releasing? || s.control.Disowning? || s.control.Removing?
    ensures Invariant(Advance(s))
  {
  }

  lemma StartReleaseKeeps(s: State, caller: Caller)
    requires Counted(s) && MasksFit(s) && RundownFits(s, PreBody) && RundownFits(s, PostBody) && Leased(s)
    requires !s.control.Switching?
    requires s.owner != 0 ==> CallerFits(s, caller)
    requires s.owner == 0 ==> ControlFits(s.(control := AfterRelease(caller)))
    requires StopFits(StartRelease(s, caller))
    ensures Invariant(StartRelease(s, caller))
  {
  }

  lemma ConnectKeeps(s: State, caller: Process)
    requires Invariant(s) && s.control == Free
    ensures Invariant(Connect(s, caller))
  {
  }

  lemma DisconnectKeeps(s: State, id: ClientId)
    requires Invariant(s) && s.control == Free && id != 0
    ensures Invariant(Disconnect(s, id))
  {
    if s.owner == id {
      StartReleaseKeeps(s, OnDisconnect(id));
    }
  }

  lemma ExitKeeps(s: State, process: Process)
    requires Invariant(s) && s.control == Free
    ensures Invariant(ProcessExit(s, process))
  {
    if s.ownerProcess == Some(process) {
      StartReleaseKeeps(s, OnExit);
    }
  }

  lemma MessageKeeps(s: State, id: ClientId, caller: Process, request: Request, matches: bool)
    requires Invariant(s) && s.control == Free && id != 0 && ValidRequest(request)
    ensures Invariant(Message(s, id, caller, request, matches))
  {
    if MessageStatus(s, id, caller, matches) == Success && request.Release? {
      StartReleaseKeeps(s, OnRelease(id, s.enabled));
    }
  }

  lemma ReplyKeeps(s: State, copied: bool)
    requires Invariant(s) && s.control.Answering?
    ensures Invariant(Reply(s, copied))
  {
    if !copied && s.owner == s.control.client {
      StartReleaseKeeps(s, OnLostReply);
    }
  }

  lemma StopKeeps(s: State)
    requires Invariant(s) && s.control == Free
    ensures Invariant(Stop(s))
  {
    StartReleaseKeeps(s.(stopping := true, holdMask := NEITHER), OnStop);
  }

  lemma ApplyKeeps(s: State, l: Label)
    requires Invariant(s) && Enabled(s, l)
    ensures Invariant(Apply(s, l))
  {
    hide Invariant;
    match l
    case LHoldBefore(b, process) => HoldBeforeKeeps(s, b, process);
    case LHoldBeforeDone(b) => HoldBeforeDoneKeeps(s, b);
    case LEnter(b, process) => EnterKeeps(s, b, process);
    case LLeave(b, held) => LeaveKeeps(s, b, held);
    case LReleaseRundown(b) => ReleaseRundownKeeps(s, b);
    case LConnect(caller) => ConnectKeeps(s, caller);
    case LDisconnect(id) => DisconnectKeeps(s, id);
    case LExit(process) => ExitKeeps(s, process);
    case LMessage(id, caller, request, matches) => MessageKeeps(s, id, caller, request, matches);
    case LReply(copied) => ReplyKeeps(s, copied);
    case LStop => StopKeeps(s);
    case LAdvance => AdvanceKeeps(s);
  }
}
