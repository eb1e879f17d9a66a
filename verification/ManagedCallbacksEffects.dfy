/**
What each step of the managed callback control changes besides the masks, told by cause: who takes and who ends a lease,
which hold is armed, taken and over, and where the holder of g_Control goes.
*/
module ManagedCallbacksEffects {

  import opened Options
  import opened ManagedCallbacks
  import opened ManagedCallbacksInvariant
  import opened ManagedCallbacksTheorems

  // ---------------------------------------------------------------------------------------------
  // Causes
  // ---------------------------------------------------------------------------------------------

  /** The sender is the connected client it says it is, names the running filter, and no other client has the lease. */
  predicate Accepts(s: State, l: Label)
    requires l.LMessage?
  {
    && l.client in s.clients && s.clients[l.client] == l.caller && !s.stopping && l.matches
    && (s.owner == 0 || s.owner == l.client)
  }

  /** The owner disconnects, asks for it or gets no reply, its process exits, or the driver stops. */
  predicate EndsLease(s: State, l: Label) {
    s.owner != 0 &&
    match l
    case LDisconnect(client) => client == s.owner
    case LExit(process) => s.ownerProcess == Some(process)
    case LMessage(_, _, request, _) => request.Release? && Accepts(s, l)
    case LReply(copied) => !copied && s.control.Answering? && s.control.client == s.owner
    case LStop => true
    case _ => false
  }

  /** The one armed hold is for this body and process. */
  predicate IsArmed(s: State, b: Body, process: Process, before: bool) {
    && s.holdMask.pre == (b == PreBody) && s.holdMask.post == (b == PostBody) && s.holdProcess == process
    && s.holdBefore == before
  }

  /** A callback of the right process meets the hold: before its body unless stopping, or in it if it may run. */
  predicate TakesHold(s: State, l: Label) {
    match l
    case LHoldBefore(b, process) => !s.stopping && IsArmed(s, b, process, true)
    case LEnter(b, process) => s.enabled.Has(b) && IsArmed(s, b, process, false)
    case _ => false
  }

  predicate ArmsHold(s: State, l: Label) {
    l == LAdvance && s.control.Applying? && s.control.request.Hold?
  }

  // ---------------------------------------------------------------------------------------------
  // Changes
  // ---------------------------------------------------------------------------------------------

  function One(b: bool): nat { if b then 1 else 0 }

  /** A granted request takes a free lease; only the last step of a release gives it up. */
  predicate LeaseChange(s: State, l: Label, t: State) {
    if l == LAdvance && s.control.Granted? && s.owner == 0 then
      t.owner == s.control.client && t.ownerProcess == Some(s.control.process)
    else if l == LAdvance && s.control.Disowning? then t.owner == 0 && t.ownerProcess.None?
    else t.owner == s.owner && t.ownerProcess == s.ownerProcess
  }

  predicate HoldChange(s: State, l: Label, t: State) {
    && (if ArmsHold(s, l) then
          && t.holdMask == s.control.request.mask && t.holdProcess == s.control.request.process
          && t.holdBefore == s.control.request.beforeBody
        else
          && t.holdProcess == s.holdProcess && t.holdBefore == s.holdBefore
          && t.holdMask == if TakesHold(s, l) || l.LStop? || (l == LAdvance && s.control.Releasing?) then NEITHER
                           else s.holdMask)
    && t.holdEntered == s.holdEntered + One(TakesHold(s, l))
    && t.holdCompleted == s.holdCompleted + One(l.LHoldBeforeDone? || (l.LLeave? && l.held))
  }

  predicate TableChange(s: State, l: Label, t: State) {
    && t.stopping == (s.stopping || l.LStop?)
    && if l.LConnect? && !s.stopping && s.nextClient < 0xFFFF_FFFF_FFFF_FFFF && |s.clients| < 16 then
         t.nextClient == s.nextClient + 1 && t.clients == s.clients[t.nextClient := l.caller]
       else
         && t.nextClient == s.nextClient
         && t.clients == if l == LAdvance && s.control.Removing? then s.clients - {s.control.client} else s.clients
  }

  /** Where g_Control goes from an entry point or a reply: to the release if the lease ends, to the request, or free. */
  predicate EntryChange(s: State, l: Label, t: State) {
    match l
    case LConnect(_) => t.control == Free
    case LDisconnect(client) =>
      t.control == if EndsLease(s, l) then Releasing(OnDisconnect(client)) else Removing(client)
    case LExit(_) => t.control == if EndsLease(s, l) then Releasing(OnExit) else Free
    case LMessage(client, caller, request, _) =>
      t.control == if EndsLease(s, l) then Releasing(OnRelease(client, s.enabled))
                   else if !Accepts(s, l) then Free
                   else if request.Release? then Answering(client, Release, s.enabled)
                   else Granted(client, caller, request, s.enabled)
    case LReply(_) => t.control == if EndsLease(s, l) then Releasing(OnLostReply) else Free
    case LStop => t.control == if EndsLease(s, l) then Releasing(OnStop) else StopPausing
    case LAdvance => AdvanceChange(s, t)
    case _ => t.control == s.control
  }

  /**
  The course of the holder of g_Control: a request is granted and applied; a release disarms the hold, pauses both
  bodies, then enables both unless stopping, and gives the lease up last; the stop pauses both.
  */
  predicate AdvanceChange(s: State, t: State) {
    match s.control
    case Granted(client, _, request, before) => t.control == Applying(client, request, before)
    case Applying(client, request, before) =>
      if request.Hold? then t.control == Answering(client, request, before)
      else t.control.Switching? && t.control.purpose == ForRequest(client, request, before)
           && InForce(request, before, t.control.desired)
    case Releasing(caller) => t.control == Pausing(caller)
    case Pausing(caller) =>
      t.control.Switching? && t.control.purpose == ForPause(caller) && t.control.desired == Mask(false, false)
    case Restoring(caller) =>
      if s.stopping then t.control == Disowning(caller)
      else t.control.Switching? && t.control.purpose == ForRestore(caller) && t.control.desired == Mask(true, true)
    case StopPausing => t.control.Switching? && t.control.purpose == ForStop && t.control.desired == Mask(false, false)
    case Switching(purpose, desired, _, _, index, _) =>
      if index < 2 then t.control.Switching? && t.control.purpose == purpose && t.control.desired == desired
      else t.control == (match purpose
                         case ForRequest(client, request, before) => Answering(client, request, before)
                         case ForPause(caller) => Restoring(caller)
                         case ForRestore(caller) => Disowning(caller)
                         case ForStop => Control.Free)
    case Disowning(caller) =>
      t.control == (match caller
                    case OnDisconnect(client) => Removing(client)
                    case OnRelease(client, before) => Answering(client, Release, before)
                    case OnStop => StopPausing
                    case _ => Free)
    case _ => t.control == Free
  }

  predicate Changes(s: State, l: Label, t: State) {
    LeaseChange(s, l, t) && HoldChange(s, l, t) && TableChange(s, l, t) && EntryChange(s, l, t)
  }

  // ---------------------------------------------------------------------------------------------
  // Proof
  // ---------------------------------------------------------------------------------------------

  lemma OpenIfEnabled(s: State, b: Body)
    requires Invariant(s)
    ensures s.enabled.Has(b) ==> !s.rundown.At(b).closed
  {
    hide Counted, MasksFit, Leased, ControlFits, StopFits;
  }

  lemma EnterChanges(s: State, b: Body, process: Process)
    requires s.enabled.Has(b) ==> !s.rundown.At(b).closed
    ensures HoldChange(s, LEnter(b, process), EnterBody(s, b, process))
  {
  }

  lemma RestChanges(s: State, l: Label)
    requires Enabled(s, l) && Calls(l) && !l.LEnter?
    ensures HoldChange(s, l, Apply(s, l))
  {
    hide EnterBody;
  }

  /** A callback leaves lease, table and g_Control alone. */
  lemma AsideChanges(s: State, l: Label, t: State)
    requires Calls(l) && SameControl(s, t)
    ensures LeaseChange(s, l, t) && TableChange(s, l, t) && EntryChange(s, l, t)
  {
  }

  lemma CallChanges(s: State, l: Label)
    requires Invariant(s) && Enabled(s, l) && Calls(l)
    ensures Changes(s, l, Apply(s, l))
  {
    hide Invariant, EnterBody, HoldChange, LeaseChange, TableChange, EntryChange, SameControl, HoldBefore, LeaveBody,
      HoldBeforeDone, ReleaseRundown;
    CallStep(s, l);
    AsideChanges(s, l, Apply(s, l));
    if l.LEnter? {
      OpenIfEnabled(s, l.body);
      EnterChanges(s, l.body, l.process);
    } else {
      RestChanges(s, l);
    }
  }

  lemma EntryHolds(s: State, l: Label)
    requires Enabled(s, l) && !Calls(l) && l != LAdvance
    ensures HoldChange(s, l, Apply(s, l))
  {
    hide MessageStatus, AfterRelease, ValidRequest;
  }

  lemma EntryTables(s: State, l: Label)
    requires Enabled(s, l) && !Calls(l) && l != LAdvance
    ensures LeaseChange(s, l, Apply(s, l)) && TableChange(s, l, Apply(s, l))
  {
    hide MessageStatus, AfterRelease, ValidRequest;
  }

  lemma EntryChanges(s: State, l: Label)
    requires Invariant(s) && Enabled(s, l) && !Calls(l) && l != LAdvance
    ensures Changes(s, l, Apply(s, l))
  {
    EntryHolds(s, l);
    EntryTables(s, l);
    hide Counted, MasksFit, RundownFits, ControlFits, StopFits, HoldChange, LeaseChange, TableChange;
  }

  lemma AdvanceCourse(s: State)
    requires Enabled(s, LAdvance) && (s.control.Applying? ==> !s.control.request.Release?)
    ensures AdvanceChange(s, Advance(s))
  {
    hide Mask.Plus, Mask.Minus, InForce;
    if s.control.Applying? {
      WantedInForce(s.control.request, s.control.before);
    }
  }

  lemma WantedInForce(request: Request, before: Mask)
    requires !request.Release?
    ensures InForce(request, before, Wanted(request, before))
  {
  }

  lemma AppliesNoRelease(s: State)
    requires Invariant(s)
    ensures s.control.Applying? ==> !s.control.request.Release?
  {
    hide Counted, MasksFit, RundownFits, Leased, StopFits;
  }

  lemma AdvanceChanges(s: State)
    requires Enabled(s, LAdvance) && AdvanceChange(s, Advance(s))
    ensures Changes(s, LAdvance, Advance(s))
  {
    hide AdvanceChange, Blocked, Wanted, AfterRelease, AfterSwitch, Mask.Plus, Mask.Minus, SwitchBody;
    if s.control.Switching? && s.control.index < 2 {
      SwitchChanges(s);
    }
  }

  lemma SwitchChanges(s: State)
    requires s.control.Switching? && s.control.index < 2
    ensures HoldChange(s, LAdvance, SwitchBody(s)) && LeaseChange(s, LAdvance, SwitchBody(s))
    ensures TableChange(s, LAdvance, SwitchBody(s))
  {
  }

  /** Every step of every thread. */
  lemma StepChanges(s: State, l: Label)
    requires Invariant(s) && Enabled(s, l)
    ensures Changes(s, l, Apply(s, l))
  {
    hide Invariant, Enabled, Apply, Advance, Changes;
    if Calls(l) {
      CallChanges(s, l);
    } else if l == LAdvance {
      AdvanceApplies(s);
      AppliesNoRelease(s);
      AdvanceCourse(s);
      AdvanceChanges(s);
    } else {
      EntryChanges(s, l);
    }
  }

  /** The status of a message, and what a refused one changes: nothing. */
  lemma MessageDecision(s: State, l: Label)
    requires Enabled(s, l) && l.LMessage?
    ensures var known := l.client in s.clients && s.clients[l.client] == l.caller;
            var status := MessageStatus(s, l.client, l.caller, l.matches);
            && (status == AccessDenied <==> !known)
            && (status == Deleting <==> known && s.stopping)
            && (status == RevisionMismatch <==> known && !s.stopping && !l.matches)
            && (status == Success <==> Accepts(s, l))
            && (status != Success ==> Apply(s, l) == s)
  {
  }

  /** A release never restores before both bodies are paused and everybody has left them. */
  lemma ReleaseDrains(r: Run, k: nat)
    requires IsRun(r) && k < |r.states| && r.states[k].control.Restoring?
    ensures var s := r.states[k];
            && s.enabled == Mask(false, false) && s.draining == Mask(false, false)
            && Empty(s, PreBody) && Empty(s, PostBody) && s.holdMask == Mask(false, false) && s.owner != 0
  {
    hide IsRun;
    RunKeeps(r, k);
    hide Counted, RundownFits, Leased, StopFits;
    BodiesFollowMasks(r, k, PreBody);
    BodiesFollowMasks(r, k, PostBody);
  }
}
