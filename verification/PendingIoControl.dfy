/**
Every action under g_Control and every instance action keeps the invariant.
*/
module PendingIoControl {

  import opened Options
  import opened PendingIo
  import opened PendingIoInvariant

  // ---------------------------------------------------------------------------------------------
  // Waking operations
  // ---------------------------------------------------------------------------------------------

  predicate Woken(s: State, t: State, reason: nat) {
    && t == s.(ops := t.ops)
    && t.ops.Keys == s.ops.Keys
    && forall i | i in s.ops ::
         && t.ops[i] == s.ops[i].(wakeReason := t.ops[i].wakeReason, resume := t.ops[i].resume)
         && s.ops[i].wakeReason <= t.ops[i].wakeReason
         && (t.ops[i].wakeReason == s.ops[i].wakeReason || t.ops[i].wakeReason == reason)
  }

  lemma WakeAllWoken(s: State, sweep: Sweep, reason: nat)
    ensures Woken(s, s.(ops := WakeAll(s.ops, sweep, reason)), reason)
  {
  }

  lemma WokenOperations(s: State, t: State, reason: nat)
    requires Operations(s) && Woken(s, t, reason) && reason <= 3
    ensures Operations(t)
  {
    forall i | i in t.ops ensures Owned(t, i, t.ops[i]) && Routed(t, t.ops[i]) && Swept(t, t.ops[i]) {
      assert Owned(s, i, s.ops[i]) && Routed(s, s.ops[i]) && Swept(s, s.ops[i]);
    }
  }

  lemma WokenOthers(s: State, t: State, reason: nat)
    requires Lists(s) && WorkerFits(s) && EventFits(s) && ArmFits(s) && LeaseFits(s) && WatchFits(s)
    requires Ticketed(s) && Claimed(s) && Woken(s, t, reason)
    ensures Lists(t) && WorkerFits(t) && EventFits(t) && ArmFits(t) && LeaseFits(t) && WatchFits(t)
    ensures Ticketed(t) && Claimed(t)
  {
    forall k: Ticket ensures TicketFits(t, k) { assert TicketFits(s, k); }
    forall j: OperationId ensures ClaimFits(t, j) { assert ClaimFits(s, j); }
  }

  lemma WakeCounts(s: State, sweep: Sweep, reason: nat)
    requires Balanced(s) && Bounded(s) && Referenced(s)
    ensures Balanced(s.(ops := WakeAll(s.ops, sweep, reason)))
    ensures Bounded(s.(ops := WakeAll(s.ops, sweep, reason)))
    ensures Referenced(s.(ops := WakeAll(s.ops, sweep, reason)))
  {
    var t := s.(ops := WakeAll(s.ops, sweep, reason));
    forall c: Class ensures Count(t.ops, c) == Count(s.ops, c) { CountWake(s.ops, sweep, reason, c); }
    hide Count;
    forall p: Process ensures t.references[p] == Holders(t, p) { assert s.references[p] == Holders(s, p); }
  }

  lemma WakeKeeps(s: State, sweep: Sweep, reason: nat)
    requires Invariant(s) && reason <= 3
    ensures Invariant(s.(ops := WakeAll(s.ops, sweep, reason)))
  {
    hide Lists, WorkerFits, Operations, ArmFits, LeaseFits, WatchFits, EventFits, Balanced, Bounded, Referenced,
      Ticketed, Claimed, WakeAll, Woken;
    var t := s.(ops := WakeAll(s.ops, sweep, reason));
    WakeAllWoken(s, sweep, reason);
    WokenOperations(s, t, reason);
    WokenOthers(s, t, reason);
    WakeCounts(s, sweep, reason);
  }

  // ---------------------------------------------------------------------------------------------
  // Changing settings, the operations staying the same
  // ---------------------------------------------------------------------------------------------

  predicate Settings(s: State, t: State) {
    && t == s.(control := t.control, stopping := t.stopping, clients := t.clients, nextClient := t.nextClient,
               owner := t.owner, ownerProcess := t.ownerProcess, target := t.target, armedMode := t.armedMode,
               armedRemaining := t.armedRemaining, armedGeneration := t.armedGeneration,
               topologyGeneration := t.topologyGeneration, instances := t.instances, references := t.references,
               locals := t.locals, workAvailable := t.workAvailable,
               ledger := s.ledger.(liveInstances := t.ledger.liveInstances, instanceStarts := t.ledger.instanceStarts,
                                   instanceCompletes := t.ledger.instanceCompletes))
    && t.armedRemaining <= s.armedRemaining
  }

  lemma SettingsOthers(s: State, t: State)
    requires Lists(s) && WorkerFits(s) && Balanced(s) && Bounded(s) && Ticketed(s) && Claimed(s) && Settings(s, t)
    ensures Lists(t) && WorkerFits(t) && Balanced(t) && Bounded(t) && Ticketed(t) && Claimed(t)
  {
    hide Count, Where;
    forall k: Ticket ensures TicketFits(t, k) { assert TicketFits(s, k); }
    forall j: OperationId ensures ClaimFits(t, j) { assert ClaimFits(s, j); }
  }

  /** The references that leave the arm or the lease go to locals. */
  lemma SettingsReferenced(s: State, t: State)
    requires Referenced(s) && Settings(s, t) && t.references == s.references
    requires forall p: Process ::
               One(t.target == Some(p)) + One(t.ownerProcess == Some(p)) + t.locals[p] ==
               One(s.target == Some(p)) + One(s.ownerProcess == Some(p)) + s.locals[p]
    ensures Referenced(t)
  {
    hide Count;
    forall p: Process ensures t.references[p] == Holders(t, p) { assert s.references[p] == Holders(s, p); }
  }

  lemma SettingsOperations(s: State, t: State)
    requires Operations(s) && Settings(s, t)
    requires forall k | k in s.instances :: k in t.instances && t.instances[k].lower == s.instances[k].lower
    requires forall i | i in s.ops && s.ops[i].instance in s.instances && Swept(s, s.ops[i]) :: Swept(t, s.ops[i])
    ensures Operations(t)
  {
    forall i | i in t.ops ensures Owned(t, i, t.ops[i]) && Routed(t, t.ops[i]) && Swept(t, t.ops[i]) {
      assert Owned(s, i, s.ops[i]) && Routed(s, s.ops[i]) && Swept(s, s.ops[i]);
    }
  }

  lemma SettingsKeep(s: State, t: State)
    requires Invariant(s) && Settings(s, t)
    requires Operations(t) && ArmFits(t) && LeaseFits(t) && WatchFits(t) && EventFits(t) && Referenced(t)
    ensures Invariant(t)
  {
    hide Lists, WorkerFits, Operations, ArmFits, LeaseFits, WatchFits, EventFits, Balanced, Bounded, Referenced,
      Ticketed, Claimed, Settings;
    SettingsOthers(s, t);
  }

  lemma DisarmKeeps(s: State)
    requires Invariant(s)
    ensures Invariant(Disarm(s))
  {
    hide Lists, WorkerFits, Operations, Balanced, Bounded, Referenced, Ticketed, Claimed;
    var t := Disarm(s);
    SettingsOperations(s, t);
    SettingsReferenced(s, t);
    SettingsKeep(s, t);
  }

  predicate MayHold(s: State, c: Control) {
    && c != WorkerWatch && s.control != WorkerWatch
    && (c.Disconnecting? ==> c.client != 0 && s.owner != c.client)
    && (c.Exiting? ==> s.ownerProcess != Some(c.process))
    && (s.stopping && c != StopReleasing ==> s.owner == 0)
  }

  lemma ControlKeeps(s: State, c: Control)
    requires Invariant(s) && MayHold(s, c)
    ensures Invariant(s.(control := c))
  {
    hide Lists, WorkerFits, Operations, Balanced, Bounded, Referenced, Ticketed, Claimed;
    var t := s.(control := c);
    SettingsOperations(s, t);
    SettingsReferenced(s, t);
    SettingsKeep(s, t);
  }

  // ---------------------------------------------------------------------------------------------
  // The lease
  // ---------------------------------------------------------------------------------------------

  function ClearOwner(s: State): State {
    s.(locals := s.locals + Bag(s.ownerProcess), ownerProcess := None, owner := 0)
  }

  lemma ClearOwnerKeeps(s: State)
    requires Invariant(s) && s.target.None?
    requires forall i | i in s.ops && s.ops[i].life != Unlinked && s.ops[i].owner == s.owner :: s.ops[i].wakeReason >= 2
    ensures Invariant(ClearOwner(s))
  {
    hide Lists, WorkerFits, Operations, Balanced, Bounded, Referenced, Ticketed, Claimed;
    var t := ClearOwner(s);
    SettingsOperations(s, t);
    SettingsReferenced(s, t);
    SettingsKeep(s, t);
  }

  lemma ReleaseOwnerKeeps(s: State)
    requires Invariant(s)
    ensures Invariant(ReleaseOwner(s))
  {
    hide Invariant;
    var d := Disarm(s);
    DisarmKeeps(s);
    WakeKeeps(d, OwnedBy(d.owner), 2);
    var w := d.(ops := WakeAll(d.ops, OwnedBy(d.owner), 2));
    ClearOwnerKeeps(w);
    assert ReleaseOwner(s) == ClearOwner(w);
  }

  /** Whatever was armed or leased, afterwards nothing is. */
  lemma ReleaseOwnerClears(s: State)
    ensures ReleaseOwner(s).owner == 0 && ReleaseOwner(s).ownerProcess.None? && ReleaseOwner(s).target.None?
    ensures ReleaseOwner(s).control == s.control && ReleaseOwner(s).stopping == s.stopping
  {
  }

  lemma ControlKnown(s: State)
    requires Invariant(s)
    ensures LeaseFits(s) && WatchFits(s) && ArmFits(s)
  {
    hide Lists, WorkerFits, Operations, ArmFits, LeaseFits, WatchFits, EventFits, Balanced, Bounded, Referenced,
      Ticketed, Claimed;
  }

  lemma DisconnectKeeps(s: State, id: ClientId)
    requires Invariant(s) && s.control == Free && id != 0
    ensures Invariant(DisconnectRelease(s, id))
  {
    hide Invariant, ReleaseOwner;
    ControlKnown(s);
    ReleaseOwnerClears(s);
    if s.owner == id {
      ReleaseOwnerKeeps(s);
      ControlKeeps(ReleaseOwner(s), Disconnecting(id));
    } else {
      ControlKeeps(s, Disconnecting(id));
    }
  }

  lemma Smaller(a: set<ClientId>, b: set<ClientId>)
    requires a <= b
    ensures |a| <= |b|
  {
    assert |b| == |a| + |b - a| by { assert b == a + (b - a); }
  }

  lemma RemoveFits(s: State)
    requires ArmFits(s) && LeaseFits(s) && WatchFits(s) && EventFits(s) && s.control.Disconnecting?
    ensures ArmFits(DisconnectRemove(s)) && LeaseFits(DisconnectRemove(s))
    ensures WatchFits(DisconnectRemove(s)) && EventFits(DisconnectRemove(s))
  {
    var t := DisconnectRemove(s);
    assert t.clients.Keys <= s.clients.Keys;
    Smaller(t.clients.Keys, s.clients.Keys);
    assert |t.clients| == |t.clients.Keys| && |s.clients| == |s.clients.Keys|;
  }

  lemma RemoveKeeps(s: State)
    requires Invariant(s) && s.control.Disconnecting?
    ensures Invariant(DisconnectRemove(s))
  {
    hide Lists, WorkerFits, Operations, ArmFits, LeaseFits, WatchFits, EventFits, Balanced, Bounded, Referenced,
      Ticketed, Claimed;
    var t := DisconnectRemove(s);
    RemoveFits(s);
    SettingsOperations(s, t);
    SettingsReferenced(s, t);
    SettingsKeep(s, t);
  }

  lemma ConnectKeeps(s: State, caller: Process)
    requires Invariant(s) && s.control == Free
    ensures Invariant(Connect(s, caller))
  {
    hide Lists, WorkerFits, Operations, Balanced, Bounded, Referenced, Ticketed, Claimed;
    var t := Connect(s, caller);
    if Connect(s, caller) != s {
      assert s.nextClient + 1 !in s.clients;
      assert |s.clients[s.nextClient + 1 := caller]| == |s.clients| + 1;
    }
    SettingsOperations(s, t);
    SettingsReferenced(s, t);
    SettingsKeep(s, t);
  }

  // ---------------------------------------------------------------------------------------------
  // Requests
  // ---------------------------------------------------------------------------------------------

  predicate Arms(s: State, t: State, id: ClientId, caller: Process, mode: Mode, p: Process, count: nat) {
    && id in s.clients && s.clients[id] == caller && !s.stopping && (s.owner == 0 || s.owner == id) && Idle(s)
    && mode != NoMode && 1 <= count <= MAX_BATCH && p in s.locals && s.control == Free
    && t == s.(owner := id, ownerProcess := if s.owner == 0 then Some(caller) else s.ownerProcess,
               references := if s.owner == 0 then s.references + multiset{caller} else s.references,
               target := Some(p), locals := s.locals - multiset{p},
               armedMode := mode, armedRemaining := count, armedGeneration := s.topologyGeneration,
               workAvailable := true, control := Replying(id),
               armEpoch := s.armEpoch + 1, epochLimit := count, epochUppers := 0, epochLowers := 0)
  }

  lemma ArmsOthers(s: State, t: State, id: ClientId, caller: Process, mode: Mode, p: Process, count: nat)
    requires ArmFits(s) && LeaseFits(s) && WatchFits(s) && EventFits(s) && Ticketed(s) && Claimed(s)
    requires Arms(s, t, id, caller, mode, p, count)
    ensures ArmFits(t) && LeaseFits(t) && WatchFits(t) && EventFits(t) && Ticketed(t) && Claimed(t)
  {
    forall k: Ticket ensures TicketFits(t, k) { assert TicketFits(s, k); }
    forall j: OperationId ensures ClaimFits(t, j) { assert ClaimFits(s, j); }
  }

  lemma ArmsReferenced(s: State, t: State, id: ClientId, caller: Process, mode: Mode, p: Process, count: nat)
    requires Referenced(s) && ArmFits(s) && LeaseFits(s) && Arms(s, t, id, caller, mode, p, count)
    ensures Referenced(t)
  {
    hide Count, LeaseFits;
    assert s.target.None?;
    assert s.owner == 0 ==> s.ownerProcess.None? by { LeaseProcess(s); }
    forall q: Process ensures t.references[q] == Holders(t, q) {
      assert s.references[q] == Holders(s, q);
    }
  }

  lemma LeaseProcess(s: State)
    requires LeaseFits(s)
    ensures s.owner != 0 <==> s.ownerProcess.Some?
  {
  }

  /** No operation is listed when an arm succeeds, so no upper is left to claim and no owner to miss. */
  lemma ArmsOperations(s: State, t: State, id: ClientId, caller: Process, mode: Mode, p: Process, count: nat)
    requires Lists(s) && Operations(s) && Arms(s, t, id, caller, mode, p, count)
    ensures Operations(t)
  {
    assert s.order == [];
    forall i | i in t.ops ensures Owned(t, i, t.ops[i]) && Routed(t, t.ops[i]) && Swept(t, t.ops[i]) {
      assert Owned(s, i, s.ops[i]) && Routed(s, s.ops[i]) && Swept(s, s.ops[i]);
      assert i !in s.order;
    }
  }

  lemma ArmsBounded(s: State, t: State, id: ClientId, caller: Process, mode: Mode, p: Process, count: nat)
    requires Lists(s) && Balanced(s) && WorkerFits(s) && Arms(s, t, id, caller, mode, p, count)
    ensures Bounded(t) && Lists(t) && Balanced(t) && WorkerFits(t)
  {
    assert s.order == [];
    assert Where(t.ops, UnclaimedUpper) == {} by {
      forall i | i in t.ops ensures !InClass(t.ops[i], UnclaimedUpper) {
        assert i !in s.order;
      }
    }
  }

  lemma ArmsKeeps(s: State, t: State, id: ClientId, caller: Process, mode: Mode, p: Process, count: nat)
    requires Invariant(s) && Arms(s, t, id, caller, mode, p, count)
    ensures Invariant(t)
  {
    hide Lists, WorkerFits, Operations, ArmFits, LeaseFits, WatchFits, EventFits, Balanced, Bounded, Referenced,
      Ticketed, Claimed, Arms;
    ArmsOthers(s, t, id, caller, mode, p, count);
    ArmsReferenced(s, t, id, caller, mode, p, count);
    ArmsOperations(s, t, id, caller, mode, p, count);
    ArmsBounded(s, t, id, caller, mode, p, count);
  }

  lemma MessageKeeps(s: State, id: ClientId, caller: Process, action: Action)
    requires Invariant(s) && s.control == Free && id != 0 && ValidRequest(action)
    requires action.Arm? ==> action.target in s.locals
    ensures Invariant(Message(s, id, caller, action))
  {
    hide Invariant;
    if MessageStatus(s, id, caller, action) == Success {
      match action
      case Arm(mode, p, count, _) =>
        ArmsKeeps(s, Message(s, id, caller, action), id, caller, mode, p, count);
      case Resume =>
        WakeKeeps(s, OwnedBy(id), 1);
        ControlKeeps(s.(ops := WakeAll(s.ops, OwnedBy(id), 1)), Replying(id));
      case Release =>
        ControlKeeps(s, MessageReleasing(id));
    }
  }

  lemma MessageReleaseKeeps(s: State)
    requires Invariant(s) && s.control.MessageReleasing?
    ensures Invariant(MessageRelease(s))
  {
    hide Invariant, ReleaseOwner;
    ReleaseOwnerClears(s);
    ReleaseOwnerKeeps(s);
    ControlKeeps(ReleaseOwner(s), Replying(s.control.client));
  }

  lemma ReplyKeeps(s: State, copied: bool)
    requires Invariant(s) && s.control.Replying?
    ensures Invariant(Reply(s, copied))
  {
    hide Invariant, ReleaseOwner;
    ControlKnown(s);
    ReleaseOwnerClears(s);
    if !copied && s.owner == s.control.client {
      ReleaseOwnerKeeps(s);
      ControlKeeps(ReleaseOwner(s), Free);
    } else {
      ControlKeeps(s, Free);
    }
  }

  lemma LookupKeeps(s: State, p: Process)
    requires Invariant(s)
    ensures Invariant(LookupProcess(s, p))
  {
    hide Lists, WorkerFits, Operations, ArmFits, LeaseFits, WatchFits, EventFits, Balanced, Bounded, Ticketed,
      Claimed, Count;
    LocalsKeep(s, LookupProcess(s, p));
    var t := LookupProcess(s, p);
    assert Referenced(t) by {
      forall q: Process ensures t.references[q] == Holders(t, q) { assert s.references[q] == Holders(s, q); }
    }
    SettingsKeep(s, LookupProcess(s, p));
  }

  lemma DereferenceKeeps(s: State, p: Process)
    requires Invariant(s) && p in s.locals
    ensures Invariant(Dereference(s, p))
  {
    hide Lists, WorkerFits, Operations, ArmFits, LeaseFits, WatchFits, EventFits, Balanced, Bounded, Ticketed,
      Claimed, Count;
    LocalsKeep(s, Dereference(s, p));
    var t := Dereference(s, p);
    assert Referenced(t) by {
      forall q: Process ensures t.references[q] == Holders(t, q) { assert s.references[q] == Holders(s, q); }
    }
    SettingsKeep(s, Dereference(s, p));
  }

  lemma LocalsKeep(s: State, t: State)
    requires Operations(s) && ArmFits(s) && LeaseFits(s) && WatchFits(s) && EventFits(s)
    requires t == s.(references := t.references, locals := t.locals)
    ensures Operations(t) && ArmFits(t) && LeaseFits(t) && WatchFits(t) && EventFits(t)
  {
    hide Operations;
    SettingsOperations(s, t);
  }

  // ---------------------------------------------------------------------------------------------
  // Process exit and the watcher's verdict
  // ---------------------------------------------------------------------------------------------

  lemma ExitKeeps(s: State, p: Process)
    requires Invariant(s) && s.control == Free
    ensures Invariant(ExitRelease(s, p))
  {
    hide Invariant, ReleaseOwner;
    ControlKnown(s);
    ReleaseOwnerClears(s);
    if s.ownerProcess == Some(p) {
      ReleaseOwnerKeeps(s);
      ControlKeeps(ReleaseOwner(s), Exiting(p));
    } else {
      ControlKeeps(s, Exiting(p));
    }
  }

  lemma ExitSweepKeeps(s: State)
    requires Invariant(s) && s.control.Exiting?
    ensures Invariant(ExitSweep(s))
  {
    hide Invariant;
    var p := s.control.process;
    var d := if s.target == Some(p) then Disarm(s) else s;
    DisarmKeeps(s);
    WakeKeeps(d, Targeting(p), 2);
    var w := d.(ops := WakeAll(d.ops, Targeting(p), 2));
    ControlKnown(w);
    ControlKeeps(w, Free);
  }

  /** The end of the watch: the lock is left, the snapshot's reference goes to a local. */
  predicate WatchEnds(s: State, t: State) {
    && s.worker.Probing?
    && t == s.(worker := Sample, control := Free, locals := s.locals + multiset{s.worker.target})
  }

  lemma WatchEndOthers(s: State, t: State)
    requires ArmFits(s) && LeaseFits(s) && WatchFits(s) && EventFits(s) && WorkerFits(s) && Lists(s) && WatchEnds(s, t)
    requires Balanced(s) && Bounded(s) && Referenced(s) && Ticketed(s) && Claimed(s)
    ensures ArmFits(t) && LeaseFits(t) && WatchFits(t) && EventFits(t) && WorkerFits(t) && Lists(t)
    ensures Balanced(t) && Bounded(t) && Referenced(t) && Ticketed(t) && Claimed(t)
  {
    hide Count;
    forall q: Process ensures t.references[q] == Holders(t, q) { assert s.references[q] == Holders(s, q); }
    forall k: Ticket ensures TicketFits(t, k) { assert TicketFits(s, k); }
    forall j: OperationId ensures ClaimFits(t, j) { assert ClaimFits(s, j); }
  }

  lemma WatchEndOperations(s: State, t: State)
    requires Operations(s) && WatchEnds(s, t)
    ensures Operations(t)
  {
    forall i | i in t.ops ensures Owned(t, i, t.ops[i]) && Routed(t, t.ops[i]) && Swept(t, t.ops[i]) {
      assert Owned(s, i, s.ops[i]) && Routed(s, s.ops[i]) && Swept(s, s.ops[i]);
    }
  }

  lemma WatchEndKeeps(s: State, t: State)
    requires Invariant(s) && WatchEnds(s, t)
    ensures Invariant(t)
  {
    hide Lists, WorkerFits, Operations, ArmFits, LeaseFits, WatchFits, EventFits, Balanced, Bounded, Referenced,
      Ticketed, Claimed, WatchEnds;
    WatchEndOthers(s, t);
    WatchEndOperations(s, t);
  }

  lemma VerdictKeeps(s: State, exited: bool)
    requires Invariant(s) && s.worker.Probing?
    ensures Invariant(Verdict(s, exited))
  {
    hide Invariant;
    var p := s.worker.target;
    if s.target == Some(p) && exited {
      var w := s.(ops := WakeAll(s.ops, Targeting(p), 2));
      WakeKeeps(s, Targeting(p), 2);
      DisarmKeeps(w);
      WatchEndKeeps(Disarm(w), Verdict(s, exited));
    } else {
      WatchEndKeeps(s, Verdict(s, exited));
    }
  }

  // ---------------------------------------------------------------------------------------------
  // Stop
  // ---------------------------------------------------------------------------------------------

  function MarkStop(s: State): State {
    s.(stopping := true, workAvailable := true, control := StopReleasing)
  }

  lemma MarkStopKeeps(s: State)
    requires Invariant(s) && s.control == Free
    requires forall i | i in s.ops && s.ops[i].life != Unlinked :: s.ops[i].wakeReason == 3
    ensures Invariant(MarkStop(s))
  {
    hide Lists, WorkerFits, Operations, Balanced, Bounded, Referenced, Ticketed, Claimed;
    var t := MarkStop(s);
    SettingsOperations(s, t);
    SettingsReferenced(s, t);
    SettingsKeep(s, t);
  }

  lemma ReasonsBounded(s: State, i: OperationId)
    requires Invariant(s) && i in s.ops
    ensures s.ops[i].wakeReason <= 3 && s.ops[i].instance in s.instances
  {
    hide Lists, WorkerFits, ArmFits, LeaseFits, WatchFits, EventFits, Balanced, Bounded, Referenced, Ticketed, Claimed,
      Owned;
    Facts(s, i);
  }

  lemma StopKeeps(s: State)
    requires Invariant(s) && s.control == Free
    ensures Invariant(StopMark(s))
  {
    hide Invariant;
    var w := s.(ops := WakeAll(s.ops, Everything, 3));
    WakeKeeps(s, Everything, 3);
    forall i | i in w.ops && w.ops[i].life != Unlinked ensures w.ops[i].wakeReason == 3 {
      ReasonsBounded(s, i);
    }
    MarkStopKeeps(w);
    assert StopMark(s) == MarkStop(w);
  }

  lemma StopReleaseKeeps(s: State)
    requires Invariant(s) && s.control == StopReleasing
    ensures Invariant(StopRelease(s))
  {
    hide Invariant, ReleaseOwner;
    ReleaseOwnerClears(s);
    ReleaseOwnerKeeps(s);
    ControlKeeps(ReleaseOwner(s), Free);
  }

  // ---------------------------------------------------------------------------------------------
  // Instances
  // ---------------------------------------------------------------------------------------------

  /** Topology and instances change while nothing is armed; a stopping instance has no unwoken operation. */
  lemma TopologyKeeps(s: State, t: State)
    requires Invariant(s) && s.target.None? && t.topologyGeneration >= s.topologyGeneration
    requires t == s.(topologyGeneration := t.topologyGeneration, instances := t.instances,
                     ledger := s.ledger.(liveInstances := t.ledger.liveInstances,
                                         instanceStarts := t.ledger.instanceStarts,
                                         instanceCompletes := t.ledger.instanceCompletes))
    requires forall k | k in s.instances :: k in t.instances && t.instances[k].lower == s.instances[k].lower
    requires forall i | i in s.ops && s.ops[i].life != Unlinked && s.ops[i].instance in s.instances &&
                        t.instances[s.ops[i].instance].stopping && !s.instances[s.ops[i].instance].stopping ::
               s.ops[i].wakeReason == 3
    ensures Invariant(t)
  {
    hide Lists, WorkerFits, Operations, Balanced, Bounded, Referenced, Ticketed, Claimed;
    SettingsOperations(s, t);
    SettingsReferenced(s, t);
    SettingsKeep(s, t);
  }

  lemma SetupKeeps(s: State, i: InstanceId, lower: bool)
    requires Invariant(s) && i !in s.instances
    ensures Invariant(SetupInstance(s, i, lower))
  {
    hide Invariant;
    if !s.stopping {
      DisarmKeeps(s);
      TopologyKeeps(Disarm(s), SetupInstance(s, i, lower));
    }
  }

  lemma TeardownKeeps(s: State, i: InstanceId)
    requires Invariant(s) && i in s.instances
    ensures Invariant(TeardownInstance(s, i))
  {
    hide Invariant;
    var d := Disarm(s);
    DisarmKeeps(s);
    WakeKeeps(d, Inside(i), 3);
    var w := d.(ops := WakeAll(d.ops, Inside(i), 3));
    forall k | k in w.ops && w.ops[k].life != Unlinked && w.ops[k].instance == i ensures w.ops[k].wakeReason == 3 {
      ReasonsBounded(s, k);
    }
    TopologyKeeps(w, TeardownInstance(s, i));
  }

  lemma LedgerKeeps(s: State, t: State)
    requires Invariant(s)
    requires t == s.(ledger := s.ledger.(liveInstances := t.ledger.liveInstances,
                                         instanceStarts := t.ledger.instanceStarts,
                                         instanceCompletes := t.ledger.instanceCompletes))
    ensures Invariant(t)
  {
    hide Lists, WorkerFits, Operations, Balanced, Bounded, Referenced, Ticketed, Claimed;
    SettingsOperations(s, t);
    SettingsReferenced(s, t);
    SettingsKeep(s, t);
  }
}
