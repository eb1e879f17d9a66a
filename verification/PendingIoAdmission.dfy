/**
Arm consumption, lower claims and publication keep the invariant.
*/
module PendingIoAdmission {

  import opened Options
  import opened PendingIo
  import opened PendingIoInvariant

  /** One reference on `p` has no holder yet: the callback is about to publish it or to drop it. */
  ghost predicate InFlight(s: State, p: Process) {
    forall q: Process :: s.references[q] == Holders(s, q) + One(q == p)
  }

  ghost predicate RoomFor(s: State, lower: bool) {
    && Bounded(s)
    && (if lower then s.epochLowers + 1 + Count(s.ops, UnclaimedUpper) <= s.epochUppers
        else s.epochUppers + 1 + s.armedRemaining <= s.epochLimit)
  }

  /** Between consumption and publication, under one hold of g_Lock. */
  ghost predicate Admitting(s: State, p: Process, lower: bool) {
    && Lists(s) && WorkerFits(s) && Operations(s)
    && ArmFits(s) && LeaseFits(s) && WatchFits(s) && EventFits(s)
    && Balanced(s) && Ticketed(s) && Claimed(s)
    && InFlight(s, p) && RoomFor(s, lower)
  }

  // ---------------------------------------------------------------------------------------------
  // Publication
  // ---------------------------------------------------------------------------------------------

  predicate Fresh(s: State, o: Operation) {
    && o.references == 1 && !o.logicalReleased && o.data.None? && o.wakeReason == 0 && !o.lowerClaimed && !o.mdl
    && !o.postWork && o.life == Linked && o.stage == FirstStage(o.lower, o.mode, o.read)
    && o.instance in s.instances && s.instances[o.instance] == Instance(o.lower, false)
    && !s.stopping && o.owner == s.owner != 0 && o.generation <= s.topologyGeneration
    && (o.lower ==> o.read && (o.mode == Pre || o.mode == FailReadLock))
  }

  lemma PublishLists(s: State, o: Operation)
    requires Lists(s) && Fresh(s, o)
    ensures Lists(Publish(s, o, true)) && s.ledger.created !in s.ops
  {
    Snoc(s.order, s.ledger.created);
  }

  lemma FreshOwned(s: State, t: State, o: Operation, n: OperationId)
    requires Fresh(s, o) && WorkerFits(s) && n !in s.ops && t.worker == s.worker && t.instances == s.instances
    requires t.owner == s.owner && t.stopping == s.stopping && t.topologyGeneration == s.topologyGeneration
    ensures Owned(t, n, o) && Routed(t, o) && Swept(t, o)
  {
  }

  lemma PublishOperations(s: State, o: Operation)
    requires Operations(s) && WorkerFits(s) && Fresh(s, o) && s.ledger.created !in s.ops
    ensures Operations(Publish(s, o, true)) && WorkerFits(Publish(s, o, true))
  {
    hide Fresh;
    var t, n := Publish(s, o, true), s.ledger.created;
    FreshOwned(s, t, o, n);
    forall i | i in t.ops ensures Owned(t, i, t.ops[i]) && Routed(t, t.ops[i]) && Swept(t, t.ops[i]) {
      if i != n {
        assert t.ops[i] == s.ops[i];
      }
    }
  }

  lemma PublishCounts(s: State, o: Operation)
    requires Balanced(s) && RoomFor(s, o.lower) && Fresh(s, o) && s.ledger.created !in s.ops
    ensures Balanced(Publish(s, o, true)) && Bounded(Publish(s, o, true))
  {
    var n := s.ledger.created;
    CountSet(s.ops, n, o, Unsettled);
    CountSet(s.ops, n, o, Uncounted);
    CountSet(s.ops, n, o, PreOutstanding);
    CountSet(s.ops, n, o, PostOutstanding);
    CountSet(s.ops, n, o, UnclaimedUpper);
  }

  lemma PublishReferenced(s: State, o: Operation, granted: bool)
    requires InFlight(s, o.target) && s.ledger.created !in s.ops
    ensures Referenced(Publish(s, o, granted))
  {
    var t := Publish(s, o, granted);
    forall q: Process ensures t.references[q] == Holders(t, q) {
      assert s.references[q] == Holders(s, q) + One(q == o.target);
      CountSet(s.ops, s.ledger.created, o, For(q));
    }
  }

  lemma PublishHistory(s: State, o: Operation)
    requires ArmFits(s) && LeaseFits(s) && WatchFits(s) && EventFits(s)
    requires Ticketed(s) && Claimed(s) && Fresh(s, o) && s.ledger.created !in s.ops
    ensures Ticketed(Publish(s, o, true)) && Claimed(Publish(s, o, true))
    ensures ArmFits(Publish(s, o, true)) && LeaseFits(Publish(s, o, true))
    ensures WatchFits(Publish(s, o, true)) && EventFits(Publish(s, o, true))
  {
    var t := Publish(s, o, true);
    forall k: Ticket ensures TicketFits(t, k) { assert TicketFits(s, k); }
    forall j: OperationId ensures ClaimFits(t, j) { assert ClaimFits(s, j); }
  }

  lemma CreatedIsFree(s: State)
    requires Lists(s)
    ensures s.ledger.created !in s.ops
  {
  }

  lemma NotGranted(s: State, o: Operation)
    requires Admitting(s, o.target, o.lower)
    ensures Invariant(Publish(s, o, false))
  {
    hide Lists, WorkerFits, Operations, LeaseFits, EventFits, Balanced, Referenced, Ticketed, Claimed, InFlight, Count;
    var t := Publish(s, o, false);
    CreatedIsFree(s);
    PublishReferenced(s, o, false);
    ArmOnlyOperations(s, t);
    ArmOnlyOthers(s, t);
  }

  lemma PublishKeeps(s: State, o: Operation, granted: bool)
    requires Admitting(s, o.target, o.lower) && Fresh(s, o)
    ensures Invariant(Publish(s, o, granted))
  {
    if granted {
      hide Lists, WorkerFits, Operations, ArmFits, LeaseFits, WatchFits, EventFits, Balanced, Bounded, Referenced,
        Ticketed, Claimed, InFlight, RoomFor, Fresh, Publish;
      PublishLists(s, o);
      PublishOperations(s, o);
      PublishCounts(s, o);
      PublishReferenced(s, o, true);
      PublishHistory(s, o);
    } else {
      hide Invariant, Admitting;
      NotGranted(s, o);
    }
  }

  // ---------------------------------------------------------------------------------------------
  // Consumption of the arm by an upper
  // ---------------------------------------------------------------------------------------------

  lemma ConsumeIsArmOnly(s: State, p: Process)
    requires s.target == Some(p)
    ensures ArmOnly(s, Consume(s, p))
  {
  }

  lemma ConsumeArm(s: State, p: Process)
    requires ArmFits(s) && WatchFits(s) && Bounded(s) && s.armedMode != NoMode && s.target == Some(p)
    ensures ArmFits(Consume(s, p)) && WatchFits(Consume(s, p)) && RoomFor(Consume(s, p), false)
  {
  }

  lemma ConsumeHolders(s: State, p: Process, q: Process)
    requires s.target == Some(p) && s.references[q] == Holders(s, q)
    ensures Consume(s, p).references[q] == Holders(Consume(s, p), q) + One(q == p)
  {
    hide Count;
    if s.armedRemaining - 1 != 0 {
      assert Holders(Consume(s, p), q) == Holders(s, q);
    }
  }

  lemma ConsumeReferenced(s: State, p: Process)
    requires Referenced(s) && s.target == Some(p)
    ensures InFlight(Consume(s, p), p)
  {
    forall q: Process ensures Consume(s, p).references[q] == Holders(Consume(s, p), q) + One(q == p) {
      ConsumeHolders(s, p, q);
    }
  }

  lemma ConsumeAdmits(s: State, p: Process)
    requires Invariant(s) && s.armedMode != NoMode && s.target == Some(p)
    ensures Admitting(Consume(s, p), p, false) && s.owner != 0 && s.armedGeneration == s.topologyGeneration
  {
    assert s.owner != 0 && s.armedGeneration == s.topologyGeneration;
    hide Lists, WorkerFits, Operations, ArmFits, LeaseFits, WatchFits, EventFits, Balanced, Bounded, Referenced,
      Ticketed, Claimed, InFlight, RoomFor, Consume;
    var t := Consume(s, p);
    ConsumeIsArmOnly(s, p);
    ArmOnlyOperations(s, t);
    ArmOnlyOthers(s, t);
    ConsumeArm(s, p);
    ConsumeReferenced(s, p);
  }

  lemma AdmitUpperKeeps(s: State, data: DataId, instance: InstanceId, p: Process, file: FileId, read: bool,
                        granted: bool)
    requires Invariant(s) && instance in s.instances && AdmitsUpper(s, instance, p, read)
    ensures Invariant(Admit(s, data, instance, p, file, read, granted))
  {
    hide Invariant, Admitting;
    ConsumeAdmits(s, p);
    var o := NewOperation(instance, false, file, p, data, s.armedGeneration, s.owner, s.armedMode, read);
    PublishKeeps(Consume(s, p), o, granted && s.armedMode != FailAlloc);
  }

  // ---------------------------------------------------------------------------------------------
  // Claim of an upper by a lower
  // ---------------------------------------------------------------------------------------------

  predicate Claims(s: State, t: State, u: OperationId, p: Process)
    requires u in s.ops
  {
    t == s.(ops := s.ops[u := s.ops[u].(lowerClaimed := true)], references := s.references + multiset{p},
            claims := s.claims + multiset{u})
  }

  lemma ClaimOperations(s: State, t: State, u: OperationId, p: Process)
    requires Operations(s) && u in s.ops && Claims(s, t, u, p)
    ensures Operations(t)
  {
    forall i | i in t.ops ensures Owned(t, i, t.ops[i]) && Routed(t, t.ops[i]) && Swept(t, t.ops[i]) {
      assert Owned(s, i, s.ops[i]) && Routed(s, s.ops[i]) && Swept(s, s.ops[i]);
    }
  }

  lemma ClaimOthers(s: State, t: State, u: OperationId, p: Process)
    requires Lists(s) && WorkerFits(s) && EventFits(s) && ArmFits(s) && LeaseFits(s) && WatchFits(s)
    requires Ticketed(s) && Claimed(s) && u in s.ops && Claims(s, t, u, p)
    requires !s.ops[u].lower && !s.ops[u].lowerClaimed
    ensures Lists(t) && WorkerFits(t) && EventFits(t) && ArmFits(t) && LeaseFits(t) && WatchFits(t)
    ensures Ticketed(t) && Claimed(t)
  {
    forall k: Ticket ensures TicketFits(t, k) { assert TicketFits(s, k); }
    forall j: OperationId ensures ClaimFits(t, j) { assert ClaimFits(s, j); }
  }

  lemma ClaimCounts(s: State, t: State, u: OperationId, p: Process)
    requires Balanced(s) && Bounded(s) && u in s.ops && Claims(s, t, u, p)
    requires s.ops[u].life != Unlinked && !s.ops[u].lower && !s.ops[u].lowerClaimed
    ensures Balanced(t) && RoomFor(t, true)
  {
    var o := s.ops[u].(lowerClaimed := true);
    CountSet(s.ops, u, o, Unsettled);
    CountSet(s.ops, u, o, Uncounted);
    CountSet(s.ops, u, o, PreOutstanding);
    CountSet(s.ops, u, o, PostOutstanding);
    CountSet(s.ops, u, o, UnclaimedUpper);
  }

  lemma ClaimReferenced(s: State, t: State, u: OperationId, p: Process)
    requires Referenced(s) && u in s.ops && Claims(s, t, u, p)
    ensures InFlight(t, p)
  {
    forall q: Process ensures t.references[q] == Holders(t, q) + One(q == p) {
      assert s.references[q] == Holders(s, q);
      CountSet(s.ops, u, s.ops[u].(lowerClaimed := true), For(q));
    }
  }

  /**
  What a lower may claim is an upper: an unreleased lower in a pair mode is still inside its own pre
  callback, and Filter Manager does not run a second callback on that data.
  */
  lemma EligibleIsUpper(s: State, u: OperationId, data: DataId, file: FileId, p: Process)
    requires u in s.ops && Owned(s, u, s.ops[u]) && Routed(s, s.ops[u])
    requires Eligible(s, s.ops[u], data, file, p) && DataIdle(s, data)
    ensures !s.ops[u].lower && s.ops[u].life != Unlinked
  {
    assert !Busy(s.ops[u].stage);
  }

  lemma ClaimAdmits(s: State, u: OperationId, data: DataId, file: FileId, p: Process)
    requires Invariant(s) && u in s.ops && Eligible(s, s.ops[u], data, file, p) && DataIdle(s, data)
    ensures Admitting(Claim(s, u, p), p, true)
    ensures s.owner != 0
  {
    hide Lists, WorkerFits, Operations, ArmFits, LeaseFits, WatchFits, EventFits, Balanced, Bounded, Referenced,
      Ticketed, Claimed, InFlight, RoomFor, Owned, Routed, DataIdle;
    var t := Claim(s, u, p);
    Facts(s, u);
    EligibleIsUpper(s, u, data, file, p);
    ClaimOperations(s, t, u, p);
    ClaimOthers(s, t, u, p);
    ClaimCounts(s, t, u, p);
    ClaimReferenced(s, t, u, p);
  }

  lemma AdmitLowerKeeps(s: State, data: DataId, instance: InstanceId, p: Process, file: FileId, read: bool,
                        granted: bool)
    requires Invariant(s) && instance in s.instances && !AdmitsUpper(s, instance, p, read) && DataIdle(s, data)
    ensures Invariant(Admit(s, data, instance, p, file, read, granted))
  {
    hide Invariant, Admitting, DataIdle;
    if AdmitsLower(s, instance, read) {
      var found := FindPair(s, s.order, data, file, p);
      if found.Some? {
        var u := s.ops[found.value];
        ClaimAdmits(s, found.value, data, file, p);
        var mode := if u.mode == FailReadLock then FailReadLock else Pre;
        var o := NewOperation(instance, true, file, p, data, u.generation, u.owner, mode, read);
        PublishKeeps(Claim(s, found.value, p), o, granted);
      }
    }
  }

  lemma AdmitKeeps(s: State, data: DataId, instance: InstanceId, p: Process, file: FileId, read: bool, granted: bool)
    requires Invariant(s) && instance in s.instances && DataIdle(s, data)
    ensures Invariant(Admit(s, data, instance, p, file, read, granted))
  {
    hide Invariant, Admit, DataIdle;
    if AdmitsUpper(s, instance, p, read) {
      AdmitUpperKeeps(s, data, instance, p, file, read, granted);
    } else {
      AdmitLowerKeeps(s, data, instance, p, file, read, granted);
    }
  }
}
