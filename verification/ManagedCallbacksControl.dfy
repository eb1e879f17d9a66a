/**
The managed control as the driver holds it: a status block, two rundown references and the lease, updated in place.
Each method is one section; `Represents(s)` ties the fields to protocol state `s`, and each method leaves them
representing the state that the action of the same name leads to.
*/
module ManagedCallbacksControl {

  import opened Options
  import opened ManagedCallbacks
  import opened ManagedCallbacksInvariant

  /** EX_RUNDOWN_REF. Initialising it again is allowed only once it is run down. */
  class RundownReference {
    var closed: bool
    var count: int

    ghost predicate Is(r: Rundown)
      reads this
    {
      closed == r.closed && count == r.count
    }

    constructor ()
      ensures Is(Rundown(false, 0))
    {
      closed, count := false, 0;
    }

    method Acquire() returns (acquired: bool)
      modifies this
      ensures acquired == !old(closed)
      ensures Is(Rundown(old(closed), if acquired then old(count) + 1 else old(count)))
    {
      acquired := !closed;
      if acquired {
        count := count + 1;
      }
    }

    method Release()
      requires count > 0
      modifies this
      ensures Is(Rundown(old(closed), old(count) - 1))
    {
      count := count - 1;
    }

    /** The start of a wait for release. */
    method Close()
      modifies this
      ensures Is(Rundown(true, old(count)))
    {
      closed := true;
    }

    method Reinitialize()
      requires closed && count == 0
      modifies this
      ensures Is(Rundown(false, 0))
    {
      closed := false;
    }
  }

  /** What the bits and counters of the status block say of a body. */
  lemma QueriedBody(s: State, b: Body)
    requires Invariant(s)
    ensures s.enabled.Has(b) <==> Acquires(s, b)
    ensures s.draining.Has(b) <==> s.control.Switching? && s.control.disable.Has(b)
    ensures s.active.At(b) == Running(s, b)
    ensures !s.enabled.Has(b) && !s.draining.Has(b) ==> s.active.At(b) == 0
  {
    hide Leased, ControlFits, StopFits;
  }

  class Provider {
    const preBody: RundownReference
    const postBody: RundownReference
    var enabledMask: Mask
    var drainingMask: Mask
    var activePre: int
    var activePost: int
    var generation: nat
    var stopping: bool
    var holdMask: Mask
    var holdProcess: Process
    var holdBeforeBody: bool
    var holdEntered: nat
    var holdCompleted: nat
    var clients: map<ClientId, Process>
    var nextId: nat
    var ownerId: ClientId
    var ownerProcess: Option<Process>

    ghost predicate Represents(s: State)
      reads this, preBody, postBody
    {
      && preBody != postBody && preBody.Is(s.rundown.pre) && postBody.Is(s.rundown.post)
      && enabledMask == s.enabled && drainingMask == s.draining
      && activePre == s.active.pre && activePost == s.active.post
      && generation == s.generation && stopping == s.stopping
      && holdMask == s.holdMask && holdProcess == s.holdProcess && holdBeforeBody == s.holdBefore
      && holdEntered == s.holdEntered && holdCompleted == s.holdCompleted
      && clients == s.clients && nextId == s.nextClient
      && ownerId == s.owner && ownerProcess == s.ownerProcess
    }

    /** ManagedCallbacksInitialize. */
    constructor ()
      ensures Represents(Initial()) && fresh(preBody) && fresh(postBody)
    {
      preBody := new RundownReference();
      postBody := new RundownReference();
      enabledMask, drainingMask, activePre, activePost, generation := BOTH, NEITHER, 0, 0, 0;
      stopping, holdMask, holdProcess, holdBeforeBody, holdEntered, holdCompleted := false, NEITHER, 0, false, 0, 0;
      clients, nextId, ownerId, ownerProcess := map[], 0, 0, None;
    }

    lemma Masks(s: State)
      requires Represents(s)
      ensures enabledMask == s.enabled && stopping == s.stopping && ownerId == s.owner && ownerProcess == s.ownerProcess
    {
    }

    /** The holder moved on and nothing else did. */
    lemma Passed(s: State, control: Control)
      requires Represents(s)
      ensures Represents(s.(control := control))
    {
    }

    /** Only the position of the holder differs. */
    lemma Settled(s: State, t: State)
      requires Represents(s) && t == s.(control := t.control)
      ensures Represents(t)
    {
    }

    function Reference(b: Body): RundownReference {
      if b == PreBody then preBody else postBody
    }

    // -------------------------------------------------------------------------------------------
    // Callback bodies
    // -------------------------------------------------------------------------------------------

    method TestHoldBeforeBody(ghost s: State, b: Body, process: Process) returns (delay: bool)
      requires Represents(s)
      modifies this`holdMask, this`holdEntered
      ensures Represents(HoldBefore(s, b, process))
      ensures delay <==> HoldBefore(s, b, process).threads != s.threads
    {
      delay := !stopping && holdBeforeBody && holdMask == Bit(b) && process == holdProcess;
      if delay {
        holdMask := NEITHER;
        holdEntered := holdEntered + 1;
        assert (s.threads + multiset{HeldBefore(b)})[HeldBefore(b)] == s.threads[HeldBefore(b)] + 1;
      }
    }

    method HoldOver(ghost s: State, b: Body)
      requires Represents(s)
      modifies this`holdCompleted
      ensures Represents(HoldBeforeDone(s, b))
    {
      holdCompleted := holdCompleted + 1;
    }

    /** The first section of RunBody. */
    method EnterBody(ghost s: State, b: Body, process: Process) returns (acquired: bool, held: bool)
      requires Represents(s)
      modifies this`activePre, this`activePost, this`holdMask, this`holdEntered, preBody, postBody
      ensures Represents(ManagedCallbacks.EnterBody(s, b, process))
      ensures acquired == Acquires(s, b) && held == (acquired && HoldsInside(s, b, process))
    {
      acquired, held := false, false;
      if enabledMask.Has(b) {
        acquired := Reference(b).Acquire();
      }
      if acquired {
        if b == PreBody {
          activePre := activePre + 1;
        } else {
          activePost := activePost + 1;
        }
        if !holdBeforeBody && holdMask == Bit(b) && process == holdProcess {
          held := true;
          holdMask := NEITHER;
          holdEntered := holdEntered + 1;
        }
      }
    }

    /** The last section of RunBody; the rundown reference is released after it. */
    method LeaveBody(ghost s: State, b: Body, held: bool)
      requires Represents(s)
      modifies this`activePre, this`activePost, this`holdCompleted
      ensures Represents(ManagedCallbacks.LeaveBody(s, b, held))
    {
      if b == PreBody {
        activePre := activePre - 1;
      } else {
        activePost := activePost - 1;
      }
      if held {
        holdCompleted := holdCompleted + 1;
      }
    }

    method ReleaseBody(ghost s: State, b: Body)
      requires Represents(s) && Invariant(s) && Leaving(b) in s.threads
      modifies preBody, postBody
      ensures Represents(ReleaseRundown(s, b))
    {
      hide MasksFit, RundownFits, Leased, ControlFits, StopFits;
      Reference(b).Release();
    }

    // -------------------------------------------------------------------------------------------
    // SetEnabled
    // -------------------------------------------------------------------------------------------

    method Mark(ghost s: State, ghost purpose: Purpose, desired: Mask) returns (disable: Mask, enable: Mask)
      requires Represents(s)
      modifies this`enabledMask, this`drainingMask
      ensures Represents(ManagedCallbacks.Mark(s, purpose, desired))
      ensures var c := ManagedCallbacks.Mark(s, purpose, desired).control; disable == c.disable && enable == c.enable
    {
      var previous := enabledMask;
      disable := previous.Minus(desired);
      enable := desired.Minus(previous);
      enabledMask := enabledMask.Minus(disable);
      drainingMask := drainingMask.Plus(disable);
    }

    /** One step of the loop over the two references: begin a wait, finish it, or start the reference again. */
    method SwitchBody(ghost s: State, index: nat, disable: Mask, enable: Mask, waiting: bool)
      requires Represents(s) && Invariant(s) && s.control.Switching? && index < 2 && !Blocked(s)
      requires s.control.index == index && s.control.disable == disable && s.control.enable == enable
      requires s.control.waiting == waiting
      modifies preBody, postBody
      ensures Represents(ManagedCallbacks.SwitchBody(s))
    {
      hide Counted, Leased, ControlFits, StopFits;
      var b := BodyAt(index);
      if disable.Has(b) && !waiting {
        Reference(b).Close();
      } else if enable.Has(b) {
        Reference(b).Reinitialize();
      }
    }

    method Commit(ghost s: State, previous: Mask, desired: Mask, disable: Mask, enable: Mask)
      requires Represents(s) && s.control.Switching? && s.control.disable == disable && s.control.enable == enable
      requires disable == previous.Minus(desired) && enable == desired.Minus(previous)
      modifies this`enabledMask, this`drainingMask, this`generation
      ensures Represents(ManagedCallbacks.Commit(s))
    {
      drainingMask := drainingMask.Minus(disable);
      enabledMask := enabledMask.Plus(enable);
      if previous != desired {
        generation := generation + 1;
      }
    }

    // -------------------------------------------------------------------------------------------
    // Lease, clients and stop
    // -------------------------------------------------------------------------------------------

    method DisarmHold(ghost s: State)
      requires Represents(s) && s.control.Releasing?
      modifies this`holdMask
      ensures Represents(Advance(s))
    {
      holdMask := NEITHER;
    }

    method Disown(ghost s: State) returns (released: Option<Process>)
      requires Represents(s) && s.control.Disowning?
      modifies this`ownerId, this`ownerProcess
      ensures Represents(Advance(s)) && released == s.ownerProcess
    {
      released := ownerProcess;
      ownerProcess := None;
      ownerId := 0;
    }

    method Connect(ghost s: State, caller: Process) returns (id: Option<ClientId>)
      requires Represents(s)
      modifies this`clients, this`nextId
      ensures Represents(ManagedCallbacks.Connect(s, caller))
      ensures id.Some? <==> !s.stopping && s.nextClient < MAX_CLIENT_ID && |s.clients| < MAX_CLIENTS
      ensures id.Some? ==> id.value == s.nextClient + 1
    {
      id := None;
      if !stopping && nextId < MAX_CLIENT_ID && |clients| < MAX_CLIENTS {
        nextId := nextId + 1;
        clients := clients[nextId := caller];
        id := Some(nextId);
      }
    }

    method RemoveClient(ghost s: State, id: ClientId)
      requires Represents(s) && s.control == Removing(id)
      modifies this`clients
      ensures Represents(Advance(s))
    {
      clients := clients - {id};
    }

    /** The checks of a control message; `before` is what the reply will report as the previous mask. */
    method Check(ghost s: State, id: ClientId, caller: Process, matches: bool) returns (status: Status, before: Mask)
      requires Represents(s)
      ensures status == MessageStatus(s, id, caller, matches) && before == s.enabled
    {
      before := enabledMask;
      if id !in clients || clients[id] != caller {
        status := AccessDenied;
      } else if stopping {
        status := Deleting;
      } else if !matches {
        status := RevisionMismatch;
      } else if ownerId != 0 && ownerId != id {
        status := DeviceBusy;
      } else {
        status := Success;
      }
    }

    method Take(ghost s: State, id: ClientId, process: Process)
      requires Represents(s) && s.control.Granted? && s.control.client == id && s.control.process == process
      modifies this`ownerId, this`ownerProcess
      ensures Represents(ManagedCallbacks.Take(s))
    {
      if ownerId == 0 {
        ownerId := id;
        ownerProcess := Some(process);
      }
    }

    method ArmHold(ghost s: State, mask: Mask, process: Process, beforeBody: bool)
      requires Represents(s) && s.control.Applying? && s.control.request == Hold(mask, process, beforeBody)
      modifies this`holdMask, this`holdProcess, this`holdBeforeBody
      ensures Represents(ApplyRequest(s))
    {
      holdMask, holdProcess, holdBeforeBody := mask, process, beforeBody;
    }

    method MarkStopping(ghost s: State)
      requires Represents(s)
      modifies this`stopping, this`holdMask
      ensures Represents(Stop(s))
    {
      stopping := true;
      holdMask := NEITHER;
    }

    /**
    The query that does not take g_Control, at any moment of a run. A bit is set exactly if the next callback gets in,
    a body is draining exactly if a pause of it is under way, the counters are the callbacks inside, and a body that is
    neither enabled nor draining has none.
    */
    method Query(ghost s: State) returns (q: Snapshot)
      requires Represents(s) && Invariant(s)
      ensures forall b :: q.enabled.Has(b) <==> Acquires(s, b)
      ensures forall b :: q.draining.Has(b) <==> s.control.Switching? && s.control.disable.Has(b)
      ensures forall b :: q.active.At(b) == Running(s, b)
      ensures forall b :: !q.enabled.Has(b) && !q.draining.Has(b) ==> q.active.At(b) == 0
      ensures if q.owner != 0 then q.owner in s.clients else s.stopping || (q.enabled == BOTH && q.draining == NEITHER)
      ensures q == ManagedCallbacks.Query(s)
    {
      hide ControlFits, StopFits;
      q := Snapshot(enabledMask, drainingMask, PerBody(activePre, activePost), generation, ownerId);
      forall b: Body
        ensures q.enabled.Has(b) <==> Acquires(s, b)
        ensures q.draining.Has(b) <==> s.control.Switching? && s.control.disable.Has(b)
        ensures q.active.At(b) == Running(s, b)
        ensures !q.enabled.Has(b) && !q.draining.Has(b) ==> q.active.At(b) == 0
      {
        QueriedBody(s, b);
      }
    }
  }
}
