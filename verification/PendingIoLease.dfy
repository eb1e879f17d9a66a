/**
How the lease and the arm of the pended-I/O provider change hands in any run.
*/
module PendingIoLease {

  import opened Options
  import opened PendingIo
  import opened PendingIoInvariant
  import opened PendingIoRuns
  import opened PendingIoOrder

  lemma TableStep(s: State, l: Label)
    requires Enabled(s, l)
    ensures LeaseFrame(s, l, Apply(s, l))
  {
    hide Enabled, Apply, OperationFrame, PositionFrame, LeaseFrame, StopFrame;
    StepFrame(s, l, 0);
  }

  /** A client's identifier is never given out again: after its disconnection it names nobody. */
  lemma {:induction false} IdentifiersAreNotReused(r: Run, j: nat, k: nat, id: ClientId)
    requires IsRun(r) && j <= k < |r.states| && id <= r.states[j].nextClient && id !in r.states[j].clients
    ensures id <= r.states[k].nextClient && id !in r.states[k].clients
  {
    hide Apply, Enabled, Initial;
    if j == k {
    } else {
      IdentifiersAreNotReused(r, j, k - 1, id);
      TableStep(r.states[k - 1], r.labels[k - 1]);
    }
  }

  /** The lease passes from one client to another only through a release: nobody takes it away. */
  lemma LeaseIsExclusive(r: Run, k: nat)
    requires IsRun(r) && k < |r.labels| && r.states[k + 1].owner != r.states[k].owner
    ensures r.states[k + 1].owner == 0 || r.states[k].owner == 0
    ensures r.states[k + 1].owner != 0 ==>
              r.labels[k].LMessage? && r.labels[k].action.Arm? && r.states[k + 1].owner == r.labels[k].client
  {
    hide Apply, Enabled, Initial;
    TableStep(r.states[k], r.labels[k]);
  }

  /** An arm succeeds only for a connected, entitled client, before the stop, and only when everything is quiet. */
  lemma ArmNeedsQuiet(r: Run, k: nat)
    requires IsRun(r) && k < |r.labels| && r.labels[k].LMessage? && r.states[k + 1].armEpoch != r.states[k].armEpoch
    ensures var s, t, l := r.states[k], r.states[k + 1], r.labels[k];
            && l.action.Arm? && l.client in s.clients && s.clients[l.client] == l.caller && !s.stopping
            && (s.owner == 0 || s.owner == l.client) && t.owner == l.client
            && s.order == [] && s.work == [] && !InWorkItem(s.worker) && s.target.None?
            && s.ledger.liveInstances != 0 && s.ledger.instanceStarts == s.ledger.instanceCompletes
            && t.target == Some(l.action.target) && t.armedMode == l.action.mode && t.armedRemaining == l.action.count
            && t.armedGeneration == s.topologyGeneration
  {
    var s, l := r.states[k], r.labels[k];
    assert r.states[k + 1] == Apply(s, l);
    MessageApplies(s, l);
    RunKeeps(r, k);
    hide IsRun, Enabled, Apply, Invariant;
    ArmedBy(s, l.client, l.caller, l.action);
    QuietState(s);
    hide Message;
  }

  lemma MessageApplies(s: State, l: Label)
    requires Enabled(s, l) && l.LMessage?
    ensures Apply(s, l) == Message(s, l.client, l.caller, l.action)
  {
    hide Message;
  }

  lemma ArmedBy(s: State, id: ClientId, caller: Process, action: Action)
    requires Message(s, id, caller, action).armEpoch != s.armEpoch
    ensures var t := Message(s, id, caller, action);
            && action.Arm? && id in s.clients && s.clients[id] == caller && !s.stopping
            && (s.owner == 0 || s.owner == id) && t.owner == (if s.owner == 0 then id else s.owner)
            && Idle(s) && s.ledger.liveInstances != 0 && s.ledger.instanceStarts == s.ledger.instanceCompletes
            && t.target == Some(action.target) && t.armedMode == action.mode && t.armedRemaining == action.count
            && t.armedGeneration == s.topologyGeneration
  {
    hide WakeAll;
  }

  lemma QuietState(s: State)
    requires Invariant(s) && Idle(s)
    ensures s.order == [] && s.work == [] && !InWorkItem(s.worker) && s.target.None?
  {
    hide Operations, LeaseFits, WatchFits, EventFits, Balanced, Bounded, Referenced, Ticketed, Claimed;
  }
}
