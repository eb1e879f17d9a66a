/**
What a step of the pended-I/O protocol, and hence a run of it, can never undo.
*/
module PendingIoGrowth {

  import opened Options
  import opened PendingIo
  import opened PendingIoInvariant
  import opened PendingIoRuns
  import opened PendingIoOrder

  ghost predicate OperationsGrow(s: State, t: State) {
    && s.ledger.created <= t.ledger.created
    && (forall i | i in t.ops && i < s.ledger.created :: i in s.ops)
    && (forall i | i in t.ops && i in s.ops :: OperationGrows(s.ops[i], t.ops[i]))
  }

  /** Identifiers are never reused, and reasons, deaths, releases, claims and stops are never undone. */
  ghost predicate Grows(s: State, t: State) {
    && OperationsGrow(s, t)
    && (s.stopping ==> t.stopping && t.pended == s.pended && t.ledger.created == s.ledger.created)
    && (forall k | k in s.instances :: k in t.instances && (s.instances[k].stopping ==> t.instances[k].stopping))
    && (s.worker == Terminated ==> t.worker == Terminated)
  }

  lemma GrowsTransitive(s: State, t: State, v: State)
    requires Grows(s, t) && Grows(t, v)
    requires forall i | i in s.ops :: i < s.ledger.created
    ensures Grows(s, v)
  {
    forall i | i in v.ops && i in s.ops ensures OperationGrows(s.ops[i], v.ops[i]) {
      assert i in t.ops;
    }
  }

  lemma GrowsRefl(s: State)
    ensures Grows(s, s)
  {
  }

  /** An operation with a logical share, and one that the worker holds, is linked. */
  lemma SharesKeepAlive(s: State, i: OperationId)
    requires Lists(s) && Operations(s)
    ensures Alive(s, i) && (i in s.ops ==> i != s.ledger.created)
  {
    hide Routed, Swept;
    if i in s.ops {
      Facts(s, i);
    }
  }

  lemma FramesGrow(s: State, l: Label, t: State)
    requires Lists(s) && Operations(s) && forall i :: Frame(s, l, t, i)
    ensures Grows(s, t)
  {
    hide Lists, Operations, LeaseFrame, OperationGrows, Alive, ActsOn;
    assert Frame(s, l, t, 0);
    forall i ensures (i in t.ops && i !in s.ops ==> i == s.ledger.created) &&
                     (i in t.ops && i in s.ops ==> OperationGrows(s.ops[i], t.ops[i])) {
      SharesKeepAlive(s, i);
      assert Frame(s, l, t, i);
    }
  }

  lemma StepGrows(s: State, l: Label)
    requires Invariant(s) && Enabled(s, l)
    ensures Grows(s, Apply(s, l))
  {
    assert Lists(s) && Operations(s) by {
      hide Enabled, Apply;
    }
    hide *;
    forall i ensures Frame(s, l, Apply(s, l), i) {
      StepFrame(s, l, i);
    }
    FramesGrow(s, l, Apply(s, l));
  }

  lemma {:induction false} RunGrows(r: Run, j: nat, k: nat)
    requires IsRun(r) && j <= k < |r.states|
    ensures Grows(r.states[j], r.states[k])
    decreases k
  {
    hide Invariant, Grows, Apply, Enabled;
    if j == k {
      GrowsRefl(r.states[j]);
    } else {
      RunGrows(r, j, k - 1);
      RunKeeps(r, k - 1);
      StepGrows(r.states[k - 1], r.labels[k - 1]);
      RunCreated(r, j);
      GrowsTransitive(r.states[j], r.states[k - 1], r.states[k]);
    }
  }

  lemma RunCreated(r: Run, k: nat)
    requires IsRun(r) && k < |r.states|
    ensures forall i | i in r.states[k].ops :: i < r.states[k].ledger.created
  {
    hide WorkerFits, Operations, ArmFits, LeaseFits, WatchFits, EventFits, Balanced, Bounded, Referenced, Ticketed,
      Claimed, Apply, Enabled;
    RunKeeps(r, k);
  }
}
