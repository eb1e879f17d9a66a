/**
Runs of the pended-I/O protocol: the invariant holds along every run, and what follows from it.
*/
module PendingIoRuns {

  import opened Options
  import opened PendingIo
  import opened PendingIoInvariant
  import opened PendingIoCallbacks
  import opened PendingIoWorker
  import opened PendingIoControl
  import opened PendingIoAdmission

  datatype Run = Run(states: seq<State>, labels: seq<Label>)

  ghost predicate IsRun(r: Run) {
    && |r.states| == |r.labels| + 1
    && r.states[0] == Initial()
    && forall k | 0 <= k < |r.labels| ::
         Enabled(r.states[k], r.labels[k]) && r.states[k + 1] == Apply(r.states[k], r.labels[k])
  }

  /** The state before the first callback: nothing listed, queued, armed, leased, referenced or counted. */
  predicate Blank(s: State) {
    && s.ops == map[] && s.order == [] && s.work == [] && s.worker == Starting && s.control == Free && !s.stopping
    && s.clients == map[] && s.owner == 0 && s.ownerProcess.None? && s.target.None?
    && s.armedMode == NoMode && s.armedRemaining == 0 && s.armedGeneration == 0
    && s.ledger.created == 0 && s.ledger.freed == 0 && s.ledger.liveContexts == 0 && s.ledger.logicalCompleted == 0
    && s.ledger.queueDepth == 0 && s.ledger.activeWorkers == 0 && s.ledger.preQueued == 0 && s.ledger.preCompleted == 0
    && s.ledger.preCancelled == 0 && s.ledger.postCalled == 0 && s.ledger.postQueued == 0 && s.ledger.postCompleted == 0
    && s.ledger.bufferLockFailures == 0 && s.ledger.violations == 0
    && s.references == multiset{} && s.locals == multiset{}
    && s.pended == multiset{} && s.completed == multiset{} && s.claims == multiset{}
    && s.epochLimit == 0 && s.epochUppers == 0 && s.epochLowers == 0
  }

  lemma BlankAccounts(s: State)
    requires Blank(s)
    ensures Balanced(s) && Bounded(s) && Referenced(s)
  {
    forall c: Class ensures Count(s.ops, c) == 0 {
      assert Where(s.ops, c) == {};
    }
  }

  lemma BlankOthers(s: State)
    requires Blank(s)
    ensures Lists(s) && WorkerFits(s) && Operations(s)
    ensures ArmFits(s) && LeaseFits(s) && WatchFits(s) && EventFits(s)
    ensures Ticketed(s) && Claimed(s)
  {
  }

  lemma BlankHolds(s: State)
    requires Blank(s)
    ensures Invariant(s)
  {
    hide Lists, WorkerFits, Operations, ArmFits, LeaseFits, WatchFits, EventFits, Balanced, Bounded, Referenced,
      Ticketed, Claimed, Blank;
    BlankAccounts(s);
    BlankOthers(s);
  }

  lemma InitialHolds()
    ensures Invariant(Initial())
  {
    hide Invariant;
    BlankHolds(Initial());
  }

  lemma CallbackStep(s: State, l: Label)
    requires Invariant(s) && CallbackCode(l) && CallbackEnabled(s, l)
    ensures Invariant(CallbackApply(s, l))
  {
    hide Invariant, DataIdle;
    match l
    case LAdmit(data, instance, requestor, file, read, granted) =>
      AdmitKeeps(s, data, instance, requestor, file, read, granted);
    case LQueue(i, post) => QueueKeeps(s, i, post);
    case LUnlink(i) => UnlinkKeeps(s, i);
    case LFree(i) => FreeKeeps(s, i);
    case LDropLogical(_) => DropKeeps(s, l);
    case _ => if l.LSwap? || l.LCount? { FinishKeeps(s, l); } else { MoveKeeps(s, l); }
  }

  lemma WorkerStep(s: State, l: Label)
    requires Invariant(s) && WorkerCode(l) && WorkerEnabled(s, l)
    ensures Invariant(WorkerApply(s, l))
  {
    hide Invariant;
    match l
    case LSnapshot => SnapshotKeeps(s);
    case LVerdict(exited) => VerdictKeeps(s, exited);
    case LPop => if s.work == [] { IdleKeeps(s, l); } else { TakeKeeps(s); }
    case LDecide(waited) => DecideKeeps(s, waited);
    case LComplete => CompleteKeeps(s);
    case LFinished => FinishedKeeps(s);
    case LDropWorker => DropWorkerKeeps(s);
    case _ => IdleKeeps(s, l);
  }

  lemma ControlStep(s: State, l: Label)
    requires Invariant(s) && ControlCode(l) && ControlEnabled(s, l)
    ensures Invariant(ControlApply(s, l))
  {
    hide Invariant;
    match l
    case LConnect(caller) => ConnectKeeps(s, caller);
    case LDisconnect(id) => DisconnectKeeps(s, id);
    case LDisconnectRemove => RemoveKeeps(s);
    case LMessage(id, caller, action) => MessageKeeps(s, id, caller, action);
    case LMessageRelease => MessageReleaseKeeps(s);
    case LReply(copied) => ReplyKeeps(s, copied);
    case LExit(p) => ExitKeeps(s, p);
    case LExitSweep => ExitSweepKeeps(s);
    case LStop => StopKeeps(s);
    case LStopRelease => StopReleaseKeeps(s);
  }

  lemma SetupStep(s: State, l: Label)
    requires Invariant(s) && SetupEnabled(s, l)
    ensures Invariant(SetupApply(s, l))
  {
    hide Invariant;
    match l
    case LLookup(p) => LookupKeeps(s, p);
    case LDereference(p) => DereferenceKeeps(s, p);
    case LSetup(i, lower) => SetupKeeps(s, i, lower);
    case LTeardown(i) => TeardownKeeps(s, i);
    case _ => LedgerKeeps(s, SetupApply(s, l));
  }

  /** Every atomic step of every thread keeps the invariant. */
  lemma StepKeeps(s: State, l: Label)
    requires Invariant(s) && Enabled(s, l)
    ensures Invariant(Apply(s, l))
  {
    hide Invariant, CallbackEnabled, WorkerEnabled, ControlEnabled, SetupEnabled, CallbackApply, WorkerApply,
      ControlApply, SetupApply;
    if CallbackCode(l) {
      CallbackStep(s, l);
    } else if WorkerCode(l) {
      WorkerStep(s, l);
    } else if ControlCode(l) {
      ControlStep(s, l);
    } else {
      SetupStep(s, l);
    }
  }

  lemma {:induction false} RunKeeps(r: Run, k: nat)
    requires IsRun(r) && k < |r.states|
    ensures Invariant(r.states[k])
  {
    hide Invariant, Enabled, Apply;
    if k == 0 {
      InitialHolds();
    } else {
      RunKeeps(r, k - 1);
      StepKeeps(r.states[k - 1], r.labels[k - 1]);
    }
  }
}
