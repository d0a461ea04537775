/** Whole starts as steps of the session store: what the flow and its cleanup do to a run, in the order they do it, and
    that starts one after another forget no session. */
module StartSteps {
  import opened Common
  import opened Workers
  import opened DependencyAnalysis
  import opened BlockerLaws
  import opened Planner
  import opened Execution
  import opened SerialLoop
  import opened AttemptRecovery
  import opened StartFailure
  import opened RunFlow
  import opened CreationSteps
  import CleanupRecovery
  import RemoteJournal
  import Outbox
  import Json
  import S = SessionConservation

  // ----- Steps that execute -----

  /** Writes of the journal and of worker transitions; no plan is made or worked off. */
  ghost predicate Executing(steps: seq<S.Step>) {
    forall step :: step in steps ==> step.Journal? || step.Offered?
  }

  /** The steps execute and leave the run with these workers. */
  ghost predicate Leads(s: S.Store, steps: seq<S.Step>, workers: WorkerMap) {
    var next := S.RunOf(s, steps);
    && Executing(steps) && Outbox.Consistent(next.outbox) && next.workers == workers
    && next.plan == s.plan && next.verified == s.verified
  }

  lemma {:induction false} RunConcat(s: S.Store, a: seq<S.Step>, b: seq<S.Step>)
    ensures S.RunOf(s, a + b) == S.RunOf(S.RunOf(s, a), b)
    decreases |a|
  {
    hide S.Next;
    if a == [] {
      assert a + b == b;
    } else {
      assert (a + b)[0] == a[0] && (a + b)[1..] == a[1..] + b;
      RunConcat(S.Next(s, a[0]), a[1..], b);
    }
  }

  lemma LeadsOn(s: S.Store, a: seq<S.Step>, middle: WorkerMap, b: seq<S.Step>, workers: WorkerMap)
    requires Leads(s, a, middle) && Leads(S.RunOf(s, a), b, workers)
    ensures Leads(s, a + b, workers)
  {
    hide S.RunOf, Outbox.Consistent;
    RunConcat(s, a, b);
  }

  lemma NothingLeads(s: S.Store)
    requires Outbox.Consistent(s.outbox)
    ensures Leads(s, [], s.workers)
  {
    assert S.RunOf(s, []) == s;
  }

  lemma OneLeads(s: S.Store, t: Transition)
    requires Outbox.Consistent(s.outbox) && S.LeavesCleanup(t) && t.workerId in s.workers
    ensures Leads(s, [S.Offered(t)], s.workers[t.workerId := Offer(s.workers[t.workerId], t)])
  {
    hide Offer, Outbox.Consistent;
    S.RunAppend(s, [], S.Offered(t));
    assert [] + [S.Offered(t)] == [S.Offered(t)] && S.RunOf(s, []) == s;
  }

  ghost predicate Phased(workers: WorkerMap, ts: seq<Transition>) {
    forall t :: t in ts ==> S.LeavesCleanup(t) && t.workerId in workers
  }

  lemma {:induction false} BatchLeads(s: S.Store, ts: seq<Transition>) returns (steps: seq<S.Step>)
    requires Outbox.Consistent(s.outbox) && Phased(s.workers, ts) && ApplyBatch(s.workers, ts).Some?
    ensures Leads(s, steps, ApplyBatch(s.workers, ts).value)
    decreases |ts|
  {
    hide Offer, Apply, S.LeavesCleanup, Outbox.Consistent, S.RunOf;
    if ts == [] {
      NothingLeads(s);
      steps := [];
    } else {
      assert ts[0] in ts;
      OneLeads(s, ts[0]);
      var first := [S.Offered(ts[0])];
      var rest := BatchLeads(S.RunOf(s, first), ts[1..]);
      LeadsOn(s, first, S.RunOf(s, first).workers, rest, ApplyBatch(s.workers, ts).value);
      steps := first + rest;
    }
  }

  lemma InterfereOne(workers: WorkerMap, writes: seq<AbortWrite>)
    requires writes != []
    ensures var a := writes[0]; var lands := a.workerId in workers && workers[a.workerId].HasSession();
            var next :=
              if lands then workers[a.workerId := Offer(workers[a.workerId], AbortTransition(a))] else workers;
            Interfere(workers, writes) == Interfere(next, writes[1..])
  {
    hide Offer;
  }

  lemma {:induction false} AbortsLead(s: S.Store, writes: seq<AbortWrite>) returns (steps: seq<S.Step>)
    requires Outbox.Consistent(s.outbox)
    ensures Leads(s, steps, Interfere(s.workers, writes))
    decreases |writes|
  {
    hide Offer, Interfere, Outbox.Consistent, S.RunOf;
    if writes == [] {
      InterfereNothing(s.workers);
      NothingLeads(s);
      steps := [];
    } else {
      InterfereOne(s.workers, writes);
      var t := AbortTransition(writes[0]);
      var first := [];
      if t.workerId in s.workers && s.workers[t.workerId].HasSession() {
        OneLeads(s, t);
        first := [S.Offered(t)];
      } else {
        NothingLeads(s);
      }
      var rest := AbortsLead(S.RunOf(s, first), writes[1..]);
      LeadsOn(s, first, S.RunOf(s, first).workers, rest, Interfere(s.workers, writes));
      steps := first + rest;
    }
  }

  lemma BatchWriteLeads(s: S.Store, foreign: seq<AbortWrite>, ts: seq<Transition>) returns (steps: seq<S.Step>)
    requires Outbox.Consistent(s.outbox) && Phased(s.workers, ts)
    requires ApplyBatch(Interfere(s.workers, foreign), ts).Some?
    ensures Leads(s, steps, ApplyBatch(Interfere(s.workers, foreign), ts).value)
  {
    hide Interfere, ApplyBatch, S.RunOf, S.LeavesCleanup, Outbox.Consistent;
    var first := AbortsLead(s, foreign);
    InterferedIds(s.workers, foreign);
    var rest := BatchLeads(S.RunOf(s, first), ts);
    LeadsOn(s, first, Interfere(s.workers, foreign), rest, ApplyBatch(Interfere(s.workers, foreign), ts).value);
    steps := first + rest;
  }

  lemma InterferedIds(workers: WorkerMap, foreign: seq<AbortWrite>)
    ensures Interfere(workers, foreign).Keys == workers.Keys
  {
  }

  lemma WriteLeads(s: S.Store, foreign: seq<AbortWrite>, t: Transition) returns (steps: seq<S.Step>)
    requires Outbox.Consistent(s.outbox) && S.LeavesCleanup(t) && t.workerId in s.workers
    requires Write(s.workers, foreign, t).Some?
    ensures Leads(s, steps, Write(s.workers, foreign, t).value)
    ensures Write(s.workers, foreign, t).value.Keys == s.workers.Keys
  {
    hide Interfere, ApplyBatch, S.RunOf, S.LeavesCleanup, Outbox.Consistent, Apply, Offer;
    steps := BatchWriteLeads(s, foreign, [t]);
    WriteAt(s.workers, foreign, t);
    InterferedIds(s.workers, foreign);
  }

  // ----- An attempt -----

  lemma AttemptTransitions(id: WorkerId, w: Worker, attemptId: AttemptId, created: bool, e: Env)
    ensures S.LeavesCleanup(ProvisionedWrite(id, w)) && ProvisionedWrite(id, w).workerId == id
    ensures S.LeavesCleanup(ActiveWrite(id, w, e.now)) && ActiveWrite(id, w, e.now).workerId == id
    ensures S.LeavesCleanup(StartedWrite(id, w, e, created)) && StartedWrite(id, w, e, created).workerId == id
    ensures S.LeavesCleanup(OutcomeWrite(id, w, attemptId, e)) && OutcomeWrite(id, w, attemptId, e).workerId == id
  {
  }

  lemma CreationLeads(s: S.Store, id: WorkerId, cleanup: bool, session: NewSession) returns (steps: seq<S.Step>)
    requires Outbox.Consistent(s.outbox)
    ensures Leads(s, steps, AttachSession(s.workers, id, session, cleanup))
  {
    hide AttachSession, S.RunOf, Outbox.Consistent;
    var entry := FreshId(s);
    steps := CreationSteps.CreationSteps(entry, id, cleanup, session);
    CreationRuns(s, entry, id, cleanup, session);
  }

  lemma FailureLeads(s: S.Store, id: WorkerId, cleanup: bool) returns (steps: seq<S.Step>)
    requires Outbox.Consistent(s.outbox)
    ensures Leads(s, steps, s.workers)
  {
    hide S.RunOf, Outbox.Consistent;
    var entry := FreshId(s);
    steps := FailedSteps(entry, id, cleanup, false, Json.Null);
    FailureRuns(s, entry, id, cleanup, false, Json.Null);
  }

  lemma ProvisioningLeads(s: S.Store, id: WorkerId, e: Env) returns (steps: seq<S.Step>)
    requires Outbox.Consistent(s.outbox) && id in s.workers
    ensures var workers := Provisioning(s.workers, id, e);
            && Leads(s, steps, if workers.Some? then workers.value else Interfere(s.workers, e.aborts(0)))
            && (workers.Some? ==> workers.value.Keys == s.workers.Keys)
  {
    hide AttachSession, Interfere, S.RunOf, Outbox.Consistent;
    if s.workers[id].HasSession() {
      NothingLeads(s);
      steps := [];
    } else {
      var first := AbortsLead(s, e.aborts(0));
      InterferedIds(s.workers, e.aborts(0));
      var workers := Interfere(s.workers, e.aborts(0));
      if e.provision.CreationFails? {
        var rest := FailureLeads(S.RunOf(s, first), id, e.cleanupRequested);
        LeadsOn(s, first, workers, rest, workers);
        steps := first + rest;
      } else {
        var rest := CreationLeads(S.RunOf(s, first), id, e.cleanupRequested, e.provision.session);
        AttachedIds(workers, id, e.provision.session, e.cleanupRequested);
        LeadsOn(s, first, workers, rest, AttachSession(workers, id, e.provision.session, e.cleanupRequested));
        steps := first + rest;
      }
    }
  }

  lemma AttachedIds(workers: WorkerMap, id: WorkerId, session: SessionId, cleanup: bool)
    requires id in workers
    ensures AttachSession(workers, id, session, cleanup).Keys == workers.Keys
  {
  }

  lemma AttemptLeads(s: S.Store, id: WorkerId, e: Env) returns (steps: seq<S.Step>)
    requires Outbox.Consistent(s.outbox) && id in s.workers
    ensures Leads(s, steps, AttemptRun(s.workers, id, e).workers)
    ensures AttemptRun(s.workers, id, e).workers.Keys == s.workers.Keys
  {
    hide Provisioning, Write, Interfere, S.RunOf, Outbox.Consistent, AttemptAfterProvisioning, ProvisionedWrite,
         S.LeavesCleanup;
    steps := ProvisioningLeads(s, id, e);
    InterferedIds(s.workers, e.aborts(0));
    if Provisioning(s.workers, id, e).Some? {
      var s0 := S.RunOf(s, steps);
      var t := ProvisionedWrite(id, s0.workers[id]);
      AttemptTransitions(id, s0.workers[id], NoId, false, e);
      if Write(s0.workers, e.aborts(1), t).Some? {
        var more := WriteLeads(s0, e.aborts(1), t);
        LeadsOn(s, steps, s0.workers, more, Write(s0.workers, e.aborts(1), t).value);
        steps := steps + more;
        var s1 := S.RunOf(s, steps);
        var rest := RestLeads(s1, id, e, !s.workers[id].HasSession());
        LeadsOn(s, steps, s1.workers, rest,
                AttemptAfterProvisioning(s1.workers, id, e, !s.workers[id].HasSession()).workers);
        steps := steps + rest;
      }
    }
  }

  lemma RestLeads(s: S.Store, id: WorkerId, e: Env, created: bool) returns (steps: seq<S.Step>)
    requires Outbox.Consistent(s.outbox) && id in s.workers
    ensures Leads(s, steps, AttemptAfterProvisioning(s.workers, id, e, created).workers)
    ensures AttemptAfterProvisioning(s.workers, id, e, created).workers.Keys == s.workers.Keys
  {
    hide Write, S.RunOf, Outbox.Consistent, ActiveWrite, StartedWrite, OutcomeWrite, S.LeavesCleanup, DecideAttempt,
         AttemptOf;
    steps := [];
    NothingLeads(s);
    assert S.RunOf(s, []) == s by { NothingRuns(s); }
    var t := ActiveWrite(id, Latest(s.workers, id), e.now);
    AttemptTransitions(id, Latest(s.workers, id), NoId, created, e);
    if Write(s.workers, e.aborts(2), t).Some? {
      steps := WriteLeads(s, e.aborts(2), t);
      var s2 := S.RunOf(s, steps);
      var w2 := Latest(s2.workers, id);
      AttemptTransitions(id, w2, NoId, created, e);
      if Write(s2.workers, e.aborts(3), StartedWrite(id, w2, e, created)).Some? {
        var more := WriteLeads(s2, e.aborts(3), StartedWrite(id, w2, e, created));
        LeadsOn(s, steps, s2.workers, more, S.RunOf(s2, more).workers);
        steps := steps + more;
        var s3 := S.RunOf(s, steps);
        var w3, attemptId := Latest(s3.workers, id), AttemptOf(w2, e, created).id;
        AttemptTransitions(id, w3, attemptId, created, e);
        if Write(s3.workers, e.aborts(4), OutcomeWrite(id, w3, attemptId, e)).Some? {
          var last := WriteLeads(s3, e.aborts(4), OutcomeWrite(id, w3, attemptId, e));
          LeadsOn(s, steps, s3.workers, last, S.RunOf(s3, last).workers);
          steps := steps + last;
        }
      }
    }
  }

  lemma NothingRuns(s: S.Store)
    ensures S.RunOf(s, []) == s
  {
  }

  // ----- The loop -----

  lemma PlanTransitions(workers: WorkerMap)
    ensures Phased(workers, PlanStep(workers).transitions)
  {
    hide Analyze, Blockable;
    var blockers := Analyze(workers).blockers;
    forall t | t in PlanStep(workers).transitions ensures S.LeavesCleanup(t) && t.workerId in workers {
      assert t.workerId in blockers;
      BlockedWorkersHaveBlockers(workers, t.workerId);
      BlockableIsWorker(workers, t.workerId);
    }
  }

  lemma PlanLeads(s: S.Store, foreign: seq<AbortWrite>) returns (steps: seq<S.Step>)
    requires Outbox.Consistent(s.outbox)
    ensures PersistPlan(s.workers, foreign).Some? ==> Leads(s, steps, PersistPlan(s.workers, foreign).value)
  {
    hide PlanStep, Interfere, ApplyBatch, Outbox.Consistent, S.LeavesCleanup, Phased;
    steps := [];
    if PersistPlan(s.workers, foreign).Some? {
      PlanTransitions(s.workers);
      steps := BatchWriteLeads(s, foreign, PlanStep(s.workers).transitions);
    }
  }

  lemma RoundLeads(s: S.Store, l: Loop, policy: ExecutionPolicy, e: RoundEnv) returns (steps: seq<S.Step>)
    requires Outbox.Consistent(s.outbox) && s.workers == l.run && Continues(l)
    ensures Leads(s, steps, NextLoop(l, policy, e).run)
  {
    hide AttemptRun, PersistPlan, PlanStep, Outbox.Consistent, S.RunOf;
    steps := AttemptLeads(s, l.selected.value, e.attempt);
    var r := AttemptRun(l.run, l.selected.value, e.attempt);
    if r.Ran? && PersistPlan(r.workers, e.planAborts).Some? {
      var more := PlanLeads(S.RunOf(s, steps), e.planAborts);
      LeadsOn(s, steps, r.workers, more, PersistPlan(r.workers, e.planAborts).value);
      steps := steps + more;
    }
  }

  lemma {:induction false} LoopLeads(s: S.Store, l: Loop, policy: ExecutionPolicy, env: nat -> RoundEnv, k: nat, n: nat)
      returns (steps: seq<S.Step>)
    requires Outbox.Consistent(s.outbox) && s.workers == l.run
    ensures Leads(s, steps, Rounds(Stepper(policy, env), l, k, n).run)
    decreases n
  {
    hide NextLoop, Continues, Outbox.Consistent, S.RunOf;
    if n == 0 || !Continues(l) {
      NothingLeads(s);
      steps := [];
    } else {
      var next := NextLoop(l, policy, env(k));
      var first := RoundLeads(s, l, policy, env(k));
      var rest := LoopLeads(S.RunOf(s, first), next, policy, env, k + 1, n - 1);
      LeadsOn(s, first, next.run, rest, Rounds(Stepper(policy, env), next, k + 1, n - 1).run);
      steps := first + rest;
    }
  }

  // ----- A start -----

  /** The run that a start leaves; one that raises leaves what its loop left. */
  function EndRun(run: WorkerMap, policy: ExecutionPolicy, e: FlowEnv, n: nat): WorkerMap {
    match FlowAfter(run, policy, e, n)
    case NotExecuted(workers, _) => workers
    case Marked(workers, _) => workers
    case Executed(l) => l.run
    case Raised =>
      var x := ExecutionOf(run, policy, e, n);
      if x.Some? then x.value.1.run else run
  }

  lemma RecoveryLeads(s: S.Store, foreign: seq<AbortWrite>, now: Instant) returns (steps: seq<S.Step>)
    requires Outbox.Consistent(s.outbox) && RecoveredRun(s.workers, foreign, now).Some?
    ensures Leads(s, steps, RecoveredRun(s.workers, foreign, now).value)
  {
    hide Outbox.Consistent, S.RunOf, ExpiredIds, RecoveryTransition, S.LeavesCleanup, NeedsRecovery, ApplyBatch,
         Interfere, RecoveryFor;
    if Recoveries(s.workers, now) == [] {
      NothingLeads(s);
      steps := [];
    } else {
      var ids := ExpiredIds(s.workers, now, SortedIds(s.workers.Keys));
      var ts := BatchOf(RecoveryTransition(s.workers, now), ids);
      ExpiredIdsExact(s.workers, now, SortedIds(s.workers.Keys));
      forall t | t in ts ensures S.LeavesCleanup(t) && t.workerId in s.workers {
        var i :| 0 <= i < |ids| && t == RecoveryTransition(s.workers, now)(ids[i]);
        assert ids[i] in ids;
        RecoveryIsPhased(s.workers, now, ids[i]);
      }
      steps := BatchWriteLeads(s, foreign, ts);
    }
  }

  lemma RecoveryIsPhased(run: WorkerMap, now: Instant, id: WorkerId)
    requires id in run && NeedsRecovery(run[id], now)
    ensures var t := RecoveryTransition(run, now)(id); S.LeavesCleanup(t) && t.workerId == id
  {
    hide NeedsRecovery, RecoveryTransition;
    RecoveryShape(run, id, now);
    PayloadIsTimeout(run[id], now);
  }

  lemma MarkingIsPhased(stale: WorkerMap, latest: WorkerMap, error: string)
    requires stale.Keys == latest.Keys
    ensures Phased(latest, BatchOf(FailTransition(stale, error), PendingPrompted(stale)))
  {
    hide FailTransition, PendingPrompted;
    var ids := PendingPrompted(stale);
    PendingAreWorkers(stale);
    forall t | t in BatchOf(FailTransition(stale, error), ids) ensures S.LeavesCleanup(t) && t.workerId in latest {
      var i :| 0 <= i < |ids| && t == FailTransition(stale, error)(ids[i]);
      FailingIsPhased(stale, ids[i], error);
      assert ids[i] in ids;
    }
  }

  lemma PendingAreWorkers(stale: WorkerMap)
    ensures forall id :: id in PendingPrompted(stale) ==> id in stale
  {
  }

  lemma FailingIsPhased(stale: WorkerMap, id: WorkerId, error: string)
    ensures var t := FailTransition(stale, error)(id); S.LeavesCleanup(t) && t.workerId == id
  {
  }

  lemma MarkingLeads(s: S.Store, stale: WorkerMap, foreign: seq<AbortWrite>, error: string)
      returns (steps: seq<S.Step>)
    requires Outbox.Consistent(s.outbox) && stale.Keys == s.workers.Keys
    requires MarkPromptedFailed(stale, s.workers, foreign, error).Some?
    ensures Leads(s, steps, MarkPromptedFailed(stale, s.workers, foreign, error).value)
  {
    hide Outbox.Consistent, ApplyBatch, Interfere, FailTransition, PendingPrompted, Phased, BatchOf;
    MarkingIsPhased(stale, s.workers, error);
    steps := BatchWriteLeads(s, foreign, BatchOf(FailTransition(stale, error), PendingPrompted(stale)));
  }

  lemma MarkedLeads(s: S.Store, steps: seq<S.Step>, stale: WorkerMap, latest: WorkerMap, foreign: seq<AbortWrite>,
                    error: string)
      returns (all: seq<S.Step>)
    requires Leads(s, steps, latest) && stale.Keys == latest.Keys
    ensures var marked := MarkPromptedFailed(stale, latest, foreign, error);
            Leads(s, all, if marked.Some? then marked.value else latest)
  {
    hide Outbox.Consistent, S.RunOf, MarkPromptedFailed;
    all := steps;
    if MarkPromptedFailed(stale, latest, foreign, error).Some? {
      var more := MarkingLeads(S.RunOf(s, steps), stale, foreign, error);
      LeadsOn(s, steps, latest, more, MarkPromptedFailed(stale, latest, foreign, error).value);
      all := steps + more;
    }
  }

  /** Executing the workers, and marking the pending ones when a creation failed. */
  lemma ExecutionLeads(s: S.Store, before: seq<S.Step>, active: Loop, policy: ExecutionPolicy, e: FlowEnv, n: nat)
      returns (steps: seq<S.Step>)
    requires LoopOk(active) && active.end == Open && Leads(s, before, active.run)
    ensures var l := LoopAfter(active, policy, e.rounds, n);
            Leads(s, steps, match AfterExecution(active, l, e.markAborts)
                            case Marked(workers, _) => workers
                            case _ => l.run)
  {
    hide LoopAfter, Outbox.Consistent, S.RunOf, LoopOk, MarkPromptedFailed, MarkingMeetsSettled;
    var l := LoopAfter(active, policy, e.rounds, n);
    ExecutionRaisesIff(active, policy, e, n);
    var more := LoopRun(S.RunOf(s, before), active, policy, e.rounds, n);
    LeadsOn(s, before, active.run, more, l.run);
    steps := before + more;
    if l.end.CreationFailed? {
      steps := MarkedLeads(s, steps, active.run, l.run, e.markAborts, l.end.reason);
    }
  }

  lemma LoopRun(s: S.Store, l: Loop, policy: ExecutionPolicy, env: nat -> RoundEnv, n: nat) returns (steps: seq<S.Step>)
    requires Outbox.Consistent(s.outbox) && s.workers == l.run
    ensures Leads(s, steps, LoopAfter(l, policy, env, n).run)
  {
    hide Outbox.Consistent, S.RunOf, NextLoop;
    steps := LoopLeads(s, l, policy, env, 0, n);
  }

  lemma EndRunIs(run: WorkerMap, policy: ExecutionPolicy, e: FlowEnv, n: nat, start: Loop)
    requires RecoveredRun(run, e.recoveryAborts, e.now).Some? && start.end == Open
    requires start == StartLoop(RecoveredRun(run, e.recoveryAborts, e.now).value, e.planAborts)
    requires !e.probe.Supported? ==> MarkPromptedFailed(start.run, start.run, e.markAborts, e.probe.error).Some?
    ensures EndRun(run, policy, e, n) ==
            if Skips(start, RecoveryError(Recoveries(run, e.now)), policy) then start.run
            else if !e.probe.Supported? then MarkPromptedFailed(start.run, start.run, e.markAborts, e.probe.error).value
            else
              var active := Activate(start, e.activationAborts);
              var l := LoopAfter(active, policy, e.rounds, n);
              match AfterExecution(active, l, e.markAborts)
              case Marked(workers, _) => workers
              case _ => l.run
  {
    hide LoopAfter, MarkPromptedFailed, RecoveredRun, Recoveries, Skips, Activate, StartLoop;
  }

  /** Everything that a start writes, from recovery to marking, is a sequence of executing steps that leaves the store
      with the run of the flow. */
  lemma FlowLeads(s: S.Store, policy: ExecutionPolicy, e: FlowEnv, n: nat) returns (steps: seq<S.Step>)
    requires Outbox.Consistent(s.outbox)
    ensures Leads(s, steps, EndRun(s.workers, policy, e, n))
  {
    hide LoopAfter, Outbox.Consistent, S.RunOf, LoopOk, MarkPromptedFailed, RecoveredRun, Recoveries, Skips, Interfere,
         StartLoop, Activate, EndRun, AfterExecution, Leads, FlowAfter;
    RecoveredIsSome(s.workers, e.recoveryAborts, e.now);
    var recovered := RecoveredRun(s.workers, e.recoveryAborts, e.now).value;
    var start := StartLoop(recovered, e.planAborts);
    StartLoopOk(recovered, e.planAborts);
    steps := PlannedLeads(s, e);
    FreshMarkingIsLegal(start.run, [], e.markAborts, if e.probe.Supported? then "" else e.probe.error);
    InterfereNothing(start.run);
    EndRunIs(s.workers, policy, e, n, start);
    if !Skips(start, RecoveryError(Recoveries(s.workers, e.now)), policy) {
      if e.probe.Supported? {
        steps := ActivatedLeads(s, steps, start, policy, e, n);
      } else {
        steps := MarkedLeads(s, steps, start.run, start.run, e.markAborts, e.probe.error);
      }
    }
  }

  lemma PlannedLeads(s: S.Store, e: FlowEnv) returns (steps: seq<S.Step>)
    requires Outbox.Consistent(s.outbox) && RecoveredRun(s.workers, e.recoveryAborts, e.now).Some?
    ensures Leads(s, steps, StartLoop(RecoveredRun(s.workers, e.recoveryAborts, e.now).value, e.planAborts).run)
  {
    hide Outbox.Consistent, S.RunOf, RecoveredRun, PersistPlan, PlanStep;
    steps := RecoveryLeads(s, e.recoveryAborts, e.now);
    var recovered := RecoveredRun(s.workers, e.recoveryAborts, e.now).value;
    if PersistPlan(recovered, e.planAborts).Some? {
      var more := PlanLeads(S.RunOf(s, steps), e.planAborts);
      LeadsOn(s, steps, recovered, more, PersistPlan(recovered, e.planAborts).value);
      steps := steps + more;
    }
  }

  lemma ActivatedLeads(s: S.Store, before: seq<S.Step>, start: Loop, policy: ExecutionPolicy, e: FlowEnv, n: nat)
      returns (steps: seq<S.Step>)
    requires LoopOk(start) && start.end == Open && Leads(s, before, start.run)
    ensures var active := Activate(start, e.activationAborts); var l := LoopAfter(active, policy, e.rounds, n);
            Leads(s, steps, match AfterExecution(active, l, e.markAborts)
                            case Marked(workers, _) => workers
                            case _ => l.run)
  {
    hide LoopAfter, Outbox.Consistent, S.RunOf, LoopOk, Interfere, AfterExecution;
    var more := AbortsLead(S.RunOf(s, before), e.activationAborts);
    LeadsOn(s, before, start.run, more, Interfere(start.run, e.activationAborts));
    ActivationKeepsOk(start, e.activationAborts);
    steps := ExecutionLeads(s, before + more, Activate(start, e.activationAborts), policy, e, n);
  }

  // ----- A start with its cleanup, and starts one after another -----

  /** One start: what it cannot decide, how often its loop is observed, and what its cleanup meets. */
  datatype Script = Script(
    policy: ExecutionPolicy,
    flow: FlowEnv,
    rounds: nat,
    cleanupRequested: bool,
    remembered: CleanupRecovery.SessionMap,
    order: seq<WorkerId>,
    answers: WorkerId -> nat -> CleanupRecovery.Answers,
    writes: nat -> bool)

  /** A start cleans up if that was asked for and it got a client: it was neither skipped, nor found unsupported, nor
      did it raise. */
  predicate Cleans(run: WorkerMap, x: Script) {
    var end := FlowAfter(run, x.policy, x.flow, x.rounds);
    x.cleanupRequested && x.flow.probe.Supported? && (end.Executed? || end.Marked?)
  }

  /** Plan on the run that the flow left, then work off the plan. */
  function CleanupOf(s: S.Store, x: Script): seq<S.Step> {
    var planned := S.Next(s, S.Plan(x.remembered));
    [S.Plan(x.remembered)] + S.CleanSteps(planned, x.order, x.answers, x.writes, 0) + [S.AbandonPlan]
  }

  /** The steps of a start that comes to its end. */
  ghost predicate Runs(s: S.Store, x: Script, steps: seq<S.Step>) {
    exists executed ::
      && Leads(s, executed, EndRun(s.workers, x.policy, x.flow, x.rounds))
      && steps == executed + if Cleans(s.workers, x) then CleanupOf(S.RunOf(s, executed), x) else []
  }

  /** Or that dies anywhere on the way. */
  ghost predicate Course(s: S.Store, x: Script, steps: seq<S.Step>) {
    Runs(s, x, steps) || exists full, k: nat :: Runs(s, x, full) && k <= |full| && steps == full[..k] + [S.AbandonPlan]
  }

  ghost predicate Courses(s: S.Store, xs: seq<Script>, steps: seq<S.Step>)
    decreases |xs|
  {
    if xs == [] then steps == []
    else exists a, b :: Course(s, xs[0], a) && Courses(S.RunOf(s, a), xs[1..], b) && steps == a + b
  }

  lemma {:induction false} RunKeepsConsistent(s: S.Store, steps: seq<S.Step>)
    requires Outbox.Consistent(s.outbox)
    ensures Outbox.Consistent(S.RunOf(s, steps).outbox)
    decreases |steps|
  {
    hide Outbox.Consistent, Outbox.Next, S.Possible, S.AfterClean, S.LeavesCleanup;
    if steps != [] {
      if steps[0].Journal? { Outbox.StepKeepsConsistent(s.outbox, steps[0].step); }
      NextOutbox(s, steps[0]);
      RunKeepsConsistent(S.Next(s, steps[0]), steps[1..]);
    }
  }

  lemma NextOutbox(s: S.Store, step: S.Step)
    ensures S.Next(s, step).outbox == s.outbox
            || (step.Journal? && S.Next(s, step).outbox == Outbox.Next(s.outbox, step.step))
  {
    hide Outbox.Next, S.Possible, S.LeavesCleanup, S.WorkersWith;
  }

  /** Every start, with its cleanup, is such a sequence of steps. */
  lemma StartRuns(s: S.Store, x: Script) returns (steps: seq<S.Step>)
    requires Outbox.Consistent(s.outbox)
    ensures Runs(s, x, steps)
  {
    hide Outbox.Consistent, Leads, EndRun, Cleans, CleanupOf, S.RunOf;
    var executed := FlowLeads(s, x.policy, x.flow, x.rounds);
    steps := executed + if Cleans(s.workers, x) then CleanupOf(S.RunOf(s, executed), x) else [];
  }

  /** And so are any starts one after another. */
  lemma {:induction false} StartsRun(s: S.Store, xs: seq<Script>) returns (steps: seq<S.Step>)
    requires Outbox.Consistent(s.outbox)
    ensures Courses(s, xs, steps)
    decreases |xs|
  {
    hide Outbox.Consistent, Runs, S.RunOf;
    steps := [];
    if xs != [] {
      var a := StartRuns(s, xs[0]);
      RunKeepsConsistent(s, a);
      var b := StartsRun(S.RunOf(s, a), xs[1..]);
      assert Course(s, xs[0], a);
      steps := a + b;
    }
  }

  lemma {:induction false} ExecutingInPhases(steps: seq<S.Step>)
    requires Executing(steps)
    ensures S.InPhases(steps, false) && !S.StillCleaning(steps, false)
    decreases |steps|
  {
    if steps != [] {
      assert steps[0] in steps;
      ExecutingInPhases(steps[1..]);
    }
  }

  lemma {:induction false} CleaningInPhases(s: S.Store, order: seq<WorkerId>,
                                            answers: WorkerId -> nat -> CleanupRecovery.Answers, writes: nat -> bool,
                                            i: nat)
    ensures S.InPhases(S.CleanSteps(s, order, answers, writes, i), true)
    decreases |order|
  {
    hide S.Next;
    if order != [] {
      var steps := S.CleanSteps(s, order, answers, writes, i);
      CleaningInPhases(S.Next(s, steps[0]), order[1..], answers, writes, i + 1);
    }
  }

  lemma AbandonEnds(steps: seq<S.Step>, cleaning: bool)
    requires S.InPhases(steps, cleaning)
    ensures S.InPhases(steps + [S.AbandonPlan], cleaning) && !S.StillCleaning(steps + [S.AbandonPlan], cleaning)
  {
    S.PhasesConcat(steps, [S.AbandonPlan], cleaning);
    var last := [S.AbandonPlan];
    assert last[1..] == [] && S.InPhases(last[1..], false);
  }

  lemma CleanupInPhases(s: S.Store, x: Script)
    ensures S.InPhases(CleanupOf(s, x), false) && !S.StillCleaning(CleanupOf(s, x), false)
  {
    hide S.Next, S.InPhases, S.StillCleaning, S.CleanSteps;
    var plan := S.Plan(x.remembered);
    var clean := S.CleanSteps(S.Next(s, plan), x.order, x.answers, x.writes, 0);
    CleaningInPhases(S.Next(s, plan), x.order, x.answers, x.writes, 0);
    PlanOpens(plan);
    S.PhasesConcat([plan], clean, false);
    AbandonEnds([plan] + clean, false);
  }

  lemma PlanOpens(plan: S.Step)
    requires plan.Plan?
    ensures S.InPhases([plan], false) && S.StillCleaning([plan], false)
  {
    assert [plan][1..] == [];
  }

  lemma RunsInPhases(s: S.Store, x: Script, steps: seq<S.Step>)
    requires Runs(s, x, steps)
    ensures S.InPhases(steps, false) && !S.StillCleaning(steps, false)
  {
    hide S.RunOf, EndRun, Cleans, CleanupOf, S.InPhases, S.StillCleaning, Outbox.Consistent;
    var executed :| Leads(s, executed, EndRun(s.workers, x.policy, x.flow, x.rounds))
      && steps == executed + if Cleans(s.workers, x) then CleanupOf(S.RunOf(s, executed), x) else [];
    ExecutingInPhases(executed);
    CleanupInPhases(S.RunOf(s, executed), x);
    S.PhasesConcat(executed, CleanupOf(S.RunOf(s, executed), x), false);
    assert executed + [] == executed;
  }

  lemma PrefixInPhases(steps: seq<S.Step>, k: nat)
    requires S.InPhases(steps, false) && k <= |steps|
    ensures S.InPhases(steps[..k], false)
  {
    hide S.InPhases, S.StillCleaning;
    S.PhasesConcat(steps[..k], steps[k..], false);
    assert steps[..k] + steps[k..] == steps;
  }

  lemma CourseInPhases(s: S.Store, x: Script, steps: seq<S.Step>)
    requires Course(s, x, steps)
    ensures S.InPhases(steps, false) && !S.StillCleaning(steps, false)
  {
    hide Runs, S.InPhases, S.StillCleaning;
    if Runs(s, x, steps) {
      RunsInPhases(s, x, steps);
    } else {
      var full, k: nat :| Runs(s, x, full) && k <= |full| && steps == full[..k] + [S.AbandonPlan];
      RunsInPhases(s, x, full);
      PrefixInPhases(full, k);
      AbandonEnds(full[..k], false);
    }
  }

  lemma {:induction false} CoursesInPhases(s: S.Store, xs: seq<Script>, steps: seq<S.Step>)
    requires Courses(s, xs, steps)
    ensures S.InPhases(steps, false)
    decreases |xs|
  {
    hide Course, S.StillCleaning, S.RunOf;
    if xs != [] {
      var a, b :| Course(s, xs[0], a) && Courses(S.RunOf(s, a), xs[1..], b) && steps == a + b;
      CourseInPhases(s, xs[0], a);
      CoursesInPhases(S.RunOf(s, a), xs[1..], b);
      S.PhasesConcat(a, b, false);
    }
  }

  /** At every moment of any starts one after another, each of which runs its flow and then cleans up, or dies on the
      way, every session created for cleanup is verified as deleted or recoverable. */
  lemma StartsForgetNothing(f: RemoteJournal.Field, workers: WorkerMap, xs: seq<Script>, steps: seq<S.Step>, k: nat,
                            id: RemoteJournal.EntryId)
    requires Courses(S.Begin(f, workers), xs, steps) && k <= |steps|
    ensures var s := S.RunOf(S.Begin(f, workers), steps[..k]);
            id in s.created ==>
              s.created[id].1 in s.verified
              || CleanupRecovery.Recoverable(s.workers, S.ItemsIn(s), s.created[id].0, s.created[id].1)
  {
    hide CleanupRecovery.Recoverable, S.RunOf, S.InPhases, Courses;
    CoursesInPhases(S.Begin(f, workers), xs, steps);
    PrefixInPhases(steps, k);
    S.StartsInSequenceConserve(f, workers, steps[..k], id);
  }
}
