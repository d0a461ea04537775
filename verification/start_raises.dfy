/** Which runs have a start that raises: the condition on the run itself, over everything a start cannot decide. */
module StartRaises {
  import opened Common
  import opened Workers
  import opened DependencyAnalysis
  import opened Planner
  import opened Replanning
  import opened Execution
  import opened SerialLoop
  import opened Termination
  import opened EndlessRuns
  import opened StartFailure
  import opened AttemptRecovery
  import opened RunFlow

  // ----- Sessions are never taken away -----

  ghost predicate SessionsKept(a: WorkerMap, b: WorkerMap) {
    forall id :: id in a ==> id in b && (a[id].HasSession() ==> b[id].HasSession())
  }

  lemma ReducingKeepsSession(w: Worker, id: WorkerId, p: Payload)
    ensures w.HasSession() ==> ReducePayload(w, id, p).HasSession()
  {
  }

  lemma PassingKeepsSession(w: Worker, p: Payload)
    ensures AbortPassthrough(w, p).session == w.session
  {
  }

  lemma OfferKeepsSession(w: Worker, t: Transition)
    ensures w.HasSession() ==> Offer(w, t).HasSession()
  {
    hide ReducePayload, AbortPassthrough, Legal;
    ReducingKeepsSession(w, t.workerId, t.payload);
    PassingKeepsSession(w, t.payload);
  }

  lemma KeptByOverlay(a: WorkerMap, foreign: seq<AbortWrite>)
    ensures SessionsKept(a, Interfere(a, foreign))
  {
    hide AbortsOn;
    forall id | id in a ensures Interfere(a, foreign)[id].session == a[id].session {
      AbortsOverlay(id, a[id], foreign);
    }
  }

  lemma {:induction false} KeptByBatch(workers: WorkerMap, ts: seq<Transition>)
    ensures ApplyBatch(workers, ts).Some? ==> SessionsKept(workers, ApplyBatch(workers, ts).value)
    decreases |ts|
  {
    hide Apply, Offer;
    if ts != [] {
      var latest := Latest(workers, ts[0].workerId);
      OfferKeepsSession(latest, ts[0]);
      KeptByBatch(workers[ts[0].workerId := Offer(latest, ts[0])], ts[1..]);
    }
  }

  lemma KeptByWrite(workers: WorkerMap, foreign: seq<AbortWrite>, ts: seq<Transition>)
    ensures var next := ApplyBatch(Interfere(workers, foreign), ts); next.Some? ==> SessionsKept(workers, next.value)
  {
    hide ApplyBatch, Interfere;
    KeptByOverlay(workers, foreign);
    KeptByBatch(Interfere(workers, foreign), ts);
  }

  /** An attempt keeps every session; it gives its worker one, unless creating it fails, which needs that there is
      none. */
  lemma AttemptSessions(workers: WorkerMap, id: WorkerId, e: Env)
    requires id in workers
    ensures var r := AttemptRun(workers, id, e);
            && SessionsKept(workers, r.workers)
            && (r.Ran? ==> r.workers[id].HasSession())
            && (r.ProvisionFailed? ==> !workers[id].HasSession() && r.workers == Interfere(workers, e.aborts(0)))
  {
    hide AttemptAfterProvisioning, Interfere, ApplyBatch, ProvisionedWrite;
    KeptByOverlay(workers, e.aborts(0));
    if Provisioning(workers, id, e).Some? {
      var s0 := Provisioning(workers, id, e).value;
      ProvisioningSessions(workers, id, e);
      KeptByWrite(s0, e.aborts(1), [ProvisionedWrite(id, s0[id])]);
      var s1 := Write(s0, e.aborts(1), ProvisionedWrite(id, s0[id]));
      if s1.Some? { RestSessions(s1.value, id, e, !workers[id].HasSession()); }
    }
  }

  lemma ProvisioningSessions(workers: WorkerMap, id: WorkerId, e: Env)
    requires id in workers && Provisioning(workers, id, e).Some?
    ensures var s := Provisioning(workers, id, e).value; SessionsKept(workers, s) && s[id].HasSession()
  {
    hide AbortsOn;
    KeptByOverlay(workers, e.aborts(0));
  }

  lemma RestSessions(s1: WorkerMap, id: WorkerId, e: Env, created: bool)
    ensures SessionsKept(s1, AttemptAfterProvisioning(s1, id, e, created).workers)
    ensures !AttemptAfterProvisioning(s1, id, e, created).ProvisionFailed?
  {
    hide Interfere, ApplyBatch, ActiveWrite, StartedWrite, OutcomeWrite, AttemptOf, DecideAttempt;
    KeptByWrite(s1, e.aborts(2), [ActiveWrite(id, Latest(s1, id), e.now)]);
    var s2 := Write(s1, e.aborts(2), ActiveWrite(id, Latest(s1, id), e.now));
    if s2.Some? {
      KeptByWrite(s2.value, e.aborts(3), [StartedWrite(id, Latest(s2.value, id), e, created)]);
      var s3 := Write(s2.value, e.aborts(3), StartedWrite(id, Latest(s2.value, id), e, created));
      if s3.Some? {
        KeptByWrite(s3.value, e.aborts(4),
                    [OutcomeWrite(id, Latest(s3.value, id), AttemptOf(Latest(s2.value, id), e, created).id, e)]);
      }
    }
  }

  /** A round keeps every session; it fails to create one only for a worker that has none. */
  lemma RoundSessions(l: Loop, policy: ExecutionPolicy, e: RoundEnv)
    requires Continues(l)
    ensures var next := NextLoop(l, policy, e); var id := l.selected.value;
            && SessionsKept(l.run, next.run) && next.attempts == l.attempts + [id]
            && (next.end == Open ==> next.run[id].HasSession())
            && (next.end.CreationFailed? ==>
                  !l.run[id].HasSession() && next.run == Interfere(l.run, e.attempt.aborts(0)))
  {
    hide AttemptRun, Interfere, ApplyBatch, PlanStep;
    AttemptSessions(l.run, l.selected.value, e.attempt);
    var r := AttemptRun(l.run, l.selected.value, e.attempt);
    if r.Ran? { KeptByWrite(r.workers, e.planAborts, PlanStep(r.workers).transitions); }
  }

  // ----- Only a worker other than the first one can make a start raise -----

  /** The worker needs a session, could be got to by successes, and is not the one that is selected first. */
  ghost predicate CreatesLater(run: WorkerMap, id: WorkerId) {
    && CanBecomeDone(run, id) && id in run && !IsDone(run, id) && !run[id].HasSession()
    && PlanStep(run).selected != Some(id)
  }

  /** start is the loop as it begins, on a plan of first. */
  ghost predicate Creating(first: WorkerMap, start: Loop, l: Loop) {
    && Traced(first, Analyze(first).blockers.Keys, l)
    && SessionsKept(first, l.run)
    && start.selected.Some? && start.selected == PlanStep(first).selected
    && (l.attempts == [] ==> l.run == start.run && l.selected == start.selected && l.end == Open)
    && (l.attempts != [] && l.end == Open ==>
          start.selected.value in l.run && l.run[start.selected.value].HasSession())
    && (l.end.CreationFailed? ==> OnlyAborted(start.run, l.run) || exists id :: CreatesLater(first, id))
  }

  ghost predicate OnlyAborted(a: WorkerMap, b: WorkerMap) {
    exists foreign :: b == Interfere(a, foreign)
  }

  lemma SelectedCreatesLater(first: WorkerMap, start: Loop, l: Loop)
    requires Creating(first, start, l) && Continues(l) && l.attempts != [] && !l.run[l.selected.value].HasSession()
    ensures CreatesLater(first, l.selected.value)
  {
    hide Analyze, LoopOk, FromFirst, Attainable, PlanStep, WrittenAll;
    var id, blocked := l.selected.value, Analyze(first).blockers.Keys;
    SelectedReady(l);
    SelectedIsAttainable(first, blocked, l.basis, Analyze(l.basis).blockers.Keys, id);
    assert CanBecomeDone(first, id);
    RunningIsNotDone(first, id);
  }

  lemma RunningIsNotDone(run: WorkerMap, id: WorkerId)
    requires CanRun(run, id)
    ensures !IsDone(run, id)
  {
  }

  lemma RoundKeepsCreating(first: WorkerMap, start: Loop, l: Loop, policy: ExecutionPolicy, env: nat -> RoundEnv,
                           i: nat)
    requires Creating(first, start, l) && Continues(l)
    ensures Creating(first, start, Stepper(policy, env)(l, i))
  {
    hide NextLoop, Traced, CreatesLater, Interfere, PlanStep, Analyze;
    var next := NextLoop(l, policy, env(i));
    StepKeepsTraced(first, Analyze(first).blockers.Keys, policy, env, l, i);
    RoundSessions(l, policy, env(i));
    var opener := start.selected.value;
    if next.end == Open && l.attempts != [] { assert opener in l.run && opener in next.run; }
    if next.end == Open && l.attempts == [] { assert opener == l.selected.value && opener in next.run; }
    if next.end.CreationFailed? {
      if l.attempts == [] {
        assert OnlyAborted(start.run, next.run);
      } else {
        SelectedCreatesLater(first, start, l);
      }
    }
  }

  lemma StartIsCreating(first: WorkerMap, foreign: seq<AbortWrite>, more: seq<AbortWrite>)
    requires StartLoop(first, foreign).end == Open && StartLoop(first, foreign).selected.Some?
    ensures var active := Activate(StartLoop(first, foreign), more); Creating(first, active, active)
  {
    hide LoopOk, Analyze, PlanStep, FromFirst, ApplyBatch, Interfere;
    var start := StartLoop(first, foreign);
    StartIsTraced(first, foreign);
    ActivationKeepsOk(start, more);
    KeptByWrite(first, foreign, PlanStep(first).transitions);
    KeptByOverlay(start.run, more);
  }

  lemma CreatingAfter(first: WorkerMap, active: Loop, policy: ExecutionPolicy, env: nat -> RoundEnv, n: nat)
    requires Creating(first, active, active)
    ensures Creating(first, active, LoopAfter(active, policy, env, n))
  {
    hide NextLoop, Creating, Continues;
    var inv := (l: Loop) => Creating(first, active, l);
    forall l: Loop, i: nat | inv(l) && Continues(l) ensures inv(Stepper(policy, env)(l, i)) {
      RoundKeepsCreating(first, active, l, policy, env, i);
    }
    RoundsKeep(inv, Stepper(policy, env), active, 0, n);
  }

  lemma AbortedCanBeMarked(active: Loop, l: Loop, foreign: seq<AbortWrite>)
    requires OnlyAborted(active.run, l.run)
    ensures !MarkingMeetsSettled(active, l, foreign)
  {
    hide MarkPromptedFailed, CanFail, Interfere;
    var before :| l.run == Interfere(active.run, before);
    FreshMarkingIsLegal(active.run, before, foreign, "");
    InterferedKeys(active.run, before);
    MarkPromptedFailedIff(active.run, l.run, foreign, "");
  }

  lemma InterferedKeys(run: WorkerMap, foreign: seq<AbortWrite>)
    ensures Interfere(run, foreign).Keys == run.Keys
  {
  }

  /** A start that raises had a worker to create a session for later. */
  lemma RaisingNeedsCreation(run: WorkerMap, policy: ExecutionPolicy, e: FlowEnv, n: nat)
    requires FlowAfter(run, policy, e, n) == Raised
    ensures var recovered := RecoveredRun(run, e.recoveryAborts, e.now);
            && recovered.Some? && (exists id :: CreatesLater(recovered.value, id))
            && !(RecoveryError(Recoveries(run, e.now)).Some? && policy == FailFast)
  {
    hide RecoveredRun, StartLoop, LoopAfter, MarkingMeetsSettled, Activate, Recoveries, FlowAfter, CreatesLater,
         LoopOk, Traced, OnlyAborted;
    RecoveredIsSome(run, e.recoveryAborts, e.now);
    StartRaisesIff(run, policy, e, n);
    var recovered := RecoveredRun(run, e.recoveryAborts, e.now).value;
    StartLoopOk(recovered, e.planAborts);
    StartIsCreating(recovered, e.planAborts, e.activationAborts);
    var active := Activate(StartLoop(recovered, e.planAborts), e.activationAborts);
    CreatingAfter(recovered, active, policy, e.rounds, n);
    var l := LoopAfter(active, policy, e.rounds, n);
    MeetingFailed(active, l, e.markAborts);
    if OnlyAborted(active.run, l.run) { AbortedCanBeMarked(active, l, e.markAborts); }
  }

  lemma MeetingFailed(active: Loop, l: Loop, foreign: seq<AbortWrite>)
    ensures MarkingMeetsSettled(active, l, foreign) ==> l.end.CreationFailed?
  {
  }

  // ----- Such a worker can be got to, and its creation can fail -----

  lemma SuccessUnderPolicy(l: Loop, policy: ExecutionPolicy)
    ensures NextLoop(l, policy, CalmEnv(ONE_SUCCESS)) == NextLoop(l, ContinueOnError, CalmEnv(ONE_SUCCESS))
  {
    hide PersistPlan, PlanStep, AttemptRun;
    if Continues(l) { SuccessHasNoError(l.run, l.selected.value, CalmEnv(ONE_SUCCESS).attempt); }
  }

  lemma SuccessHasNoError(workers: WorkerMap, id: WorkerId, e: Env)
    requires id in workers && e.event.Returned?
    ensures AttemptRun(workers, id, e).Ran? ==> AttemptRun(workers, id, e).error == None
  {
    hide Write, Provisioning;
  }

  /** A successful round makes its worker done, keeps whoever was done, and gives nobody else a session. */
  lemma SuccessRound(l: Loop)
    requires Calm(l) && Continues(l)
    ensures var next := NextLoop(l, ContinueOnError, CalmEnv(ONE_SUCCESS));
            && IsDone(next.run, l.selected.value)
            && (forall id :: IsDone(l.run, id) ==> IsDone(next.run, id))
            && (forall id :: id in l.run && id != l.selected.value && !l.run[id].HasSession() ==>
                  id in next.run && !next.run[id].HasSession())
            && next.run.Keys == l.run.Keys
  {
    hide NextLoop, LoopOk, AfterPlan, PlanStep, Analyze, Finished, EndState;
    var id := l.selected.value;
    var w := CalmRound(l, ONE_SUCCESS);
    SuccessIsDone(l.run[id], w);
    var ws := l.run[id := w];
    AfterPlanSettles(ws);
    CalmFacts(NextLoop(l, ContinueOnError, CalmEnv(ONE_SUCCESS)));
    forall x ensures IsDone(AfterPlan(ws), x) <==> IsDone(ws, x) {
      SettledViews(ws, Analyze(ws).blockers.Keys, AfterPlan(ws), x);
    }
    forall x | x in ws ensures AfterPlan(ws)[x].session == ws[x].session {
      assert SettlesAt(ws, Analyze(ws).blockers.Keys, AfterPlan(ws), x);
    }
  }

  lemma SuccessLowersMeasure(l: Loop)
    requires Calm(l) && Continues(l)
    ensures Measure(NextLoop(l, ContinueOnError, CalmEnv(ONE_SUCCESS)).basis) < Measure(l.basis)
  {
    hide NextLoop, LoopOk, AfterPlan, PlanStep, Analyze, Measure, RoundEffect, Uncharged, AttemptRun;
    var e := CalmEnv(ONE_SUCCESS);
    var w := CalmRound(l, ONE_SUCCESS);
    RoundHasEffect(l, ContinueOnError, e);
    RoundLowersMeasure(l, ContinueOnError, ONE_SUCCESS, AttemptRun(l.run, l.selected.value, e.attempt).workers,
                       NextLoop(l, ContinueOnError, e));
  }

  /** The environment that begins with this round and goes on like the other one. */
  function Before(e: RoundEnv, env: nat -> RoundEnv): nat -> RoundEnv {
    (k: nat) => if k == 0 then e else env(k - 1)
  }

  lemma {:induction false} RoundsShift(policy: ExecutionPolicy, e: RoundEnv, env: nat -> RoundEnv, l: Loop, k: nat,
                                       n: nat)
    ensures Rounds(Stepper(policy, Before(e, env)), l, k + 1, n) == Rounds(Stepper(policy, env), l, k, n)
    decreases n
  {
    hide NextLoop;
    if n > 0 && Continues(l) { RoundsShift(policy, e, env, NextLoop(l, policy, env(k)), k + 1, n - 1); }
  }

  lemma OneMoreRound(l: Loop, policy: ExecutionPolicy, e: RoundEnv, env: nat -> RoundEnv, n: nat)
    requires Continues(l)
    ensures LoopAfter(l, policy, Before(e, env), n + 1) == LoopAfter(NextLoop(l, policy, e), policy, env, n)
  {
    hide NextLoop;
    RoundsShift(policy, e, env, NextLoop(l, policy, e), 0, n);
    assert Stepper(policy, Before(e, env))(l, 0) == NextLoop(l, policy, e);
  }

  /** After successes enough the goal is selected, and then its creation fails; whoever was done still is. */
  lemma {:induction false} GoalCreationFails(first: WorkerMap, goal: WorkerId, l: Loop, policy: ExecutionPolicy)
      returns (env: nat -> RoundEnv, n: nat)
    requires Advancing(first, goal, l) && goal in l.run && !l.run[goal].HasSession()
    ensures var end := LoopAfter(l, policy, env, n);
            && end.end.CreationFailed? && end.run.Keys == l.run.Keys
            && forall id :: IsDone(l.run, id) ==> IsDone(end.run, id)
    decreases Measure(l.basis)
  {
    hide NextLoop, LoopOk, AfterPlan, Analyze, Pending, Measure, IsDone;
    AdvancingSelects(first, goal, l);
    CalmSelected(l);
    if l.selected.value == goal {
      env, n := Before(CREATION_DOWN, (k: nat) => CREATION_DOWN), 1;
      CreationDownFails(l, policy);
      OneMoreRound(l, policy, CREATION_DOWN, (k: nat) => CREATION_DOWN, 0);
    } else {
      var next := NextLoop(l, ContinueOnError, CalmEnv(ONE_SUCCESS));
      SuccessRound(l);
      SuccessLowersMeasure(l);
      AdvancingGoesOn(first, goal, l);
      SuccessUnderPolicy(l, policy);
      var later, m := GoalCreationFails(first, goal, next, policy);
      env, n := Before(CalmEnv(ONE_SUCCESS), later), m + 1;
      OneMoreRound(l, policy, CalmEnv(ONE_SUCCESS), later, m);
    }
  }

  lemma StartAdvances(run: WorkerMap, goal: WorkerId)
    requires CanBecomeDone(run, goal) && goal in run && !IsDone(run, goal) && !run[goal].HasSession()
    ensures var start := StartLoop(run, []);
            && Advancing(run, goal, start) && start.selected == PlanStep(run).selected
            && goal in start.run && !start.run[goal].HasSession()
  {
    hide Analyze, StartLoop, Attainable, Settles, AfterPlan, LoopOk, PlanStep;
    CalmStart(run);
    CalmFacts(StartLoop(run, []));
    AfterPlanSettles(run);
    StartPending(run, Analyze(run).blockers.Keys, goal, StartLoop(run, []).run);
    SettledSession(run, Analyze(run).blockers.Keys, AfterPlan(run), goal);
  }

  lemma SettledSession(run: WorkerMap, blocked: set<WorkerId>, after: WorkerMap, id: WorkerId)
    requires Settles(run, blocked, after) && id in run
    ensures id in after && after[id].session == run[id].session
  {
    assert SettlesAt(run, blocked, after, id);
  }

  /** The first worker succeeds, some others do, and then the goal's creation fails: the first worker is still pending
      in the run that marking starts from. */
  lemma LaterCreationRaises(run: WorkerMap, goal: WorkerId, policy: ExecutionPolicy)
      returns (env: nat -> RoundEnv, n: nat)
    requires CreatesLater(run, goal)
    ensures var start := StartLoop(run, []);
            && start.end == Open && start.selected.Some? && Activate(start, []) == start
            && MarkingMeetsSettled(start, LoopAfter(start, policy, env, n), [])
  {
    hide Analyze, StartLoop, AfterPlan, LoopOk, PlanStep, LoopAfter, NextLoop, Pending, CanBecomeDone;
    var start := StartLoop(run, []);
    StartAdvances(run, goal);
    AdvancingSelects(run, goal, start);
    CalmSelected(start);
    InterfereNothing(start.run);
    var opener := start.selected.value;
    SuccessRound(start);
    AdvancingGoesOn(run, goal, start);
    SuccessUnderPolicy(start, policy);
    var next := NextLoop(start, ContinueOnError, CalmEnv(ONE_SUCCESS));
    var later, m := GoalCreationFails(run, goal, next, policy);
    env, n := Before(CalmEnv(ONE_SUCCESS), later), m + 1;
    OneMoreRound(start, policy, CalmEnv(ONE_SUCCESS), later, m);
    var end := LoopAfter(start, policy, env, n);
    InterfereNothing(end.run);
    DoneCannotFail(start.run, end.run, opener);
  }

  lemma DoneCannotFail(before: WorkerMap, after: WorkerMap, id: WorkerId)
    requires id in before && before[id].CanExecute() && IsDone(after, id)
    ensures CanRun(before, id) && id in after && !CanFail(after[id])
  {
  }

  /** Some course of the start, given how recovery went, issues an illegal transition. */
  ghost predicate MayRaise(run: WorkerMap, policy: ExecutionPolicy, foreign: seq<AbortWrite>, now: Instant) {
    exists e: FlowEnv, n: nat ::
      e.recoveryAborts == foreign && e.now == now && FlowAfter(run, policy, e, n) == Raised
  }

  /** A start may raise exactly if it goes on after recovery and the recovered run has a worker without a session that
      successes would get to, other than the one that is selected first. */
  lemma MayRaiseIff(run: WorkerMap, policy: ExecutionPolicy, foreign: seq<AbortWrite>, now: Instant)
    ensures RecoveredRun(run, foreign, now).Some?
    ensures MayRaise(run, policy, foreign, now) <==>
            && !(RecoveryError(Recoveries(run, now)).Some? && policy == FailFast)
            && exists id :: CreatesLater(RecoveredRun(run, foreign, now).value, id)
  {
    hide RecoveredRun, FlowAfter, Recoveries, CreatesLater, StartLoop, LoopAfter, MarkingMeetsSettled, Activate;
    RecoveredIsSome(run, foreign, now);
    var recovered := RecoveredRun(run, foreign, now).value;
    if MayRaise(run, policy, foreign, now) {
      var e: FlowEnv, n: nat :|
        e.recoveryAborts == foreign && e.now == now && FlowAfter(run, policy, e, n) == Raised;
      RaisingNeedsCreation(run, policy, e, n);
    }
    if !(RecoveryError(Recoveries(run, now)).Some? && policy == FailFast)
       && exists id :: CreatesLater(recovered, id) {
      var goal :| CreatesLater(recovered, goal);
      var env, n := LaterCreationRaises(recovered, goal, policy);
      var e := FlowEnv(foreign, [], [], [], now, Supported, env);
      StartRaisesIff(run, policy, e, n);
      assert FlowAfter(run, policy, e, n) == Raised;
    }
  }
}
