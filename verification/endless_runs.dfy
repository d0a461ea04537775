/** The exact condition under which the serial loop terminates for every environment under the continue policy. */
module EndlessRuns {
  import opened Common
  import opened Lifecycle
  import opened Workers
  import opened DependencyWalk
  import opened DependencyAnalysis
  import opened BlockerLaws
  import opened Planner
  import opened Replanning
  import opened Execution
  import opened SerialLoop
  import opened SerialLaws
  import opened Termination

  // ----- Rounds without interference -----

  /** A round without foreign writes in which creating a session works. */
  function CalmEnv(event: PromptEvent): RoundEnv {
    RoundEnv(Env((j: nat) => [], Creates("session"), event, None, false, 0), [])
  }

  lemma CalmWrite(workers: WorkerMap, t: Transition)
    requires t.workerId in workers && Apply(workers[t.workerId], t).Applied?
    ensures Write(workers, [], t) == Some(workers[t.workerId := Offer(workers[t.workerId], t)])
  {
    hide Apply, Offer;
    InterfereNothing(workers);
    WriteAt(workers, [], t);
  }

  /** The attempt changes its own worker only, and ends it exactly as the event says. */
  lemma CalmAttempt(workers: WorkerMap, id: WorkerId, event: PromptEvent) returns (w: Worker)
    requires id in workers && workers[id].CanExecute()
    ensures var r := AttemptRun(workers, id, CalmEnv(event).attempt);
            && r.Ran? && r.workers == workers[id := w]
            && Finished(workers[id], w, event) && w.lifecycle == EndState(workers[id], Classify(event))
  {
    hide Write, Apply, Offer, Finished, OutcomeWrite, StartedWrite, ActiveWrite, ProvisionedWrite, AttemptOf,
         Classify, DecideAttempt;
    var e := CalmEnv(event).attempt;
    var a := workers[id];
    InterfereNothing(workers);
    var created := !a.HasSession();
    var w0 := if created then a.(session := Some("session")) else a;
    var s0 := workers[id := w0];
    assert e.aborts(0) == [] && Interfere(workers, []) == workers;
    assert created ==> AttachSession(workers, id, "session", false) == s0;
    assert !created ==> s0 == workers;
    assert Provisioning(workers, id, e) == Some(s0);
    CalmSteps(a, w0, id, e, created);
    var w1 := Offer(w0, ProvisionedWrite(id, w0));
    CalmWrite(s0, ProvisionedWrite(id, w0));
    var w2 := Offer(w1, ActiveWrite(id, w1, e.now));
    CalmWrite(workers[id := w1], ActiveWrite(id, w1, e.now));
    var w3 := Offer(w2, StartedWrite(id, w2, e, created));
    CalmWrite(workers[id := w2], StartedWrite(id, w2, e, created));
    var t := OutcomeWrite(id, w3, AttemptOf(w2, e, created).id, e);
    CalmWrite(workers[id := w3], t);
    w := Offer(w3, t);
    assert s0[id := w1] == workers[id := w1] && workers[id := w1][id := w2] == workers[id := w2];
    assert workers[id := w2][id := w3] == workers[id := w3] && workers[id := w3][id := w] == workers[id := w];
  }

  /** The single worker's way through the writes of a calm attempt. */
  lemma CalmSteps(a: Worker, w0: Worker, id: WorkerId, e: Env, created: bool)
    requires a.CanExecute() && w0 == a.(session := w0.session)
    ensures Apply(w0, ProvisionedWrite(id, w0)).Applied?
    ensures var w1 := Offer(w0, ProvisionedWrite(id, w0));
            && ProvisionedWrite(id, w0).workerId == id
            && Apply(w1, ActiveWrite(id, w1, e.now)).Applied? && ActiveWrite(id, w1, e.now).workerId == id
            && var w2 := Offer(w1, ActiveWrite(id, w1, e.now));
            && Apply(w2, StartedWrite(id, w2, e, created)).Applied? && StartedWrite(id, w2, e, created).workerId == id
            && var w3 := Offer(w2, StartedWrite(id, w2, e, created));
            && var t := OutcomeWrite(id, w3, AttemptOf(w2, e, created).id, e);
            && t.workerId == id && Apply(w3, t).Applied?
            && Finished(a, Offer(w3, t), e.event) && Offer(w3, t).lifecycle == EndState(a, Classify(e.event))
  {
    hide Finished, OutcomeWrite, EndState, AttemptOf, Running, Prepared;
    CalmPrepared(a, w0, id);
    ProvisionedStep(a, w0, id, w0);
    var w1 := Offer(w0, ProvisionedWrite(id, w0));
    ActiveStep(a, w1, id, w1, e.now);
    var w2 := Offer(w1, ActiveWrite(id, w1, e.now));
    CalmActive(w1, id, w1, e.now);
    StartedStep(a, w2, id, w2, e, created);
    CalmStarted(w2, id, w2, e, created);
    var w3 := Offer(w2, StartedWrite(id, w2, e, created));
    OutcomeStep(a, w3, w3, id, AttemptOf(w2, e, created).id, e);
    OutcomeWorker(id, w3, AttemptOf(w2, e, created).id, e);
  }

  lemma OutcomeWorker(id: WorkerId, w: Worker, attemptId: AttemptId, e: Env)
    ensures OutcomeWrite(id, w, attemptId, e).workerId == id
  {
  }

  lemma CalmPrepared(a: Worker, w0: Worker, id: WorkerId)
    requires a.CanExecute() && w0 == a.(session := w0.session)
    ensures Prepared(a, w0) && Offer(w0, ProvisionedWrite(id, w0)).lifecycle == a.lifecycle
    ensures !Offer(w0, ProvisionedWrite(id, w0)).AcceptedAbort()
  {
  }

  lemma CalmActive(w: Worker, id: WorkerId, payload: Worker, now: Instant)
    requires !w.AcceptedAbort() && Apply(w, ActiveWrite(id, payload, now)).Applied?
    ensures Offer(w, ActiveWrite(id, payload, now)).lifecycle == ActiveWait
  {
  }

  lemma CalmStarted(w: Worker, id: WorkerId, payload: Worker, e: Env, created: bool)
    requires w.lifecycle == ActiveWait
    ensures Offer(w, StartedWrite(id, payload, e, created)).lifecycle == ActiveWait
  {
  }

  /** The selection was planned on basis and the run is exactly what that plan persisted. */
  ghost predicate Calm(l: Loop) {
    LoopOk(l) && l.end == Open && l.run == AfterPlan(l.basis)
  }

  lemma CalmStart(run: WorkerMap)
    ensures Calm(StartLoop(run, [])) && StartLoop(run, []).basis == run
    ensures StartLoop(run, []).attempts == []
  {
    hide LoopOk, PlanStep, AfterPlan;
    StartLoopOk(run, []);
    InterfereNothing(run);
    PlanIsLegal(run);
  }

  lemma CalmSelected(l: Loop)
    requires Calm(l) && l.selected.Some?
    ensures var id := l.selected.value;
            && Continues(l) && id in l.basis && id in l.run && l.run[id] == l.basis[id]
            && l.run[id].CanExecute() && !IsDone(l.run, id)
  {
    hide Analyze, AfterPlan;
    SelectedIsReady(l.basis);
    AfterPlanSettles(l.basis);
    var id := l.selected.value;
    assert SettlesAt(l.basis, Analyze(l.basis).blockers.Keys, l.run, id);
  }

  lemma CalmRound(l: Loop, event: PromptEvent) returns (w: Worker)
    requires Calm(l) && Continues(l)
    ensures var next := NextLoop(l, ContinueOnError, CalmEnv(event)); var id := l.selected.value;
            && Calm(next) && next.basis == l.run[id := w] && next.selected == PlanStep(next.basis).selected
            && next.attempts == l.attempts + [id]
            && Finished(l.run[id], w, event) && w.lifecycle == EndState(l.run[id], Classify(event))
  {
    hide AttemptRun, LoopOk, PlanStep, AfterPlan, Finished, EndState;
    var id := l.selected.value;
    CalmSelected(l);
    w := CalmAttempt(l.run, id, event);
    var ws := l.run[id := w];
    InterfereNothing(ws);
    PlanIsLegal(ws);
    RoundKeepsOk(l, ContinueOnError, (i: nat) => CalmEnv(event), 0);
  }

  // ----- An uncharged worker is selected again and again -----

  ghost predicate Looping(l: Loop) {
    Calm(l) && l.selected.Some? && l.selected.value in l.run && Uncharged(l.run[l.selected.value])
  }

  lemma StillReady(basis: WorkerMap, blocked: set<WorkerId>, after: WorkerMap, id: WorkerId, w: Worker,
                   blockedNow: set<WorkerId>)
    requires Settles(basis, blocked, after) && IsReady(basis, blocked, id)
    requires id in after && w.CanExecute() && w.dependencies == after[id].dependencies && id !in blockedNow
    ensures IsReady(after[id := w], blockedNow, id)
    ensures forall x :: x != id && IsReady(after[id := w], blockedNow, x) ==> IsReady(basis, blocked, x)
  {
    var ws := after[id := w];
    SettledViews(basis, blocked, after, id);
    forall d ensures IsDone(ws, d) <==> IsDone(basis, d) {
      SettledViews(basis, blocked, after, d);
    }
    forall x | x != id && IsReady(ws, blockedNow, x) ensures IsReady(basis, blocked, x) {
      SettledViews(basis, blocked, after, x);
    }
  }

  lemma SelectedStays(basis: WorkerMap, after: WorkerMap, id: WorkerId, w: Worker)
    requires Settles(basis, Analyze(basis).blockers.Keys, after)
    requires PlanStep(basis).selected == Some(id) && id in after
    requires w.CanExecute() && !w.CanBlock() && w.dependencies == after[id].dependencies
    ensures PlanStep(after[id := w]).selected == Some(id) && id !in Analyze(after[id := w]).blockers
  {
    hide Analyze, IsReady, Settles, PlanStep;
    SelectedIff(basis, id);
    SelectedIff(after[id := w], id);
    BlockedWorkersHaveBlockers(after[id := w], id);
    assert !Blockable(after[id := w], id);
    StillReady(basis, Analyze(basis).blockers.Keys, after, id, w, Analyze(after[id := w]).blockers.Keys);
    var ws, blocked := after[id := w], Analyze(after[id := w]).blockers.Keys;
    forall x | IsReady(ws, blocked, x) ensures id <= x {
      if x != id { assert IsReady(basis, Analyze(basis).blockers.Keys, x); }
    }
  }

  const ONE_TIMEOUT := DeadlineTimeout("timed out", None)

  lemma TimeoutKeepsRetryable(a: Worker, w: Worker)
    requires a.CanExecute() && Uncharged(a) && Finished(a, w, ONE_TIMEOUT)
             && w.lifecycle == EndState(a, Classify(ONE_TIMEOUT))
    ensures w.CanExecute() && !w.CanBlock() && Uncharged(w) && w.dependencies == a.dependencies
  {
  }

  lemma LoopingGoesOn(l: Loop)
    requires Looping(l)
    ensures Looping(NextLoop(l, ContinueOnError, CalmEnv(ONE_TIMEOUT)))
    ensures |NextLoop(l, ContinueOnError, CalmEnv(ONE_TIMEOUT)).attempts| == |l.attempts| + 1
  {
    hide NextLoop, LoopOk, AfterPlan, PlanStep, Analyze, Uncharged, Finished, EndState, Settles;
    CalmSelected(l);
    var id := l.selected.value;
    var w := CalmRound(l, ONE_TIMEOUT);
    TimeoutKeepsRetryable(l.run[id], w);
    AfterPlanSettles(l.basis);
    CalmSelection(l);
    SelectedStays(l.basis, l.run, id, w);
    AfterPlanKeeps(l.run[id := w], id);
  }

  lemma AfterPlanKeeps(workers: WorkerMap, id: WorkerId)
    requires id in workers && id !in Analyze(workers).blockers
    ensures id in AfterPlan(workers) && AfterPlan(workers)[id] == workers[id]
  {
    hide Analyze, AfterPlan;
    AfterPlanSettles(workers);
    assert SettlesAt(workers, Analyze(workers).blockers.Keys, AfterPlan(workers), id);
  }

  lemma CalmSelection(l: Loop)
    requires Calm(l)
    ensures l.selected == PlanStep(l.basis).selected
  {
    hide PlanStep, AfterPlan, WrittenAll, Analyze;
  }

  // ----- Workers that an all-success environment would get to -----

  /** Done after at most n generations: done now, or executable and unblocked with dependencies attainable earlier. */
  function Attainable(workers: WorkerMap, blocked: set<WorkerId>, n: nat): set<WorkerId> {
    if n == 0 then set id | id in workers && IsDone(workers, id)
    else
      var earlier := Attainable(workers, blocked, n - 1);
      earlier + set id | id in workers && id !in blocked && CanRun(workers, id)
                         && forall d :: d in Dependencies(workers, id) ==> d in earlier
  }

  ghost predicate CanBecomeDone(workers: WorkerMap, id: WorkerId) {
    exists n :: id in Attainable(workers, Analyze(workers).blockers.Keys, n)
  }

  /** Everything attainable from the first run is done, or still executable with its budget; the goal is not done. */
  ghost predicate Pending(first: WorkerMap, blocked: set<WorkerId>, goal: WorkerId, run: WorkerMap) {
    && run.Keys == first.Keys
    && (forall x :: x in first ==> SameConfig(first[x], run[x]))
    && (forall x :: IsDone(first, x) ==> IsDone(run, x))
    && (forall x, n :: x in Attainable(first, blocked, n) ==>
          IsDone(run, x) || (CanRun(run, x) && run[x].retryCount == first[x].retryCount))
    && goal in first && !IsDone(run, goal) && exists n :: goal in Attainable(first, blocked, n)
  }

  lemma {:induction false} AttainableAreWorkers(first: WorkerMap, blocked: set<WorkerId>, n: nat)
    ensures Attainable(first, blocked, n) <= first.Keys
  {
    if n > 0 { AttainableAreWorkers(first, blocked, n - 1); }
  }

  lemma {:induction false} SomethingReady(first: WorkerMap, blocked: set<WorkerId>, goal: WorkerId, run: WorkerMap,
                                          x: WorkerId, n: nat)
      returns (r: WorkerId)
    requires Pending(first, blocked, goal, run) && x in Attainable(first, blocked, n) && !IsDone(run, x)
    ensures CanRun(run, r) && DependenciesDone(run, r)
    decreases n
  {
    hide Pending, Attainable, CanRun, IsDone;
    AttainableIs(first, blocked, x, n);
    PendingAt(first, blocked, goal, run, x, n);
    if DependenciesDone(run, x) {
      r := x;
    } else if n == 0 || x in Attainable(first, blocked, n - 1) {
      r := SomethingReady(first, blocked, goal, run, x, n - 1);
    } else {
      var d :| d in Dependencies(run, x) && !IsDone(run, d);
      r := SomethingReady(first, blocked, goal, run, d, n - 1);
    }
  }

  lemma PendingAt(first: WorkerMap, blocked: set<WorkerId>, goal: WorkerId, run: WorkerMap, x: WorkerId, n: nat)
    requires Pending(first, blocked, goal, run) && x in Attainable(first, blocked, n) && x in first
    ensures IsDone(run, x) || CanRun(run, x)
    ensures IsDone(first, x) ==> IsDone(run, x)
    ensures Dependencies(run, x) == Dependencies(first, x)
  {
    hide Attainable;
  }

  lemma AttainableIs(first: WorkerMap, blocked: set<WorkerId>, x: WorkerId, n: nat)
    requires x in Attainable(first, blocked, n)
    ensures x in first
    ensures n == 0 ==> IsDone(first, x)
    ensures n > 0 ==> x in Attainable(first, blocked, n - 1) ||
                      (x !in blocked && CanRun(first, x)
                       && forall d :: d in Dependencies(first, x) ==> d in Attainable(first, blocked, n - 1))
  {
    AttainableAreWorkers(first, blocked, n);
  }

  ghost predicate Advancing(first: WorkerMap, goal: WorkerId, l: Loop) {
    Calm(l) && Pending(first, Analyze(first).blockers.Keys, goal, l.run)
  }

  lemma AdvancingSelects(first: WorkerMap, goal: WorkerId, l: Loop)
    requires Advancing(first, goal, l)
    ensures l.selected.Some?
  {
    hide Analyze, Settles, IsReady, LoopOk;
    var blocked := Analyze(first).blockers.Keys;
    var n :| goal in Attainable(first, blocked, n);
    var r := SomethingReady(first, blocked, goal, l.run, goal, n);
    AfterPlanSettles(l.basis);
    ReadyInBasis(l.basis, Analyze(l.basis).blockers.Keys, l.run, r);
    AnalyzedReadyIff(l.basis, r);
    CalmSelection(l);
    SelectedIsFirstReady(l.basis);
  }

  lemma ReadyInBasis(basis: WorkerMap, blocked: set<WorkerId>, after: WorkerMap, r: WorkerId)
    requires Settles(basis, blocked, after) && CanRun(after, r) && DependenciesDone(after, r)
    ensures IsReady(basis, blocked, r)
  {
    SettledViews(basis, blocked, after, r);
    forall d | d in Dependencies(basis, r) ensures IsDone(basis, d) { SettledViews(basis, blocked, after, d); }
  }

  const ONE_SUCCESS := Returned(Result(Done, None, None))

  lemma DoneAddsNoSeed(after: WorkerMap, id: WorkerId, w: Worker, x: WorkerId)
    requires id in after && w.Status() == Done && w.dependencies == after[id].dependencies
    requires Analyze(after).blockers == map[]
    requires Blockable(after[id := w], x)
    ensures !OnRecordedCycle(WalkOf(GraphOf(after)).cycles, x)
    ensures !WaitsForNonRunnable(after[id := w], x) && !WaitsForFailed(after[id := w], x)
  {
    hide WalkOf, Analyze, OnRecordedCycle;
    var ws := after[id := w];
    assert x != id;
    BlockedIff(after, x);
    forall d | DependsOn(ws, x, d) ensures !NonRunnable(ws, d) && !MissingOrFailed(ws, d) {
      assert DependsOn(after, x, d);
    }
  }

  lemma DoneAddsNoBlockers(after: WorkerMap, id: WorkerId, w: Worker)
    requires id in after && w.Status() == Done && w.dependencies == after[id].dependencies
    requires Analyze(after).blockers == map[]
    ensures Analyze(after[id := w]).blockers == map[]
  {
    hide WalkOf, Analyze, OnRecordedCycle, WaitsForNonRunnable, WaitsForFailed, Blockable, InvalidSeeds,
         DependencySeeds;
    var ws := after[id := w];
    assert GraphOf(ws) == GraphOf(after);
    var cycles := WalkOf(GraphOf(after)).cycles;
    forall x ensures x !in InvalidSeeds(ws, cycles) && x !in DependencySeeds(ws) {
      InvalidSeedIff(ws, cycles, x);
      DependencySeedIff(ws, x);
      if Blockable(ws, x) { DoneAddsNoSeed(after, id, w, x); }
    }
    assert InvalidSeeds(ws, cycles) == map[] && DependencySeeds(ws) == map[];
    NoSeedsNoBlockers(ws);
  }

  lemma PendingAfterDone(first: WorkerMap, blocked: set<WorkerId>, goal: WorkerId, run: WorkerMap, id: WorkerId,
                         w: Worker)
    requires Pending(first, blocked, goal, run) && id in run && id != goal
    requires SameConfig(run[id], w) && w.Status() == Done
    ensures Pending(first, blocked, goal, run[id := w])
  {
    hide Attainable;
    var ws := run[id := w];
    forall x | IsDone(run, x) ensures IsDone(ws, x) { }
    forall x, n | x in Attainable(first, blocked, n)
      ensures IsDone(ws, x) || (CanRun(ws, x) && ws[x].retryCount == first[x].retryCount)
    {
      AttainableAreWorkers(first, blocked, n);
    }
  }

  lemma SuccessIsDone(a: Worker, w: Worker)
    requires Finished(a, w, ONE_SUCCESS) && w.lifecycle == EndState(a, Classify(ONE_SUCCESS))
    ensures w.Status() == Done && SameConfig(a, w)
  {
  }

  lemma GoalStaysUncharged(first: WorkerMap, blocked: set<WorkerId>, goal: WorkerId, run: WorkerMap)
    requires Pending(first, blocked, goal, run) && goal in first && Uncharged(first[goal])
    ensures goal in run && Uncharged(run[goal])
  {
    var n :| goal in Attainable(first, blocked, n);
  }

  lemma AdvancingGoesOn(first: WorkerMap, goal: WorkerId, l: Loop)
    requires Advancing(first, goal, l) && l.selected.Some? && l.selected.value in l.run
    requires l.selected.value != goal
    ensures Advancing(first, goal, NextLoop(l, ContinueOnError, CalmEnv(ONE_SUCCESS)))
    ensures |NextLoop(l, ContinueOnError, CalmEnv(ONE_SUCCESS)).attempts| == |l.attempts| + 1
  {
    hide NextLoop, LoopOk, AfterPlan, PlanStep, Analyze, Finished, EndState, Settles, Pending;
    CalmSelected(l);
    var id := l.selected.value;
    var w := CalmRound(l, ONE_SUCCESS);
    SuccessIsDone(l.run[id], w);
    PendingAfterDone(first, Analyze(first).blockers.Keys, goal, l.run, id, w);
    AfterPlanSettles(l.basis);
    SettledBlocksNobody(l.basis, l.run);
    DoneAddsNoBlockers(l.run, id, w);
    EmptyPlan(l.run[id := w]);
  }

  lemma {:induction false} StartPending(first: WorkerMap, blocked: set<WorkerId>, goal: WorkerId, run: WorkerMap)
    requires Settles(first, blocked, run)
    requires goal in first && !IsDone(first, goal) && exists n :: goal in Attainable(first, blocked, n)
    ensures Pending(first, blocked, goal, run)
  {
    forall x ensures IsDone(first, x) <==> IsDone(run, x) { SettledViews(first, blocked, run, x); }
    forall x, n | x in Attainable(first, blocked, n)
      ensures IsDone(run, x) || (CanRun(run, x) && run[x].retryCount == first[x].retryCount)
    {
      AttainableSettled(first, blocked, run, x, n);
    }
    forall x | x in first ensures SameConfig(first[x], run[x]) { assert SettlesAt(first, blocked, run, x); }
  }

  lemma {:induction false} AttainableSettled(first: WorkerMap, blocked: set<WorkerId>, run: WorkerMap, x: WorkerId,
                                             n: nat)
    requires Settles(first, blocked, run) && x in Attainable(first, blocked, n)
    ensures x in first && x in run
    ensures IsDone(run, x) || (CanRun(run, x) && run[x].retryCount == first[x].retryCount)
  {
    SettledViews(first, blocked, run, x);
    if n > 0 && x in Attainable(first, blocked, n - 1) {
      AttainableSettled(first, blocked, run, x, n - 1);
    } else {
      assert SettlesAt(first, blocked, run, x);
    }
  }

  // ----- An environment under which the loop never ends -----

  function EventFor(l: Loop): PromptEvent {
    if Continues(l) && Uncharged(l.run[l.selected.value]) then ONE_TIMEOUT else ONE_SUCCESS
  }

  ghost predicate Unending(first: WorkerMap, goal: WorkerId, l: Loop) {
    Looping(l) || (Advancing(first, goal, l) && goal in first && Uncharged(first[goal]))
  }

  lemma UnendingGoesOn(first: WorkerMap, goal: WorkerId, l: Loop)
    requires Unending(first, goal, l)
    ensures Continues(l)
    ensures Unending(first, goal, NextLoop(l, ContinueOnError, CalmEnv(EventFor(l))))
    ensures |NextLoop(l, ContinueOnError, CalmEnv(EventFor(l))).attempts| == |l.attempts| + 1
  {
    hide NextLoop, Uncharged, LoopOk, AfterPlan, Pending, Analyze;
    if !Looping(l) {
      AdvancingSelects(first, goal, l);
      GoalStaysUncharged(first, Analyze(first).blockers.Keys, goal, l.run);
    }
    CalmSelected(l);
    if Uncharged(l.run[l.selected.value]) { LoopingGoesOn(l); } else { AdvancingGoesOn(first, goal, l); }
  }

  /** The loop against the environment that answers each selection by EventFor. */
  function Played(start: Loop, k: nat): Loop {
    if k == 0 then start
    else var l := Played(start, k - 1); NextLoop(l, ContinueOnError, CalmEnv(EventFor(l)))
  }

  function Player(start: Loop): nat -> RoundEnv {
    (k: nat) => CalmEnv(EventFor(Played(start, k)))
  }

  lemma {:induction false} PlayedIsRun(first: WorkerMap, goal: WorkerId, start: Loop, n: nat)
    requires Unending(first, goal, start)
    ensures LoopAfter(start, ContinueOnError, Player(start), n) == Played(start, n)
    ensures Unending(first, goal, Played(start, n)) && |Played(start, n).attempts| == |start.attempts| + n
  {
    hide NextLoop, Unending, Continues, EventFor, CalmEnv;
    if n > 0 {
      PlayedIsRun(first, goal, start, n - 1);
      RoundsExtend(Stepper(ContinueOnError, Player(start)), start, 0, n - 1);
      UnendingGoesOn(first, goal, Played(start, n - 1));
    }
  }

  /** If a worker that successes would reach has timeouts uncharged, some environment keeps the loop going for ever. */
  lemma NeverEnds(run: WorkerMap, goal: WorkerId) returns (env: nat -> RoundEnv)
    requires CanBecomeDone(run, goal) && !IsDone(run, goal) && goal in run && Uncharged(run[goal])
    ensures forall n: nat :: |LoopAfter(StartLoop(run, []), ContinueOnError, env, n).attempts| == n
  {
    hide Analyze, LoopAfter, Played, StartLoop, Attainable, Settles, AfterPlan, LoopOk;
    var start := StartLoop(run, []);
    CalmStart(run);
    AfterPlanSettles(run);
    StartPending(run, Analyze(run).blockers.Keys, goal, start.run);
    env := Player(start);
    forall n: nat ensures |LoopAfter(start, ContinueOnError, env, n).attempts| == n {
      PlayedIsRun(run, goal, start, n);
    }
  }

  /** One worker that may retry a timeout once. */
  const STUBBORN_WORKER: WorkerMap :=
    map[1 := DefaultWorker(1).(prompt := Some("task"), retryLimit := 1, retryableFailures := [TimeoutFailure])]

  lemma StubbornCanBecomeDone()
    ensures CanBecomeDone(STUBBORN_WORKER, 1) && !IsDone(STUBBORN_WORKER, 1) && Uncharged(STUBBORN_WORKER[1])
  {
    hide Analyze;
    IndependentWorkersUnblocked(STUBBORN_WORKER);
    var blocked := Analyze(STUBBORN_WORKER).blockers.Keys;
    assert blocked == {};
    assert CanRun(STUBBORN_WORKER, 1) && Dependencies(STUBBORN_WORKER, 1) == [];
    assert 1 in Attainable(STUBBORN_WORKER, blocked, 1);
  }

  /** There is an environment in which a run of that worker alone goes on for ever. */
  lemma OneWorkerForEver() returns (env: nat -> RoundEnv)
    ensures forall n: nat :: |LoopAfter(StartLoop(STUBBORN_WORKER, []), ContinueOnError, env, n).attempts| == n
  {
    hide LoopAfter, StartLoop, CanBecomeDone, Uncharged, IsDone;
    StubbornCanBecomeDone();
    env := NeverEnds(STUBBORN_WORKER, 1);
  }

  // ----- Otherwise every run is bounded -----

  ghost predicate EverAttainable(first: WorkerMap, blocked: set<WorkerId>, id: WorkerId) {
    exists n :: id in Attainable(first, blocked, n)
  }

  /** Whatever has become done, or may still be selected, was attainable from the first run. */
  ghost predicate FromFirst(first: WorkerMap, blocked: set<WorkerId>, basis: WorkerMap, blockedNow: set<WorkerId>) {
    basis.Keys == first.Keys && forall x :: x in first ==> FromFirstAt(first, blocked, basis, blockedNow, x)
  }

  ghost predicate FromFirstAt(first: WorkerMap, blocked: set<WorkerId>, basis: WorkerMap, blockedNow: set<WorkerId>,
                              x: WorkerId)
    requires x in first && x in basis
  {
    && SameConfig(first[x], basis[x])
    && (IsDone(basis, x) ==> EverAttainable(first, blocked, x))
    && (CanRun(basis, x) && x !in blockedNow ==>
          CanRun(first, x) && x !in blocked && first[x].retryCount <= basis[x].retryCount)
  }

  lemma {:induction false} AttainableGrows(first: WorkerMap, blocked: set<WorkerId>, m: nat, n: nat)
    requires m <= n
    ensures Attainable(first, blocked, m) <= Attainable(first, blocked, n)
    decreases n - m
  {
    if m < n { AttainableGrows(first, blocked, m, n - 1); }
  }

  /** A common generation for the dependencies listed so far. */
  lemma {:induction false} CommonGeneration(first: WorkerMap, blocked: set<WorkerId>, ids: seq<WorkerId>)
      returns (n: nat)
    requires forall d :: d in ids ==> EverAttainable(first, blocked, d)
    ensures forall d :: d in ids ==> d in Attainable(first, blocked, n)
  {
    hide Attainable;
    if ids == [] {
      n := 0;
    } else {
      assert ids[0] in ids && EverAttainable(first, blocked, ids[0]);
      var k :| ids[0] in Attainable(first, blocked, k);
      var m := CommonGeneration(first, blocked, ids[1..]);
      n := if k < m then m else k;
      AttainableGrows(first, blocked, k, n);
      AttainableGrows(first, blocked, m, n);
    }
  }

  lemma SelectedIsAttainable(first: WorkerMap, blocked: set<WorkerId>, basis: WorkerMap, blockedNow: set<WorkerId>,
                             id: WorkerId)
    requires FromFirst(first, blocked, basis, blockedNow) && IsReady(basis, blockedNow, id)
    ensures EverAttainable(first, blocked, id)
    ensures id in first && CanRun(first, id) && id !in blocked && first[id].retryCount <= basis[id].retryCount
  {
    hide Attainable;
    assert FromFirstAt(first, blocked, basis, blockedNow, id);
    assert Dependencies(first, id) == Dependencies(basis, id);
    forall d | d in Dependencies(first, id) ensures EverAttainable(first, blocked, d) {
      assert IsDone(basis, d) && FromFirstAt(first, blocked, basis, blockedNow, d);
    }
    var n := CommonGeneration(first, blocked, Dependencies(first, id));
    AttainableNext(first, blocked, id, n);
  }

  lemma AttainableNext(first: WorkerMap, blocked: set<WorkerId>, id: WorkerId, n: nat)
    requires id !in blocked && CanRun(first, id)
    requires forall d :: d in Dependencies(first, id) ==> d in Attainable(first, blocked, n)
    ensures id in Attainable(first, blocked, n + 1)
  {
  }

  ghost predicate Traced(first: WorkerMap, blocked: set<WorkerId>, l: Loop) {
    LoopOk(l) && (l.end == Open ==> FromFirst(first, blocked, l.basis, Analyze(l.basis).blockers.Keys))
  }

  /** What a round does to the attempted worker and to any other one. */
  lemma FromFirstStepAt(first: WorkerMap, blocked: set<WorkerId>, basis: WorkerMap, blockedNow: set<WorkerId>,
                        run: WorkerMap, ws: WorkerMap, event: PromptEvent, blockedNext: set<WorkerId>, id: WorkerId,
                        x: WorkerId)
    requires x in first && x in basis && x in run && x in ws && FromFirstAt(first, blocked, basis, blockedNow, x)
    requires Settling(basis[x], run[x]) && (x in blockedNow ==> !Executable(run[x].lifecycle))
    requires if x == id then Overlay(basis[x], run[x]) && Finished(run[x], ws[x], event) else Settling(run[x], ws[x])
    requires x == id ==> EverAttainable(first, blocked, x) && CanRun(first, x) && x !in blocked
                         && first[x].retryCount <= basis[x].retryCount
    ensures FromFirstAt(first, blocked, ws, blockedNext, x)
  {
    hide EverAttainable;
  }

  lemma FromFirstStep(first: WorkerMap, blocked: set<WorkerId>, basis: WorkerMap, blockedNow: set<WorkerId>,
                      run: WorkerMap, id: WorkerId, ws: WorkerMap, event: PromptEvent,
                      blockedNext: set<WorkerId>)
    requires FromFirst(first, blocked, basis, blockedNow) && IsReady(basis, blockedNow, id)
    requires WrittenAll(basis, blockedNow, run) && id in run && id in basis && id in ws
    requires SettlesElsewhere(run, id, ws) && Finished(run[id], ws[id], event) && Overlay(basis[id], run[id])
    ensures FromFirst(first, blocked, ws, blockedNext)
  {
    hide EverAttainable, WrittenAll, Finished, Overlay, Settling, FromFirstAt, IsReady, CanRun;
    WrittenAllSettles(basis, blockedNow, run);
    SelectedIsAttainable(first, blocked, basis, blockedNow, id);
    forall x | x in first ensures FromFirstAt(first, blocked, ws, blockedNext, x) {
      FromFirstStepAt(first, blocked, basis, blockedNow, run, ws, event, blockedNext, id, x);
    }
  }

  lemma RoundKeepsTraced(first: WorkerMap, blocked: set<WorkerId>, l: Loop, policy: ExecutionPolicy, event: PromptEvent,
                         ws: WorkerMap, next: Loop)
    requires Traced(first, blocked, l) && l.end == Open && RoundEffect(l, policy, event, ws, next)
    ensures Traced(first, blocked, next)
  {
    hide LoopOk, Analyze, PlanStep,FromFirst, WrittenAll, Elsewhere, Finished, Overlay, IsReady;
    EffectKeepsOk(l, policy, event, ws, next);
    if next.end == Open {
      SelectedReady(l);
      LoopWritten(l);
      ElsewhereSettles(l.run, l.selected.value, ws);
      FromFirstStep(first, blocked, l.basis, Analyze(l.basis).blockers.Keys, l.run, l.selected.value, ws, event,
                    Analyze(ws).blockers.Keys);
    }
  }

  lemma SelectedReady(l: Loop)
    requires LoopOk(l) && Continues(l)
    ensures var id := l.selected.value;
            id in l.basis && IsReady(l.basis, Analyze(l.basis).blockers.Keys, id) && Overlay(l.basis[id], l.run[id])
  {
    hide Analyze;
    SelectedInRun(l);
    SelectedIsReady(l.basis);
  }

  lemma StepKeepsTraced(first: WorkerMap, blocked: set<WorkerId>, policy: ExecutionPolicy, env: nat -> RoundEnv,
                        l: Loop, i: nat)
    requires Traced(first, blocked, l) && Continues(l)
    ensures Traced(first, blocked, Stepper(policy, env)(l, i))
  {
    hide NextLoop, LoopOk, RoundEffect,FromFirst, Analyze;
    RoundHasEffect(l, policy, env(i));
    RoundKeepsTraced(first, blocked, l, policy, env(i).attempt.event,
                     AttemptRun(l.run, l.selected.value, env(i).attempt).workers, NextLoop(l, policy, env(i)));
  }

  lemma StartIsTraced(run: WorkerMap, foreign: seq<AbortWrite>)
    ensures Traced(run, Analyze(run).blockers.Keys, StartLoop(run, foreign))
  {
    hide LoopOk, Analyze, PlanStep, PersistPlan, Attainable;
    StartLoopOk(run, foreign);
    forall x | x in run ensures FromFirstAt(run, Analyze(run).blockers.Keys, run, Analyze(run).blockers.Keys, x) {
      if IsDone(run, x) { DoneIsAttainable(run, Analyze(run).blockers.Keys, x); }
    }
  }

  lemma DoneIsAttainable(run: WorkerMap, blocked: set<WorkerId>, x: WorkerId)
    requires IsDone(run, x)
    ensures EverAttainable(run, blocked, x)
  {
    assert x in Attainable(run, blocked, 0);
  }

  /** The condition on the first run: no worker that successes would reach has timeouts that go uncharged. */
  ghost predicate AllCharged(run: WorkerMap) {
    forall id :: CanBecomeDone(run, id) && id in run && !IsDone(run, id) ==> !Uncharged(run[id])
  }

  lemma TracedCharges(run: WorkerMap, l: Loop, event: PromptEvent)
    requires AllCharged(run) && Traced(run, Analyze(run).blockers.Keys, l)
    ensures ChargesBudget(l, event)
  {
    hide Analyze, WrittenAll, Attainable,FromFirst, LoopOk;
    if Continues(l) {
      var id := l.selected.value;
      SelectedReady(l);
      SelectedIsAttainable(run, Analyze(run).blockers.Keys, l.basis, Analyze(l.basis).blockers.Keys, id);
      FromFirstConfig(run, Analyze(run).blockers.Keys, l.basis, Analyze(l.basis).blockers.Keys, id);
      assert CanBecomeDone(run, id);
    }
  }

  lemma FromFirstConfig(first: WorkerMap, blocked: set<WorkerId>, basis: WorkerMap, blockedNow: set<WorkerId>,
                        id: WorkerId)
    requires FromFirst(first, blocked, basis, blockedNow) && id in first
    ensures id in basis && SameConfig(first[id], basis[id])
  {
    assert FromFirstAt(first, blocked, basis, blockedNow, id);
  }

  /** If every worker that successes would reach charges its timeouts, no environment gets more attempts than the
      measure. */
  lemma AlwaysEnds(run: WorkerMap, foreign: seq<AbortWrite>, policy: ExecutionPolicy, env: nat -> RoundEnv, n: nat)
    requires AllCharged(run)
    ensures |LoopAfter(StartLoop(run, foreign), policy, env, n).attempts| <= Measure(run)
  {
    hide NextLoop, Continues, StartLoop, Traced, AllCharged, Measure, ChargesBudget;
    var inv := (l: Loop) => Traced(run, Analyze(run).blockers.Keys, l);
    StartIsTraced(run, foreign);
    forall x: Loop, i: nat | inv(x) && Continues(x) ensures inv(Stepper(policy, env)(x, i)) {
      StepKeepsTraced(run, Analyze(run).blockers.Keys, policy, env, x, i);
    }
    forall i: nat | i < n
      ensures ChargesBudget(LoopAfter(StartLoop(run, foreign), policy, env, i), env(i).attempt.event)
    {
      RoundsKeep(inv, Stepper(policy, env), StartLoop(run, foreign), 0, i);
      TracedCharges(run, LoopAfter(StartLoop(run, foreign), policy, env, i), env(i).attempt.event);
    }
    TerminationBound(run, foreign, policy, env, n);
  }

  /** No environment makes the continue policy take more attempts than bound. */
  ghost predicate BoundedBy(run: WorkerMap, bound: nat) {
    forall foreign: seq<AbortWrite>, env: nat -> RoundEnv, n: nat ::
      |LoopAfter(StartLoop(run, foreign), ContinueOnError, env, n).attempts| <= bound
  }

  /** Under the continue policy a run is bounded for all environments iff no worker it can reach by successes may time
      out without being charged. */
  lemma TerminatesIff(run: WorkerMap)
    ensures (exists bound :: BoundedBy(run, bound)) <==> AllCharged(run)
    ensures AllCharged(run) ==> BoundedBy(run, Measure(run))
  {
    hide LoopAfter, StartLoop, Measure, CanBecomeDone, Uncharged;
    if AllCharged(run) {
      forall foreign: seq<AbortWrite>, env: nat -> RoundEnv, n: nat
        ensures |LoopAfter(StartLoop(run, foreign), ContinueOnError, env, n).attempts| <= Measure(run)
      {
        AlwaysEnds(run, foreign, ContinueOnError, env, n);
      }
      assert BoundedBy(run, Measure(run));
    } else {
      var goal :| CanBecomeDone(run, goal) && goal in run && !IsDone(run, goal) && Uncharged(run[goal]);
      var env := NeverEnds(run, goal);
      forall bound: nat ensures !BoundedBy(run, bound) {
        assert |LoopAfter(StartLoop(run, []), ContinueOnError, env, bound + 1).attempts| == bound + 1;
      }
    }
  }
}
