/** The serial execution loop: plan, attempt one worker, persist, plan again. */
module SerialLoop {
  import opened Common
  import opened Lifecycle
  import opened Workers
  import opened DependencyAnalysis
  import opened BlockerLaws
  import opened Planner
  import opened Execution
  import opened Executor

  datatype ExecutionPolicy = FailFast | ContinueOnError

  /** What one round of the loop cannot decide itself. */
  datatype RoundEnv = RoundEnv(attempt: Env, planAborts: seq<AbortWrite>)

  datatype End = Open | StoppedFast(error: string) | CreationFailed(reason: string) | IllegalWrite

  /** run is what the last write returned; basis is the run that the current selection was planned on. */
  datatype Loop = Loop(
    basis: WorkerMap,
    run: WorkerMap,
    selected: Option<WorkerId>,
    attempts: seq<WorkerId>,
    firstError: Option<string>,
    end: End)

  /** Persists the blocked transitions planned on run, after the foreign writes that landed meanwhile. */
  function PersistPlan(run: WorkerMap, foreign: seq<AbortWrite>): Option<WorkerMap> {
    ApplyBatch(Interfere(run, foreign), PlanStep(run).transitions)
  }

  function StartLoop(run: WorkerMap, foreign: seq<AbortWrite>): Loop {
    match PersistPlan(run, foreign)
    case None => Loop(run, run, None, [], None, IllegalWrite)
    case Some(planned) => Loop(run, planned, PlanStep(run).selected, [], None, Open)
  }

  predicate Continues(l: Loop) {
    l.end == Open && l.selected.Some? && l.selected.value in l.run
  }

  /** What the loop does with an attempt that ran: replan, persist the blockers, then stop or go on. */
  function Replan(tried: Loop, ws: WorkerMap, error: Option<string>, policy: ExecutionPolicy,
                  foreign: seq<AbortWrite>): Loop {
    var first := if tried.firstError.Some? then tried.firstError else error;
    match PersistPlan(ws, foreign)
    case None => tried.(run := ws, firstError := first, end := IllegalWrite)
    case Some(planned) =>
      if error.Some? && policy == FailFast then
        Loop(ws, planned, tried.selected, tried.attempts, first, StoppedFast(error.value))
      else
        Loop(ws, planned, PlanStep(ws).selected, tried.attempts, first, Open)
  }

  function NextLoop(l: Loop, policy: ExecutionPolicy, e: RoundEnv): Loop {
    if !Continues(l) then l
    else
      var tried := l.(attempts := l.attempts + [l.selected.value]);
      match AttemptRun(l.run, l.selected.value, e.attempt)
      case Illegal(ws) => tried.(run := ws, end := IllegalWrite)
      case ProvisionFailed(ws, reason) => tried.(run := ws, end := CreationFailed(reason))
      case Ran(ws, error) => Replan(tried, ws, error, policy, e.planAborts)
  }

  function Stepper(policy: ExecutionPolicy, env: nat -> RoundEnv): (Loop, nat) -> Loop {
    (l: Loop, k: nat) => NextLoop(l, policy, env(k))
  }

  /** At most n rounds, the first of them round k. */
  function Rounds(step: (Loop, nat) -> Loop, l: Loop, k: nat, n: nat): Loop
    decreases n
  {
    if n == 0 || !Continues(l) then l else Rounds(step, step(l, k), k + 1, n - 1)
  }

  function LoopAfter(l: Loop, policy: ExecutionPolicy, env: nat -> RoundEnv, n: nat): Loop {
    Rounds(Stepper(policy, env), l, 0, n)
  }

  lemma {:induction false} RoundsKeep(inv: Loop -> bool, step: (Loop, nat) -> Loop, l: Loop, k: nat, n: nat)
    requires inv(l)
    requires forall x: Loop, i: nat :: inv(x) && Continues(x) ==> inv(step(x, i))
    ensures inv(Rounds(step, l, k, n))
    decreases n
  {
    if n != 0 && Continues(l) { RoundsKeep(inv, step, step(l, k), k + 1, n - 1); }
  }

  lemma {:induction false} RoundsExtend(step: (Loop, nat) -> Loop, l: Loop, k: nat, n: nat)
    ensures Rounds(step, l, k, n + 1) ==
            var x := Rounds(step, l, k, n); if Continues(x) then step(x, k + n) else x
    decreases n
  {
    if Continues(l) && n > 0 { RoundsExtend(step, step(l, k), k + 1, n - 1); }
  }

  // ----- Which error is reported -----

  /** The error that the attempt of a round reports, if there is an attempt and it does. */
  function Reported(l: Loop, e: RoundEnv): Option<string> {
    if !Continues(l) then None
    else match AttemptRun(l.run, l.selected.value, e.attempt)
      case Ran(_, error) => error
      case _ => None
  }

  function ReportedAt(start: Loop, policy: ExecutionPolicy, env: nat -> RoundEnv, i: nat): Option<string> {
    Reported(LoopAfter(start, policy, env, i), env(i))
  }

  /** The reported error is the one of the earliest attempt that reported any; under fail-fast the loop stops with
      it. */
  ghost predicate TellsFirstError(start: Loop, policy: ExecutionPolicy, env: nat -> RoundEnv, n: nat, l: Loop) {
    && (l.firstError.None? <==> forall i: nat :: i < n ==> ReportedAt(start, policy, env, i).None?)
    && (l.firstError.Some? ==> exists i: nat :: i < n && ReportedAt(start, policy, env, i) == l.firstError
                                 && forall j: nat :: j < i ==> ReportedAt(start, policy, env, j).None?)
    && (l.end.StoppedFast? ==> policy == FailFast && l.firstError == Some(l.end.error))
    && (policy == FailFast && l.end == Open ==> l.firstError.None?)
  }

  lemma ErrorStep(l: Loop, policy: ExecutionPolicy, e: RoundEnv)
    requires Continues(l)
    ensures var next := NextLoop(l, policy, e);
            && next.firstError == (if l.firstError.Some? then l.firstError else Reported(l, e))
            && (next.end.StoppedFast? ==> policy == FailFast && Reported(l, e) == Some(next.end.error))
            && (next.end == Open && policy == FailFast ==> Reported(l, e).None?)
  {
    hide AttemptRun, PersistPlan, PlanStep;
  }

  lemma {:induction false} FirstErrorIsTold(start: Loop, policy: ExecutionPolicy, env: nat -> RoundEnv, n: nat)
    requires start.firstError.None? && start.end == Open
    ensures TellsFirstError(start, policy, env, n, LoopAfter(start, policy, env, n))
  {
    hide NextLoop, Reported;
    if n > 0 {
      var before := LoopAfter(start, policy, env, n - 1);
      FirstErrorIsTold(start, policy, env, n - 1);
      RoundsExtend(Stepper(policy, env), start, 0, n - 1);
      if Continues(before) { ErrorStep(before, policy, env(n - 1)); } else { NothingReported(before, env(n - 1)); }
      assert ReportedAt(start, policy, env, n - 1) == Reported(before, env(n - 1));
    }
  }

  lemma NothingReported(l: Loop, e: RoundEnv)
    requires !Continues(l)
    ensures Reported(l, e).None?
  {
  }

  // ----- The loop in place -----

  method PlanAndPersist(run: WorkerMap, foreign: seq<AbortWrite>) returns (planned: Option<WorkerMap>, step: Step)
    ensures planned == PersistPlan(run, foreign) && step == PlanStep(run)
  {
    step := PlanDependencyOrderedSerialStep(run);
    planned := ApplyBatch(Interfere(run, foreign), step.transitions);
  }

  method RunRound(l: Loop, policy: ExecutionPolicy, e: RoundEnv) returns (next: Loop)
    requires Continues(l)
    ensures next == NextLoop(l, policy, e)
  {
    var run, id := l.run, l.selected.value;
    var attempts := l.attempts + [id];
    var outcome := Execute(run, id, e.attempt);
    match outcome {
      case Illegal(ws) =>
        next := l.(attempts := attempts, run := ws, end := IllegalWrite);
      case ProvisionFailed(ws, reason) =>
        next := l.(attempts := attempts, run := ws, end := CreationFailed(reason));
      case Ran(ws, error) =>
        var firstError := if l.firstError.Some? then l.firstError else error;
        var planned, step := PlanAndPersist(ws, e.planAborts);
        if planned.None? {
          next := l.(attempts := attempts, run := ws, firstError := firstError, end := IllegalWrite);
        } else if error.Some? && policy == FailFast {
          next := Loop(ws, planned.value, l.selected, attempts, firstError, StoppedFast(error.value));
        } else {
          next := Loop(ws, planned.value, step.selected, attempts, firstError, Open);
        }
    }
  }

  /** Observed after at most horizon rounds, since a run need not end. It tells the error of the earliest attempt that
      reported one. */
  method ExecuteSerialWorkers(start: Loop, policy: ExecutionPolicy, env: nat -> RoundEnv, horizon: nat)
      returns (l: Loop)
    ensures l == LoopAfter(start, policy, env, horizon)
    ensures start.firstError.None? && start.end == Open ==> TellsFirstError(start, policy, env, horizon, l)
  {
    hide NextLoop, TellsFirstError;
    if start.firstError.None? && start.end == Open { FirstErrorIsTold(start, policy, env, horizon); }
    l := start;
    var k := 0;
    ghost var step := Stepper(policy, env);
    while k < horizon && Continues(l)
      invariant 0 <= k <= horizon
      invariant Rounds(step, l, k, horizon - k) == Rounds(step, start, 0, horizon)
      decreases horizon - k
    {
      ghost var before := l;
      l := RunRound(l, policy, env(k));
      assert l == step(before, k);
      k := k + 1;
    }
  }

  // ----- What planning writes -----

  /** A written worker: blocked by the plan, or with aborts recorded on it. */
  predicate Written(blocked: bool, a: Worker, b: Worker) {
    && SameConfig(a, b)
    && (a.AcceptedAbort() ==> b.AcceptedAbort())
    && if blocked then a.CanBlock() && AtOrAborted(b, BlockedDependency) else Overlay(a, b)
  }

  ghost predicate WrittenAll(basis: WorkerMap, blocked: set<WorkerId>, run: WorkerMap) {
    run.Keys == basis.Keys && forall id :: id in basis ==> Written(id in blocked, basis[id], run[id])
  }

  lemma BlockOverlaid(a: Worker, b: Worker, id: WorkerId, blockers: seq<Blocker>)
    requires a.CanBlock() && Overlay(a, b)
    ensures var t := Transition(id, DependencyBlocked(blockers), None);
            Apply(b, t).Applied? && Written(true, a, Offer(b, t))
  {
    TransitionKeepsConfig(b, Transition(id, DependencyBlocked(blockers), None));
  }

  lemma BlockedWritten(basis: WorkerMap, blockers: BlockerMap, s: WorkerMap, id: WorkerId)
    requires id in basis && id in s && Overlay(basis[id], s[id])
    requires id in blockers ==> Blockable(basis, id)
    ensures id in blockers ==> !Raises(s, BlockTransition(blockers), id)
    ensures Written(id in blockers, basis[id], AfterBlocking(s, blockers)[id])
  {
    if id in blockers { BlockOverlaid(basis[id], s[id], id, ListOf(blockers, id)); }
  }

  lemma PlanOnOverlay(basis: WorkerMap, blockers: BlockerMap, s: WorkerMap)
    requires forall id :: id in blockers ==> Blockable(basis, id)
    requires s.Keys == basis.Keys && forall id :: id in basis ==> Overlay(basis[id], s[id])
    ensures ApplyBatch(s, BatchOf(BlockTransition(blockers), SortedIds(blockers.Keys))) ==
            Some(AfterBlocking(s, blockers))
    ensures WrittenAll(basis, blockers.Keys, AfterBlocking(s, blockers))
  {
    hide Overlay, Written, Raises, AfterBlocking, Blockable, ApplyBatch, BatchOf;
    AfterBlockingKeys(s, blockers);
    forall id | id in basis
      ensures id in blockers ==> !Raises(s, BlockTransition(blockers), id)
      ensures Written(id in blockers, basis[id], AfterBlocking(s, blockers)[id])
    {
      BlockedWritten(basis, blockers, s, id);
    }
    forall id | id in blockers ensures id in s && !Raises(s, BlockTransition(blockers), id) {
      assert Blockable(basis, id);
      BlockableIsWorker(basis, id);
    }
    BlockBatch(s, blockers);
  }

  lemma BlockableIsWorker(basis: WorkerMap, id: WorkerId)
    requires Blockable(basis, id)
    ensures id in basis
  {
  }

  lemma AfterBlockingKeys(s: WorkerMap, blockers: BlockerMap)
    ensures AfterBlocking(s, blockers).Keys == s.Keys
  {
  }

  lemma BlockBatch(s: WorkerMap, blockers: BlockerMap)
    requires forall id :: id in blockers ==> id in s && !Raises(s, BlockTransition(blockers), id)
    ensures ApplyBatch(s, BatchOf(BlockTransition(blockers), SortedIds(blockers.Keys))) ==
            Some(AfterBlocking(s, blockers))
  {
    hide Raises, ApplyBatch, BatchOf, Offered;
    AscendingDistinct(SortedIds(blockers.Keys));
    BatchIsAllOrNothing(s, BlockTransition(blockers), SortedIds(blockers.Keys));
  }

  /** Persisting a plan is legal even on a run that gained aborts since it was planned. */
  lemma PlanWriteIsLegal(basis: WorkerMap, foreign: seq<AbortWrite>)
    ensures PersistPlan(basis, foreign).Some?
    ensures WrittenAll(basis, Analyze(basis).blockers.Keys, PersistPlan(basis, foreign).value)
  {
    hide Analyze, Overlay, WrittenAll, ApplyBatch, BatchOf, AfterBlocking, Blockable;
    forall id | id in Analyze(basis).blockers ensures Blockable(basis, id) { BlockedWorkersHaveBlockers(basis, id); }
    forall id | id in basis ensures Overlay(basis[id], Interfere(basis, foreign)[id]) {
      AbortsOverlay(id, basis[id], foreign);
    }
    PlanOnOverlay(basis, Analyze(basis).blockers, Interfere(basis, foreign));
  }

  // ----- The invariant of the loop -----

  ghost predicate LoopOk(l: Loop) {
    && l.end != IllegalWrite
    && (l.end == Open || l.end.StoppedFast? ==> WrittenAll(l.basis, Analyze(l.basis).blockers.Keys, l.run))
    && (l.end == Open ==> l.selected == PlanStep(l.basis).selected)
  }

  lemma StartLoopOk(run: WorkerMap, foreign: seq<AbortWrite>)
    ensures LoopOk(StartLoop(run, foreign)) && StartLoop(run, foreign).end == Open
  {
    PlanWriteIsLegal(run, foreign);
  }

  lemma SelectedInRun(l: Loop)
    requires LoopOk(l) && Continues(l)
    ensures var id := l.selected.value;
            && id in l.run && id in l.basis && l.run.Keys == l.basis.Keys
            && l.basis[id].CanExecute() && DependenciesDone(l.basis, id)
            && Overlay(l.basis[id], l.run[id]) && Startable(l.run[id])
  {
    SelectedIsReady(l.basis);
    OverlayStartable(l.basis, Analyze(l.basis).blockers.Keys, l.run, l.selected.value);
  }

  lemma OverlayStartable(basis: WorkerMap, blocked: set<WorkerId>, run: WorkerMap, id: WorkerId)
    requires WrittenAll(basis, blocked, run) && IsReady(basis, blocked, id)
    ensures id in run && Overlay(basis[id], run[id]) && Startable(run[id])
  {
    assert Written(id in blocked, basis[id], run[id]);
  }

  /** What one round amounts to; event is how the attempt ended and ws the run its last write returned. */
  ghost predicate RoundEffect(l: Loop, policy: ExecutionPolicy, event: PromptEvent, ws: WorkerMap, next: Loop) {
    && Continues(l) && l.selected.value in ws
    && var id := l.selected.value;
    && next.attempts == l.attempts + [id]
    && Elsewhere(l.run, id, ws)
    && if next.end.CreationFailed? then
         next.run == ws && next.basis == l.basis && Overlay(l.run[id], ws[id])
       else
         && Finished(l.run[id], ws[id], event)
         && next.basis == ws
         && WrittenAll(ws, Analyze(ws).blockers.Keys, next.run)
         && (next.end == Open ==> next.selected == PlanStep(ws).selected)
         && (next.end == Open && policy == FailFast ==>
               Classify(event).AttemptReturned? || Classify(event).category != TimeoutFailure)
         && (next.end == Open || (next.end.StoppedFast? && policy == FailFast))
  }

  lemma ReplanEffect(tried: Loop, ws: WorkerMap, error: Option<string>, policy: ExecutionPolicy,
                     foreign: seq<AbortWrite>)
    ensures var next := Replan(tried, ws, error, policy, foreign);
            && next.attempts == tried.attempts && next.basis == ws
            && WrittenAll(ws, Analyze(ws).blockers.Keys, next.run)
            && (next.end == Open ==> next.selected == PlanStep(ws).selected && (policy == FailFast ==> error.None?))
            && (next.end == Open || (next.end.StoppedFast? && policy == FailFast))
  {
    hide WrittenAll, Analyze;
    PlanWriteIsLegal(ws, foreign);
  }

  lemma RanError(workers: WorkerMap, id: WorkerId, e: Env)
    requires id in workers && AttemptRun(workers, id, e).Ran? && AttemptRun(workers, id, e).error.None?
    ensures Classify(e.event).AttemptReturned? || Classify(e.event).category != TimeoutFailure
  {
  }

  lemma RoundHasEffect(l: Loop, policy: ExecutionPolicy, e: RoundEnv)
    requires LoopOk(l) && Continues(l)
    ensures RoundEffect(l, policy, e.attempt.event, AttemptRun(l.run, l.selected.value, e.attempt).workers,
                        NextLoop(l, policy, e))
  {
    hide AttemptRun, Replan, Elsewhere, Finished, WrittenAll, Analyze, PlanStep, Overlay, Startable;
    var id := l.selected.value;
    SelectedInRun(l);
    AttemptNeverIllegal(l.run, id, e.attempt);
    var r := AttemptRun(l.run, id, e.attempt);
    if r.Ran? {
      ReplanEffect(l.(attempts := l.attempts + [id]), r.workers, r.error, policy, e.planAborts);
      if r.error.None? { RanError(l.run, id, e.attempt); }
    }
  }
}
