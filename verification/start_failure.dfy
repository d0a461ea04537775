/** Marking prompted workers failed after an API error, from the run that the loop was started on. */
module StartFailure {
  import opened Common
  import opened Lifecycle
  import opened Workers
  import opened DependencyAnalysis
  import opened Planner
  import opened Replanning
  import opened Execution
  import opened FieldLaws
  import opened SerialLoop
  import opened EndlessRuns

  function PendingPrompted(workers: WorkerMap): seq<WorkerId> {
    SortedIds(set id | id in workers && workers[id].CanExecute())
  }

  function FailTransition(stale: WorkerMap, error: string): WorkerId -> Transition {
    (id: WorkerId) =>
      var w := Latest(stale, id);
      Transition(id, FailedWith(ApiFailure, error, false, w.RetryAvailable(Some(ApiFailure)), Set(w.timeoutStartedAt),
          []), None)
  }

  /** One batch on the latest run for the workers pending in the stale one; None when it raises. */
  function MarkPromptedFailed(stale: WorkerMap, latest: WorkerMap, foreign: seq<AbortWrite>,
                              error: string): Option<WorkerMap> {
    ApplyBatch(Interfere(latest, foreign), BatchOf(FailTransition(stale, error), PendingPrompted(stale)))
  }

  /** Builds the transitions of the stale run's pending workers and persists them on the latest run: written, each of
      them shows the error or was aborted, and the others are as they were. */
  method MarkPromptedWorkersFailed(stale: WorkerMap, latest: WorkerMap, foreign: seq<AbortWrite>, error: string)
      returns (marked: Option<WorkerMap>)
    ensures marked == MarkPromptedFailed(stale, latest, foreign, error)
    ensures latest.Keys == stale.Keys && marked.Some? ==>
              && marked.value.Keys == latest.Keys
              && forall id :: id in latest ==>
                   if CanRun(stale, id) then MarkedFailed(marked.value[id], error)
                   else marked.value[id] == Interfere(latest, foreign)[id]
  {
    hide MarkedFailed, ApplyBatch, Interfere, FailTransition, PendingPrompted, CanRun, CanFail;
    var pending := PendingPrompted(stale);
    var transitions: seq<Transition> := [];
    for i := 0 to |pending|
      invariant |transitions| == i
      invariant forall j :: 0 <= j < i ==> transitions[j] == FailTransition(stale, error)(pending[j])
    {
      transitions := transitions + [FailTransition(stale, error)(pending[i])];
    }
    assert transitions == BatchOf(FailTransition(stale, error), pending);
    marked := ApplyBatch(Interfere(latest, foreign), transitions);
    if latest.Keys == stale.Keys { MarkPromptedFailedIff(stale, latest, foreign, error); }
  }

  predicate CanFail(w: Worker) {
    IsSource(FailedName, w.lifecycle) || w.AcceptedAbort()
  }

  /** The worker was aborted, or has terminally failed by the error, which is not to be retried. */
  predicate MarkedFailed(w: Worker, error: string) {
    w.AcceptedAbort() ||
    (w.lifecycle == FailedTerminal && ShowsFailure(w, ApiFailure, error) && w.failureRetryable == Some(false))
  }

  lemma FailingIff(w: Worker, id: WorkerId, stale: WorkerMap, error: string)
    ensures Apply(w, FailTransition(stale, error)(id)) != Skipped(false) <==> CanFail(w)
    ensures CanFail(w) ==> MarkedFailed(Offer(w, FailTransition(stale, error)(id)), error)
  {
    hide KnowsPrompts;
    if CanFail(w) { OfferShows(w, FailTransition(stale, error)(id)); }
  }

  /** The batch is legal iff every worker pending in the stale run can still fail in the run it lands on; then each of
      them shows the error as its terminal failure or was aborted, and nobody else changes. */
  lemma MarkPromptedFailedIff(stale: WorkerMap, latest: WorkerMap, foreign: seq<AbortWrite>, error: string)
    requires latest.Keys == stale.Keys
    ensures var s := Interfere(latest, foreign); var marked := MarkPromptedFailed(stale, latest, foreign, error);
            && (marked.Some? <==> forall id :: CanRun(stale, id) ==> CanFail(s[id]))
            && (marked.Some? ==> forall id :: CanRun(stale, id) ==>
                  id in marked.value && MarkedFailed(marked.value[id], error))
            && (marked.Some? ==> marked.value.Keys == latest.Keys
                                 && forall id :: id in latest && !CanRun(stale, id) ==> marked.value[id] == s[id])
  {
    hide CanFail, ApplyBatch, BatchOf, MarkedFailed;
    var s := Interfere(latest, foreign);
    var ids := PendingPrompted(stale);
    var f := FailTransition(stale, error);
    AscendingDistinct(ids);
    forall id ensures id in ids <==> CanRun(stale, id) { }
    forall id | id in ids
      ensures Raises(s, f, id) <==> !CanFail(s[id])
      ensures CanFail(s[id]) ==> MarkedFailed(Offered(s, f, ids)[id], error)
    {
      FailingIff(s[id], id, stale, error);
    }
    forall id | id in ids ensures f(id).workerId == id { }
    BatchIsAllOrNothing(s, f, ids);
  }

  /** Aborts that land before the batch never make it illegal. */
  lemma AbortsDoNotMatter(w: Worker, id: WorkerId, writes: seq<AbortWrite>)
    requires CanFail(w)
    ensures CanFail(AbortsOn(id, w, writes))
  {
    AbortsOverlay(id, w, writes);
  }

  /** When nothing was attempted between the two runs, as after a failed probe or a first creation, marking is legal. */
  lemma FreshMarkingIsLegal(stale: WorkerMap, foreign: seq<AbortWrite>, more: seq<AbortWrite>, error: string)
    ensures MarkPromptedFailed(stale, Interfere(stale, foreign), more, error).Some?
  {
    hide CanFail, MarkPromptedFailed;
    forall id | CanRun(stale, id) ensures CanFail(Interfere(Interfere(stale, foreign), more)[id]) {
      ExecutableCanFail(stale[id]);
      AbortsDoNotMatter(stale[id], id, foreign);
      AbortsDoNotMatter(AbortsOn(id, stale[id], foreign), id, more);
    }
    MarkPromptedFailedIff(stale, Interfere(stale, foreign), more, error);
  }

  lemma ExecutableCanFail(w: Worker)
    requires w.CanExecute()
    ensures CanFail(w)
  {
  }

  /** One pending worker that has reached a final state in the meantime makes marking raise. */
  lemma SettledWorkerMakesMarkingRaise(stale: WorkerMap, latest: WorkerMap, foreign: seq<AbortWrite>, error: string,
                                       id: WorkerId)
    requires latest.Keys == stale.Keys && CanRun(stale, id) && Final(latest[id].lifecycle)
    ensures MarkPromptedFailed(stale, latest, foreign, error).None?
  {
    hide MarkPromptedFailed, MarkedFailed, CanFail, AbortsOn;
    AbortsOverlay(id, latest[id], foreign);
    SettledCannotFail(latest[id], AbortsOn(id, latest[id], foreign));
    MarkPromptedFailedIff(stale, latest, foreign, error);
    assert !CanFail(Interfere(latest, foreign)[id]);
  }

  lemma SettledCannotFail(a: Worker, b: Worker)
    requires Final(a.lifecycle) && Overlay(a, b)
    ensures !CanFail(b)
  {
  }

  // ----- A run that raises -----

  const QUEUED_WORKER := DefaultWorker(0).(prompt := Some("task"))

  /** Two independent queued workers. */
  const TWO_WORKERS: WorkerMap := map[1 := QUEUED_WORKER.(id := 1), 2 := QUEUED_WORKER.(id := 2)]

  const CREATION_DOWN: RoundEnv :=
    RoundEnv(Env((j: nat) => [], CreationFails("connection refused"), ONE_SUCCESS, None, false, 0), [])

  lemma IndependentSelection(workers: WorkerMap, id: WorkerId)
    requires forall x :: x in workers ==> workers[x].dependencies == []
    requires CanRun(workers, id) && forall x :: CanRun(workers, x) ==> id <= x
    ensures PlanStep(workers).selected == Some(id) && AfterPlan(workers) == workers
  {
    hide Analyze, PlanStep, AfterPlan;
    IndependentWorkersUnblocked(workers);
    EmptyPlan(workers);
    SelectedIff(workers, id);
  }

  /** The first worker succeeds, creating the second one's session fails, and the error handling itself raises: the
      first worker, done by now, was still pending in the run that the loop started on. */
  lemma CreationFailureAfterSuccessRaises() returns (first: Loop, failed: Loop)
    ensures first == NextLoop(StartLoop(TWO_WORKERS, []), ContinueOnError, CalmEnv(ONE_SUCCESS))
    ensures failed == NextLoop(first, ContinueOnError, CREATION_DOWN)
    ensures failed.end.CreationFailed? && failed.attempts == [1, 2]
    ensures MarkPromptedFailed(StartLoop(TWO_WORKERS, []).run, failed.run, [], failed.end.reason).None?
  {
    hide StartLoop, NextLoop, Analyze, AfterPlan, PlanStep, Calm, Finished, EndState, MarkPromptedFailed, Final,
         LoopOk;
    CalmStart(TWO_WORKERS);
    var start := StartLoop(TWO_WORKERS, []);
    IndependentSelection(TWO_WORKERS, 1);
    CalmFacts(start);
    var w := CalmRound(start, ONE_SUCCESS);
    SuccessIsDone(start.run[1], w);
    first := NextLoop(start, ContinueOnError, CalmEnv(ONE_SUCCESS));
    IndependentSelection(start.run[1 := w], 2);
    CalmFacts(first);
    CreationDownFails(first, ContinueOnError);
    failed := NextLoop(first, ContinueOnError, CREATION_DOWN);
    DoneIsFinal(w);
    SettledWorkerMakesMarkingRaise(start.run, failed.run, [], failed.end.reason, 1);
  }

  lemma DoneIsFinal(w: Worker)
    requires w.Status() == Done
    ensures Final(w.lifecycle)
  {
  }

  lemma CalmFacts(l: Loop)
    requires Calm(l)
    ensures l.selected == PlanStep(l.basis).selected && l.run == AfterPlan(l.basis) && l.end == Open
  {
    hide PlanStep, AfterPlan, Analyze, WrittenAll;
  }

  lemma CreationDownFails(l: Loop, policy: ExecutionPolicy)
    requires Continues(l) && !l.run[l.selected.value].HasSession()
    ensures NextLoop(l, policy, CREATION_DOWN) ==
            l.(attempts := l.attempts + [l.selected.value], end := CreationFailed("connection refused"))
  {
    InterfereNothing(l.run);
    assert CREATION_DOWN.attempt.aborts(0) == [];
  }
}
