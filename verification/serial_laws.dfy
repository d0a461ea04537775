/** What every execution of the serial loop guarantees: legality, dependency safety, completion and its bound. */
module SerialLaws {
  import opened Common
  import opened Lifecycle
  import opened Workers
  import opened DependencyAnalysis
  import opened BlockerLaws
  import opened Planner
  import opened Execution
  import opened SerialLoop

  // ----- Legality -----

  lemma EffectKeepsOk(l: Loop, policy: ExecutionPolicy, event: PromptEvent, ws: WorkerMap, next: Loop)
    requires RoundEffect(l, policy, event, ws, next)
    ensures LoopOk(next)
  {
    hide WrittenAll, Elsewhere, Finished, Analyze, PlanStep, Overlay;
  }

  lemma RoundKeepsOk(l: Loop, policy: ExecutionPolicy, env: nat -> RoundEnv, i: nat)
    requires LoopOk(l) && Continues(l)
    ensures LoopOk(Stepper(policy, env)(l, i))
  {
    hide NextLoop, LoopOk, RoundEffect;
    RoundHasEffect(l, policy, env(i));
    EffectKeepsOk(l, policy, env(i).attempt.event, AttemptRun(l.run, l.selected.value, env(i).attempt).workers,
                  NextLoop(l, policy, env(i)));
  }

  lemma OkLoopStaysOk(l: Loop, policy: ExecutionPolicy, env: nat -> RoundEnv, n: nat)
    requires LoopOk(l)
    ensures LoopOk(LoopAfter(l, policy, env, n))
  {
    hide NextLoop, Continues, WrittenAll, Analyze, PlanStep;
    forall x: Loop, i: nat | LoopOk(x) && Continues(x) ensures LoopOk(Stepper(policy, env)(x, i)) {
      RoundKeepsOk(x, policy, env, i);
    }
    RoundsKeep(LoopOk, Stepper(policy, env), l, 0, n);
  }

  /** Neither the executor nor the planner issues an illegal transition, for any outcomes and interleaved aborts. */
  lemma LoopNeverIllegal(run: WorkerMap, foreign: seq<AbortWrite>, policy: ExecutionPolicy, env: nat -> RoundEnv,
                         n: nat)
    ensures LoopOk(LoopAfter(StartLoop(run, foreign), policy, env, n))
    ensures LoopAfter(StartLoop(run, foreign), policy, env, n).end != IllegalWrite
  {
    hide LoopAfter, StartLoop, WrittenAll, Analyze, PlanStep;
    StartLoopOk(run, foreign);
    OkLoopStaysOk(StartLoop(run, foreign), policy, env, n);
  }

  /** A run that stopped fast was replanned and persisted first: whoever waits for a failed, blocked, aborted, timed out
      or missing worker records it, or was aborted. */
  lemma FailFastRecordsBlockers(run: WorkerMap, foreign: seq<AbortWrite>, policy: ExecutionPolicy, env: nat -> RoundEnv,
                                n: nat, id: WorkerId)
    ensures var l := LoopAfter(StartLoop(run, foreign), policy, env, n);
            l.end.StoppedFast? && Blockable(l.basis, id) && WaitsForFailed(l.basis, id) ==>
              id in l.run && AtOrAborted(l.run[id], BlockedDependency)
  {
    hide LoopAfter, StartLoop, WrittenAll, Analyze, PlanStep, WaitsForFailed, WaitsForNonRunnable;
    StartLoopOk(run, foreign);
    OkLoopStaysOk(StartLoop(run, foreign), policy, env, n);
    var l := LoopAfter(StartLoop(run, foreign), policy, env, n);
    if l.end.StoppedFast? && Blockable(l.basis, id) && WaitsForFailed(l.basis, id) {
      BlockedIff(l.basis, id);
      BlockedIsWritten(l.basis, Analyze(l.basis).blockers.Keys, l.run, id);
    }
  }

  lemma BlockedIsWritten(basis: WorkerMap, blocked: set<WorkerId>, run: WorkerMap, id: WorkerId)
    requires WrittenAll(basis, blocked, run) && id in basis && id in blocked
    ensures id in run && AtOrAborted(run[id], BlockedDependency)
  {
    assert Written(id in blocked, basis[id], run[id]);
  }

  // ----- How a run may change from one write to the next -----

  /** Nothing becomes done or executable, done workers stay done, and nobody starts to wait. */
  predicate Settling(a: Worker, b: Worker) {
    && SameConfig(a, b)
    && (b.Status() == Done <==> a.Status() == Done)
    && (Executable(b.lifecycle) ==>
          Executable(a.lifecycle) && b.retryCount == a.retryCount && b.lifecycle == a.lifecycle)
    && (b.lifecycle == ActiveWait ==> a.lifecycle == ActiveWait)
    && (RunnableStatus(b.Status()) ==> b.lifecycle == a.lifecycle)
  }

  lemma OverlaySettles(a: Worker, b: Worker)
    requires Overlay(a, b)
    ensures Settling(a, b)
  {
  }

  lemma WrittenSettles(blocked: bool, a: Worker, b: Worker)
    requires Written(blocked, a, b)
    ensures Settling(a, b)
    ensures blocked ==> !RunnableStatus(b.Status()) && !Executable(b.lifecycle)
  {
    if !blocked { OverlaySettles(a, b); }
  }

  lemma FinishedEnds(a: Worker, b: Worker, event: PromptEvent)
    requires Finished(a, b, event)
    ensures SameConfig(a, b) && b.lifecycle != ActiveWait && b.lifecycle != Queued
    ensures Executable(b.lifecycle) ==>
              Executable(EndState(a, Classify(event))) && b.lifecycle == EndState(a, Classify(event))
  {
  }

  /** The ids that changed other than by settling: at most the attempted one. */
  ghost predicate SettlesElsewhere(before: WorkerMap, id: WorkerId, after: WorkerMap) {
    after.Keys == before.Keys && forall x :: x in before && x != id ==> Settling(before[x], after[x])
  }

  lemma ElsewhereSettles(before: WorkerMap, id: WorkerId, after: WorkerMap)
    requires Elsewhere(before, id, after)
    ensures SettlesElsewhere(before, id, after)
  {
    hide Overlay, Settling;
    forall x | x in before && x != id ensures Settling(before[x], after[x]) { OverlaySettles(before[x], after[x]); }
  }

  lemma WrittenAllSettles(basis: WorkerMap, blocked: set<WorkerId>, run: WorkerMap)
    requires WrittenAll(basis, blocked, run)
    ensures run.Keys == basis.Keys
    ensures forall x :: x in basis ==>
              && Settling(basis[x], run[x])
              && (x in blocked ==> !RunnableStatus(run[x].Status()) && !Executable(run[x].lifecycle))
  {
    hide Written, Settling;
    forall x | x in basis
      ensures Settling(basis[x], run[x])
      ensures x in blocked ==> !RunnableStatus(run[x].Status()) && !Executable(run[x].lifecycle)
    {
      WrittenSettles(x in blocked, basis[x], run[x]);
    }
  }

  // ----- Completion -----

  /** No prompted worker is waiting for an answer. */
  ghost predicate NobodyWaits(workers: WorkerMap) {
    forall id :: id in workers && workers[id].HasPrompt() ==> workers[id].lifecycle != ActiveWait
  }

  ghost predicate QuietLoop(l: Loop) {
    LoopOk(l) && (l.end == Open ==> NobodyWaits(l.basis))
  }

  lemma RoundKeepsQuiet(l: Loop, policy: ExecutionPolicy, event: PromptEvent, ws: WorkerMap, next: Loop)
    requires QuietLoop(l) && l.end == Open && RoundEffect(l, policy, event, ws, next)
    ensures QuietLoop(next)
  {
    hide Analyze, PlanStep, Elsewhere, WrittenAll, Overlay, Finished;
    EffectKeepsOk(l, policy, event, ws, next);
    if next.end == Open {
      var id := l.selected.value;
      WrittenAllSettles(l.basis, Analyze(l.basis).blockers.Keys, l.run);
      ElsewhereSettles(l.run, id, ws);
      FinishedEnds(l.run[id], ws[id], event);
    }
  }

  /** The persisted run has no prompted worker left to queue, wait or retry. */
  ghost predicate NoneLeft(run: WorkerMap) {
    forall id :: id in run && run[id].HasPrompt() ==> run[id].lifecycle !in {Queued, ActiveWait, ActiveRetry}
  }

  lemma NothingSelectedMeansNoneLeft(l: Loop)
    requires QuietLoop(l) && l.end == Open && l.selected.None?
    ensures NoneLeft(l.run)
  {
    hide Analyze, WrittenAll;
    NothingSelectedMeansNothingReady(l.basis);
    NoSilentStarvation(l.basis);
    WrittenAllSettles(l.basis, Analyze(l.basis).blockers.Keys, l.run);
    forall id | id in l.run && l.run[id].HasPrompt() ensures l.run[id].lifecycle !in {Queued, ActiveWait, ActiveRetry} {
      assert Settling(l.basis[id], l.run[id]);
      assert Blockable(l.basis, id) ==> id in Analyze(l.basis).blockers;
    }
  }

  lemma NothingSelectedMeansNothingReady(workers: WorkerMap)
    requires PlanStep(workers).selected.None?
    ensures Analyze(workers).ready == []
  {
    hide Analyze;
  }

  lemma RoundStepQuiet(l: Loop, policy: ExecutionPolicy, env: nat -> RoundEnv, i: nat)
    requires QuietLoop(l) && Continues(l)
    ensures QuietLoop(Stepper(policy, env)(l, i))
  {
    hide NextLoop, QuietLoop, LoopOk, RoundEffect;
    QuietIsOk(l);
    RoundHasEffect(l, policy, env(i));
    RoundKeepsQuiet(l, policy, env(i).attempt.event, AttemptRun(l.run, l.selected.value, env(i).attempt).workers,
                    NextLoop(l, policy, env(i)));
  }

  lemma QuietIsOk(l: Loop)
    requires QuietLoop(l)
    ensures LoopOk(l)
  {
  }

  lemma StartIsQuiet(run: WorkerMap, foreign: seq<AbortWrite>)
    requires NobodyWaits(run)
    ensures QuietLoop(StartLoop(run, foreign))
  {
    hide NobodyWaits, LoopOk, PersistPlan, PlanStep;
    StartLoopOk(run, foreign);
  }

  lemma QuietLoopStaysQuiet(l: Loop, policy: ExecutionPolicy, env: nat -> RoundEnv, n: nat)
    requires QuietLoop(l)
    ensures QuietLoop(LoopAfter(l, policy, env, n))
  {
    hide NextLoop, Continues, QuietLoop;
    forall x: Loop, i: nat | QuietLoop(x) && Continues(x) ensures QuietLoop(Stepper(policy, env)(x, i)) {
      RoundStepQuiet(x, policy, env, i);
    }
    RoundsKeep(QuietLoop, Stepper(policy, env), l, 0, n);
  }

  /** When the loop ends because nothing is selected, no prompted worker is left queued, waiting or to be retried. */
  lemma RunCompletes(run: WorkerMap, foreign: seq<AbortWrite>, policy: ExecutionPolicy, env: nat -> RoundEnv, n: nat)
    requires NobodyWaits(run)
    ensures var l := LoopAfter(StartLoop(run, foreign), policy, env, n);
            l.end == Open && l.selected.None? ==> NoneLeft(l.run)
  {
    hide LoopAfter, StartLoop, QuietLoop, NoneLeft, NobodyWaits;
    StartIsQuiet(run, foreign);
    QuietLoopStaysQuiet(StartLoop(run, foreign), policy, env, n);
    var l := LoopAfter(StartLoop(run, foreign), policy, env, n);
    if l.end == Open && l.selected.None? { NothingSelectedMeansNoneLeft(l); }
  }

  // ----- Dependency safety -----

  /** Every worker attempted so far has all dependencies done, and none of them was attempted after it. */
  ghost predicate Safe(l: Loop) {
    && LoopOk(l)
    && (forall a :: a in l.attempts ==> DependenciesDone(l.run, a))
    && (forall i, j :: 0 <= i < j < |l.attempts| ==> l.attempts[j] !in Dependencies(l.run, l.attempts[i]))
  }

  ghost predicate DoneStays(before: WorkerMap, after: WorkerMap) {
    && (forall x :: IsDone(before, x) ==> IsDone(after, x))
    && (forall x :: Dependencies(after, x) == Dependencies(before, x))
  }

  lemma DoneStaysElsewhere(before: WorkerMap, id: WorkerId, after: WorkerMap)
    requires SettlesElsewhere(before, id, after) && id in before
    requires !IsDone(before, id) && SameConfig(before[id], after[id])
    ensures DoneStays(before, after)
  {
  }

  lemma DoneStaysWritten(basis: WorkerMap, blocked: set<WorkerId>, run: WorkerMap)
    requires WrittenAll(basis, blocked, run)
    ensures DoneStays(basis, run)
  {
    hide WrittenAll;
    WrittenAllSettles(basis, blocked, run);
  }

  lemma SelectedNotDone(l: Loop)
    requires LoopOk(l) && Continues(l)
    ensures var id := l.selected.value; !IsDone(l.run, id) && DependenciesDone(l.run, id)
  {
    hide Analyze, PlanStep, WrittenAll, LoopOk;
    SelectedInRun(l);
    var id := l.selected.value;
    OverlaySettles(l.basis[id], l.run[id]);
    LoopWritten(l);
    DoneStaysWritten(l.basis, Analyze(l.basis).blockers.Keys, l.run);
  }

  lemma LoopWritten(l: Loop)
    requires LoopOk(l) && Continues(l)
    ensures WrittenAll(l.basis, Analyze(l.basis).blockers.Keys, l.run)
  {
  }

  lemma RoundDoneStays(l: Loop, policy: ExecutionPolicy, event: PromptEvent, ws: WorkerMap, next: Loop)
    requires LoopOk(l) && RoundEffect(l, policy, event, ws, next)
    ensures DoneStays(l.run, next.run)
  {
    hide Analyze, PlanStep, WrittenAll, Elsewhere, Overlay, Finished, IsDone, DependenciesDone, LoopOk,
         SettlesElsewhere;
    var id := l.selected.value;
    SelectedNotDone(l);
    ElsewhereSettles(l.run, id, ws);
    if next.end.CreationFailed? { OverlaySettles(l.run[id], ws[id]); } else { FinishedEnds(l.run[id], ws[id], event); }
    ElsewhereKeys(l.run, id, ws);
    DoneStaysElsewhere(l.run, id, ws);
    if !next.end.CreationFailed? {
      DoneStaysWritten(ws, Analyze(ws).blockers.Keys, next.run);
    }
  }

  lemma ElsewhereKeys(before: WorkerMap, id: WorkerId, after: WorkerMap)
    requires Elsewhere(before, id, after)
    ensures before.Keys == after.Keys
  {
  }

  lemma RoundKeepsSafe(l: Loop, policy: ExecutionPolicy, event: PromptEvent, ws: WorkerMap, next: Loop)
    requires Safe(l) && RoundEffect(l, policy, event, ws, next)
    ensures Safe(next)
  {
    hide LoopOk, IsDone, Analyze, PlanStep, WrittenAll, Elsewhere, Overlay, Finished;
    EffectKeepsOk(l, policy, event, ws, next);
    RoundDoneStays(l, policy, event, ws, next);
    SelectedNotDone(l);
    var id := l.selected.value;
    forall a | a in next.attempts ensures DependenciesDone(next.run, a) {
      assert DependenciesDone(l.run, a);
    }
    forall i, j | 0 <= i < j < |next.attempts|
      ensures next.attempts[j] !in Dependencies(next.run, next.attempts[i])
    {
      assert next.attempts[i] == l.attempts[i];
      if j == |l.attempts| { assert DependenciesDone(l.run, l.attempts[i]); }
    }
  }

  lemma RoundStepSafe(l: Loop, policy: ExecutionPolicy, env: nat -> RoundEnv, i: nat)
    requires Safe(l) && Continues(l)
    ensures Safe(Stepper(policy, env)(l, i))
  {
    hide NextLoop, Safe, LoopOk, RoundEffect;
    SafeIsOk(l);
    RoundHasEffect(l, policy, env(i));
    RoundKeepsSafe(l, policy, env(i).attempt.event, AttemptRun(l.run, l.selected.value, env(i).attempt).workers,
                   NextLoop(l, policy, env(i)));
  }

  lemma SafeIsOk(l: Loop)
    requires Safe(l)
    ensures LoopOk(l)
  {
  }

  lemma StartIsSafe(run: WorkerMap, foreign: seq<AbortWrite>)
    ensures Safe(StartLoop(run, foreign))
  {
    hide LoopOk, PersistPlan, PlanStep;
    StartLoopOk(run, foreign);
  }

  /** Whatever was attempted had, and at every later moment still has, all dependencies done; no dependency is ever
      attempted after its dependent. */
  lemma DependenciesPrecede(run: WorkerMap, foreign: seq<AbortWrite>, policy: ExecutionPolicy, env: nat -> RoundEnv,
                            n: nat)
    ensures Safe(LoopAfter(StartLoop(run, foreign), policy, env, n))
  {
    hide NextLoop, Continues, StartLoop, Safe;
    StartIsSafe(run, foreign);
    forall x: Loop, i: nat | Safe(x) && Continues(x) ensures Safe(Stepper(policy, env)(x, i)) {
      RoundStepSafe(x, policy, env, i);
    }
    RoundsKeep(Safe, Stepper(policy, env), StartLoop(run, foreign), 0, n);
  }
}
