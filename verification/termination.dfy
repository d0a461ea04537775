/** How many attempts the serial loop can make, and exactly which attempts do not use up the budget. */
module Termination {
  import opened Common
  import opened Lifecycle
  import opened Workers
  import opened DependencyAnalysis
  import opened Planner
  import opened Execution
  import opened SerialLoop
  import opened SerialLaws

  /** The attempts an executable prompted worker may still take: one, and one more for each retry left. */
  function Weight(w: Worker): nat {
    if !w.CanExecute() then 0
    else 1 + if w.retryCount < w.retryLimit then w.retryLimit - w.retryCount else 0
  }

  function WeightAt(workers: WorkerMap, id: WorkerId): nat {
    if id in workers then Weight(workers[id]) else 0
  }

  function Total(workers: WorkerMap, ids: seq<WorkerId>): nat {
    if ids == [] then 0 else WeightAt(workers, ids[0]) + Total(workers, ids[1..])
  }

  function Measure(workers: WorkerMap): nat {
    Total(workers, SortedIds(workers.Keys))
  }

  lemma {:induction false} TotalFalls(a: WorkerMap, b: WorkerMap, ids: seq<WorkerId>, id: WorkerId)
    requires forall x :: x in ids ==> WeightAt(b, x) <= WeightAt(a, x)
    ensures Total(b, ids) <= Total(a, ids)
    ensures id in ids && WeightAt(b, id) < WeightAt(a, id) ==> Total(b, ids) < Total(a, ids)
  {
    if ids != [] {
      assert ids[0] in ids;
      TotalFalls(a, b, ids[1..], id);
    }
  }

  lemma {:induction false} TotalCounts(workers: WorkerMap, ids: seq<WorkerId>, id: WorkerId)
    requires id in ids
    ensures WeightAt(workers, id) <= Total(workers, ids)
  {
    if id != ids[0] { TotalCounts(workers, ids[1..], id); }
  }

  /** A timeout that leaves the worker executable: its policy keeps it retryable and its budget is not charged. */
  predicate Uncharged(w: Worker) {
    Budget(w, TimeoutFailure) && (w.timeoutPolicy == PolicyTimeout || w.timeoutPolicy == PolicyFailed)
  }

  predicate IsTimeout(event: PromptEvent) {
    Classify(event).AttemptRaised? && Classify(event).category == TimeoutFailure
  }

  /** Every finished attempt lowers its worker's weight, except a timeout that is not charged. */
  lemma FinishedWeight(a: Worker, b: Worker, event: PromptEvent)
    requires a.CanExecute() && Finished(a, b, event)
    ensures if IsTimeout(event) && Uncharged(a)
            && !b.AcceptedAbort() then Weight(b) == Weight(a) else Weight(b) < Weight(a)
  {
  }

  lemma SettlingWeight(a: Worker, b: Worker)
    requires Settling(a, b)
    ensures Weight(b) <= Weight(a)
  {
  }

  predicate ChargesBudget(l: Loop, event: PromptEvent) {
    Continues(l) ==> !(IsTimeout(event) && Uncharged(l.run[l.selected.value]))
  }

  lemma SelectedWeightFalls(a: Worker, r: Worker, b: Worker, event: PromptEvent)
    requires a.CanExecute() && Overlay(a, r) && Finished(r, b, event) && !(IsTimeout(event) && Uncharged(r))
    ensures Weight(b) < Weight(a)
  {
    if r.lifecycle == a.lifecycle { FinishedWeight(r, b, event); }
  }

  lemma RoundLowersMeasure(l: Loop, policy: ExecutionPolicy, event: PromptEvent, ws: WorkerMap, next: Loop)
    requires LoopOk(l) && RoundEffect(l, policy, event, ws, next) && !next.end.CreationFailed?
    requires ChargesBudget(l, event)
    ensures Measure(next.basis) < Measure(l.basis)
  {
    hide Analyze, PlanStep, WrittenAll, Elsewhere, Overlay, Finished, LoopOk, Settling, Uncharged, IsTimeout;
    var id := l.selected.value;
    SelectedInRun(l);
    SelectedWeightFalls(l.basis[id], l.run[id], ws[id], event);
    LoopWritten(l);
    WrittenAllSettles(l.basis, Analyze(l.basis).blockers.Keys, l.run);
    ElsewhereSettles(l.run, id, ws);
    forall x ensures WeightAt(ws, x) <= WeightAt(l.basis, x) {
      if x in ws && x != id {
        SettlingWeight(l.run[x], ws[x]);
        SettlingWeight(l.basis[x], l.run[x]);
      }
    }
    TotalFalls(l.basis, ws, SortedIds(ws.Keys), id);
  }

  lemma SelectedHasWeight(l: Loop)
    requires LoopOk(l) && Continues(l)
    ensures Measure(l.basis) > 0
  {
    hide Analyze, PlanStep, LoopOk;
    SelectedInRun(l);
    TotalCounts(l.basis, SortedIds(l.basis.Keys), l.selected.value);
  }

  /** Attempts made so far and the weight still open never exceed the initial weight. */
  ghost predicate WithinBudget(initial: nat, l: Loop) {
    LoopOk(l) && |l.attempts| + (if l.end == Open then Measure(l.basis) else 0) <= initial
  }

  lemma RoundKeepsBudget(initial: nat, l: Loop, policy: ExecutionPolicy, event: PromptEvent, ws: WorkerMap, next: Loop)
    requires WithinBudget(initial, l) && RoundEffect(l, policy, event, ws, next)
    requires policy == ContinueOnError ==> ChargesBudget(l, event)
    ensures WithinBudget(initial, next)
  {
    hide Analyze, PlanStep, WrittenAll, Elsewhere, Overlay, Finished, LoopOk, Measure;
    EffectKeepsOk(l, policy, event, ws, next);
    SelectedHasWeight(l);
    if next.end == Open { RoundLowersMeasure(l, policy, event, ws, next); }
  }

  lemma StepKeepsBudget(initial: nat, l: Loop, policy: ExecutionPolicy, env: nat -> RoundEnv, i: nat)
    requires WithinBudget(initial, l) && Continues(l)
    requires policy == ContinueOnError ==> ChargesBudget(l, env(i).attempt.event)
    ensures WithinBudget(initial, Stepper(policy, env)(l, i))
    ensures |Stepper(policy, env)(l, i).attempts| == |l.attempts| + 1
  {
    hide NextLoop, LoopOk, WrittenAll, Elsewhere, Finished, Overlay, ChargesBudget, Analyze, PlanStep, Measure;
    RoundHasEffect(l, policy, env(i));
    RoundKeepsBudget(initial, l, policy, env(i).attempt.event,
        AttemptRun(l.run, l.selected.value, env(i).attempt).workers,
                     NextLoop(l, policy, env(i)));
  }

  lemma {:induction false} BudgetAfter(start: Loop, policy: ExecutionPolicy, env: nat -> RoundEnv, n: nat)
    requires LoopOk(start) && start.attempts == [] && start.end == Open
    requires policy == ContinueOnError ==>
               forall i: nat :: i < n ==> ChargesBudget(LoopAfter(start, policy, env, i), env(i).attempt.event)
    ensures WithinBudget(Measure(start.basis), LoopAfter(start, policy, env, n))
    ensures Continues(LoopAfter(start, policy, env, n)) ==> |LoopAfter(start, policy, env, n).attempts| == n
  {
    hide NextLoop, LoopOk, Continues, ChargesBudget, Stepper, Measure;
    if n > 0 {
      BudgetAfter(start, policy, env, n - 1);
      RoundsExtend(Stepper(policy, env), start, 0, n - 1);
      var before := LoopAfter(start, policy, env, n - 1);
      if Continues(before) { StepKeepsBudget(Measure(start.basis), before, policy, env, n - 1); }
    }
  }

  /** Under fail_fast, and under continue while no attempt is an uncharged timeout, the loop makes at most as many
      attempts as the executable prompted workers have weight, and has then stopped. */
  lemma TerminationBound(run: WorkerMap, foreign: seq<AbortWrite>, policy: ExecutionPolicy, env: nat -> RoundEnv,
                         n: nat)
    requires policy == ContinueOnError ==> forall i: nat :: i < n ==>
               ChargesBudget(LoopAfter(StartLoop(run, foreign), policy, env, i), env(i).attempt.event)
    ensures var l := LoopAfter(StartLoop(run, foreign), policy, env, n);
            |l.attempts| <= Measure(run) && (n >= Measure(run) ==> !Continues(l))
  {
    hide NextLoop, Continues, ChargesBudget, LoopOk, Measure, PersistPlan, PlanStep;
    StartLoopOk(run, foreign);
    var start := StartLoop(run, foreign);
    BudgetAfter(start, policy, env, n);
    var l := LoopAfter(start, policy, env, n);
    if Continues(l) { OpenLoopHasWeight(Measure(run), l); }
  }

  lemma OpenLoopHasWeight(initial: nat, l: Loop)
    requires WithinBudget(initial, l) && Continues(l)
    ensures |l.attempts| < initial
  {
    hide LoopOk, Measure;
    SelectedHasWeight(l);
  }
}
