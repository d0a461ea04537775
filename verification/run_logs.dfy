/** The attempt logs of a whole run: every attempt that the serial loop starts is finished when it replans. */
module RunLogs {
  import opened Common
  import opened Workers
  import opened LifecycleLaws
  import opened DependencyAnalysis
  import opened Planner
  import BlockerLaws
  import opened Execution
  import opened FieldLaws
  import opened AttemptLaws
  import opened SerialLoop
  import opened SerialLaws

  /** The log is numbered, and none of its attempts is unfinished. */
  ghost predicate Tidy(w: Worker) {
    NumberedLog(w) && forall i :: 0 <= i < |w.Attempts()| ==> !Unfinished(w.Attempts()[i])
  }

  ghost predicate AllTidy(workers: WorkerMap) {
    forall id :: id in workers ==> Tidy(workers[id])
  }

  lemma SameLogIsTidy(a: Worker, b: Worker)
    requires Tidy(a) && b.Attempts() == a.Attempts()
    ensures Tidy(b)
  {
  }

  lemma AbortsKeepTidy(workers: WorkerMap, foreign: seq<AbortWrite>)
    requires AllTidy(workers)
    ensures AllTidy(Interfere(workers, foreign))
  {
    hide Tidy, AbortsOn;
    forall id | id in workers ensures Tidy(Interfere(workers, foreign)[id]) {
      AbortsKeepLog(id, workers[id], foreign);
      SameLogIsTidy(workers[id], AbortsOn(id, workers[id], foreign));
    }
  }

  /** What the attempt recorded keeps the log tidy. */
  lemma GainIsTidy(a: Worker, b: Worker, e: Env, error: Option<string>)
    requires Tidy(a) && LogGains(a, b, e, error)
    ensures Tidy(b)
  {
    NothingIsLeftUnfinished(a, b, e, error);
    if |b.Attempts()| == |a.Attempts()| + 1 {
      forall i | 0 <= i < |a.Attempts()| ensures b.Attempts()[i] == a.Attempts()[i] { }
    }
  }

  lemma AttemptKeepsTidy(workers: WorkerMap, id: WorkerId, e: Env)
    requires id in workers && Startable(workers[id]) && AllTidy(workers)
    ensures AllTidy(AttemptRun(workers, id, e).workers)
  {
    hide AttemptRun, Startable, Tidy, LogGains, Overlay, Finished, ErrorTells;
    AttemptNeverIllegal(workers, id, e);
    var r := AttemptRun(workers, id, e);
    if r.Ran? {
      TidyIsNumbered(workers[id]);
      AttemptIsLogged(workers, id, e);
      GainIsTidy(workers[id], r.workers[id], e, r.error);
    } else {
      OverlayKeepsTidy(workers[id], r.workers[id]);
    }
    forall x | x in workers && x != id ensures Tidy(r.workers[x]) { OverlayKeepsTidy(workers[x], r.workers[x]); }
  }

  lemma TidyIsNumbered(w: Worker)
    requires Tidy(w)
    ensures NumberedLog(w)
  {
  }

  lemma OverlayKeepsTidy(a: Worker, b: Worker)
    requires Tidy(a) && Overlay(a, b)
    ensures Tidy(b)
  {
    SameLogIsTidy(a, b);
  }

  lemma BlockingKeepsTidy(w: Worker, id: WorkerId, blockers: seq<Blocker>)
    requires Tidy(w)
    ensures Tidy(Offer(w, Transition(id, DependencyBlocked(blockers), None)))
  {
    hide Tidy;
    var t := Transition(id, DependencyBlocked(blockers), None);
    hide Legal, Reduce, Listed;
    if Legal(w, t) {
      OfferShows(w, t);
      UnfinalizedLog(w, t, Offer(w, t));
      assert w.Attempts() + [] == w.Attempts();
    }
    SameLogIsTidy(w, Offer(w, t));
  }

  lemma PlanKeepsTidy(run: WorkerMap, foreign: seq<AbortWrite>)
    requires AllTidy(run)
    ensures PersistPlan(run, foreign).Some? && AllTidy(PersistPlan(run, foreign).value)
  {
    hide Tidy, Analyze, Interfere, ApplyBatch, BatchOf, Offer, Blockable;
    var blockers := Analyze(run).blockers;
    AbortsKeepTidy(run, foreign);
    PlanWritten(run, foreign);
    var s := Interfere(run, foreign);
    forall id | id in s ensures Tidy(AfterBlocking(s, blockers)[id]) {
      BlockingKeepsTidy(s[id], id, ListOf(blockers, id));
    }
  }

  lemma PlanWritten(run: WorkerMap, foreign: seq<AbortWrite>)
    ensures PersistPlan(run, foreign) == Some(AfterBlocking(Interfere(run, foreign), Analyze(run).blockers))
  {
    hide Analyze, Overlay, WrittenAll, ApplyBatch, BatchOf, AfterBlocking, Blockable;
    forall id | id in Analyze(run).blockers ensures Blockable(run, id) {
      BlockerLaws.BlockedWorkersHaveBlockers(run, id);
    }
    forall id | id in run ensures Overlay(run[id], Interfere(run, foreign)[id]) { AbortsOverlay(id, run[id], foreign); }
    PlanOnOverlay(run, Analyze(run).blockers, Interfere(run, foreign));
  }

  ghost predicate TidyLoop(l: Loop) {
    LoopOk(l) && AllTidy(l.run)
  }

  lemma RoundKeepsTidy(l: Loop, policy: ExecutionPolicy, env: nat -> RoundEnv, i: nat)
    requires TidyLoop(l) && Continues(l)
    ensures TidyLoop(Stepper(policy, env)(l, i))
  {
    hide LoopOk, AllTidy, AttemptRun, PersistPlan, PlanStep, Startable;
    RoundKeepsOk(l, policy, env, i);
    SelectedInRun(l);
    AttemptKeepsTidy(l.run, l.selected.value, env(i).attempt);
    var r := AttemptRun(l.run, l.selected.value, env(i).attempt);
    if r.Ran? { PlanKeepsTidy(r.workers, env(i).planAborts); }
  }

  /** In a run whose logs are numbered and finished they stay so at every point at which the loop plans, for all
      outcomes, policies and interleaved aborts. */
  lemma LoopFinishesAttempts(run: WorkerMap, foreign: seq<AbortWrite>, policy: ExecutionPolicy, env: nat -> RoundEnv,
                             n: nat)
    requires AllTidy(run)
    ensures AllTidy(LoopAfter(StartLoop(run, foreign), policy, env, n).run)
  {
    hide NextLoop, Continues, TidyLoop, PersistPlan, PlanStep;
    StartIsTidy(run, foreign);
    forall l: Loop, i: nat | TidyLoop(l) && Continues(l) ensures TidyLoop(Stepper(policy, env)(l, i)) {
      RoundKeepsTidy(l, policy, env, i);
    }
    RoundsKeep((l: Loop) => TidyLoop(l), Stepper(policy, env), StartLoop(run, foreign), 0, n);
    TidyLoopIs(LoopAfter(StartLoop(run, foreign), policy, env, n));
  }

  lemma TidyLoopIs(l: Loop)
    requires TidyLoop(l)
    ensures AllTidy(l.run)
  {
  }

  lemma StartIsTidy(run: WorkerMap, foreign: seq<AbortWrite>)
    requires AllTidy(run)
    ensures TidyLoop(StartLoop(run, foreign))
  {
    hide AllTidy, LoopOk, PersistPlan, PlanStep;
    StartLoopOk(run, foreign);
    PlanKeepsTidy(run, foreign);
  }
}
