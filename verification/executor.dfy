/** The executor in place, and what one attempt leaves in its worker's record and attempt log. */
module Executor {
  import opened Common
  import opened Workers
  import opened LifecycleLaws
  import opened DependencyAnalysis
  import opened Planner
  import opened Execution
  import opened AttemptLaws

  /** A write raises exactly for an illegal transition; else it changes its worker as offered and others by aborts. */
  lemma WriteChanges(workers: WorkerMap, foreign: seq<AbortWrite>, t: Transition)
    requires t.workerId in workers
    ensures var w := AbortsOn(t.workerId, workers[t.workerId], foreign); var next := Write(workers, foreign, t);
            && (next.Some? <==> Legal(w, t) || t.payload.SnapshotApplied?)
            && (next.Some? ==> Elsewhere(workers, t.workerId, next.value) && next.value[t.workerId] == Offer(w, t))
  {
    hide Legal, Overlay, AbortsOn, Reduce, Write;
    WriteAt(workers, foreign, t);
    SelfElsewhere(workers, t.workerId);
    InterfereElsewhere(workers, t.workerId, workers, foreign);
  }

  /** Holds the run that the last write returned and replaces it with every write. */
  class PersistenceBoundary {
    var run: WorkerMap

    constructor (run: WorkerMap)
      ensures this.run == run
    {
      this.run := run;
    }

    /** Persists one transition on the latest stored run; nothing is replaced when the transition is illegal. */
    method ApplyWorkerTransition(t: Transition, foreign: seq<AbortWrite>) returns (ok: bool)
      modifies this
      ensures ok <==> Write(old(run), foreign, t).Some?
      ensures run == if ok then Write(old(run), foreign, t).value else old(run)
      ensures t.workerId in old(run) ==>
                var w := AbortsOn(t.workerId, old(run)[t.workerId], foreign);
                && (ok <==> Legal(w, t) || t.payload.SnapshotApplied?)
                && (ok ==> Elsewhere(old(run), t.workerId, run) && run[t.workerId] == Offer(w, t))
    {
      hide Legal, Offer, Elsewhere, Interfere, ApplyBatch;
      if t.workerId in run { WriteChanges(run, foreign, t); }
      var persisted := Write(run, foreign, t);
      ok := persisted.Some?;
      if ok { run := persisted.value; }
    }
  }

  /** No write of the attempt is illegal, the others at most gain aborts, and the attempt ends as its event says, unless
      creating the session fails: then the worker, too, at most gains aborts. */
  ghost predicate EndsWell(workers: WorkerMap, id: WorkerId, e: Env, r: Attempted)
    requires id in workers
  {
    && !r.Illegal? && Elsewhere(workers, id, r.workers) && id in r.workers
    && (r.Ran? ==> Finished(workers[id], r.workers[id], e.event)
                   && ErrorTells(workers[id], r.workers[id], e.event, r.error))
    && (r.ProvisionFailed? ==> Overlay(workers[id], r.workers[id]))
  }

  /** The log gains exactly the attempt, finished and recorded; unless it was aborted the worker shows the outcome. */
  ghost predicate LeavesRecord(workers: WorkerMap, id: WorkerId, e: Env, r: Attempted)
    requires id in workers
  {
    r.Ran? ==>
      && id in r.workers
      && (!r.workers[id].AcceptedAbort() ==> OutcomeShown(workers[id], r.workers[id], e))
      && (NumberedLog(workers[id]) ==> LogGains(workers[id], r.workers[id], e, r.error))
  }

  lemma AttemptPromises(workers: WorkerMap, id: WorkerId, e: Env)
    requires id in workers
    ensures Startable(workers[id]) ==> EndsWell(workers, id, e, AttemptRun(workers, id, e))
    ensures LeavesRecord(workers, id, e, AttemptRun(workers, id, e))
  {
    hide Elsewhere, Finished, Overlay, Startable, OutcomeShown, LogGains, NumberedLog, ErrorTells;
    if Startable(workers[id]) { AttemptNeverIllegal(workers, id, e); }
    if AttemptRun(workers, id, e).Ran? {
      OutcomeIsShown(workers, id, e);
      if NumberedLog(workers[id]) { AttemptIsLogged(workers, id, e); }
    }
  }

  method Execute(workers: WorkerMap, id: WorkerId, e: Env) returns (r: Attempted)
    requires id in workers
    ensures r == AttemptRun(workers, id, e)
    ensures Startable(workers[id]) ==> EndsWell(workers, id, e, r)
    ensures LeavesRecord(workers, id, e, r)
  {
    hide EndsWell, LeavesRecord, Elsewhere, Startable, Legal, Offer, Interfere;
    AttemptPromises(workers, id, e);
    var provisioned := Provisioning(workers, id, e);
    if provisioned.None? {
      return ProvisionFailed(Interfere(workers, e.aborts(0)), e.provision.error);
    }
    var boundary := new PersistenceBoundary(provisioned.value);
    var ok := boundary.ApplyWorkerTransition(ProvisionedWrite(id, boundary.run[id]), e.aborts(1));
    if !ok { return Illegal(boundary.run); }
    var created := !workers[id].HasSession();
    ok := boundary.ApplyWorkerTransition(ActiveWrite(id, Latest(boundary.run, id), e.now), e.aborts(2));
    if !ok { return Illegal(boundary.run); }
    var attempt := AttemptOf(Latest(boundary.run, id), e, created);
    ok := boundary.ApplyWorkerTransition(Transition(id, AttemptStarted(attempt), None), e.aborts(3));
    if !ok { return Illegal(boundary.run); }
    var worker := Latest(boundary.run, id);
    var outcome := Classify(e.event);
    var decision := DecideAttempt(worker, outcome, e.now);
    var finalization := FinalizationOf(attempt.id, decision, outcome, e.promptId, e.now);
    ok := boundary.ApplyWorkerTransition(Transition(id, decision.payload, Some(finalization)), e.aborts(4));
    if !ok { return Illegal(boundary.run); }
    r := Ran(boundary.run, decision.error);
  }
}
