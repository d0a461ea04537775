/** What every sequence of transitions keeps: accepted aborts, final states, table edges and the attempt log. */
module LifecycleLaws {
  import opened Common
  import opened Lifecycle
  import opened Workers

  lemma AcceptedAbortStep(w: Worker, t: Transition)
    requires w.AcceptedAbort()
    ensures Offer(w, t).AcceptedAbort()
  {
  }

  /** Once an abort is accepted no sequence of transitions makes the worker anything but aborted. */
  lemma {:induction false} AcceptedAbortIsAbsorbing(w: Worker, ts: seq<Transition>)
    requires w.AcceptedAbort()
    ensures OfferAll(w, ts).AcceptedAbort()
    decreases |ts|
  {
    hide Offer;
    if ts != [] {
      AcceptedAbortStep(w, ts[0]);
      AcceptedAbortIsAbsorbing(Offer(w, ts[0]), ts[1..]);
    }
  }

  predicate OverridesAbort(p: Payload) {
    p.AbortRecorded? || p.CleanupUpdated? || p.SnapshotApplied?
  }

  /** Results, retries, timeouts and activations offered to an aborted worker reach its prompt ids and log only. */
  lemma {:induction false} AcceptedAbortFreezesWorker(w: Worker, ts: seq<Transition>)
    requires w.AcceptedAbort()
    requires forall t :: t in ts ==> !OverridesAbort(t.payload)
    ensures OfferAll(w, ts).(promptIds := w.promptIds, attemptLog := w.attemptLog) == w
    ensures |OfferAll(w, ts).Attempts()| == |w.Attempts()|
    decreases |ts|
  {
    if ts != [] {
      var next := Offer(w, ts[0]);
      assert ts[0] in ts;
      assert next.(promptIds := w.promptIds, attemptLog := w.attemptLog) == w;
      assert |next.Attempts()| == |w.Attempts()|;
      AcceptedAbortFreezesWorker(next, ts[1..]);
    }
  }

  // ----- Every run follows the table -----

  predicate AllowedMove(a: State, b: State) {
    a == b || b in Successors(a) || (InAbortedStatus(a) && InAbortedStatus(b))
  }

  lemma ReducedLifecycle(w: Worker, t: Transition)
    requires !w.AcceptedAbort()
    ensures var p := t.payload;
            Reduce(w, t).lifecycle ==
            if TargetOf(p).None? || (p.AbortRecorded? && !p.abort.accepted) then w.lifecycle else TargetOf(p).value
  {
    match t.payload {
      case Provisioned(_, _, _) =>
      case Activated(_, _) =>
      case AttemptStarted(_) =>
      case FailedWith(_, _, _, _, _, _) =>
      case DependencyBlocked(_) =>
      case AbortRecorded(_) =>
      case RetryScheduled(_, _, _, _, _) =>
      case TimedOut(_, _, _, _, _, _) =>
      case ResultApplied(_, _, _) =>
      case CleanupUpdated(_) =>
      case SnapshotApplied(_) =>
    }
  }

  lemma TargetIsDeclared(p: Payload)
    requires TargetOf(p).Some? && !p.SnapshotApplied?
    ensures IsTarget(NameOf(p), TargetOf(p).value)
  {
  }

  lemma StepFollowsTable(w: Worker, t: Transition)
    ensures AllowedMove(w.lifecycle, Offer(w, t).lifecycle)
  {
    hide Reduce, ReducePayload, AbortPassthrough;
    if w.AcceptedAbort() {
      AcceptedAbortStep(w, t);
    } else if Legal(w, t) {
      ReducedLifecycle(w, t);
      EdgesAre(w.lifecycle, Reduce(w, t).lifecycle);
      if TargetOf(t.payload).Some? && !t.payload.SnapshotApplied? {
        TargetIsDeclared(t.payload);
      }
    }
  }

  /** The lifecycle states a worker passes through. */
  function StateTrace(w: Worker, ts: seq<Transition>): (r: seq<State>)
    ensures |r| == |ts| + 1 && r[0] == w.lifecycle
    decreases |ts|
  {
    if ts == [] then [w.lifecycle] else [w.lifecycle] + StateTrace(Offer(w, ts[0]), ts[1..])
  }

  lemma {:induction false} TraceFollowsTable(w: Worker, ts: seq<Transition>)
    ensures forall i :: 0 <= i < |ts| ==> AllowedMove(StateTrace(w, ts)[i], StateTrace(w, ts)[i + 1])
    decreases |ts|
  {
    hide Offer, AllowedMove;
    if ts != [] {
      StepFollowsTable(w, ts[0]);
      TraceFollowsTable(Offer(w, ts[0]), ts[1..]);
    }
  }

  /** Done and terminally failed or timed-out workers never move again; the aborted states are never left. */
  lemma {:induction false} FinalStatesAbsorb(w: Worker, ts: seq<Transition>)
    ensures Final(w.lifecycle) ==> OfferAll(w, ts).lifecycle == w.lifecycle
    ensures InAbortedStatus(w.lifecycle) ==> InAbortedStatus(OfferAll(w, ts).lifecycle)
    decreases |ts|
  {
    hide Offer, DeclaredEdge;
    if ts != [] {
      var next := Offer(w, ts[0]);
      StepFollowsTable(w, ts[0]);
      FinalStatesHaveNoDeclaredEdge(w.lifecycle, next.lifecycle);
      FinalStatesAbsorb(next, ts[1..]);
    }
  }

  /** n shows the snapshot's state, budget, failure, timeout, output and status fields; the stored cleanup, abort,
      attempts, result and session stay where the snapshot has none, or one was there; the configuration is w's. */
  ghost predicate Replayed(w: Worker, snapshot: Worker, n: Worker) {
    && ReplayedFields(w, snapshot, n)
    && MergedOf(n.promptIds, if w.lifecycle == ActiveRetry && w.lastFailureCategory.Some? then [] else w.promptIds,
                snapshot.promptIds)
  }

  predicate ReplayedFields(w: Worker, snapshot: Worker, n: Worker) {
    && n == snapshot.(id := n.id, session := n.session, promptIds := n.promptIds, cleanup := n.cleanup,
                      abort := n.abort, attemptLog := n.attemptLog, result := n.result,
                      agent := w.agent, model := w.model,
                      dependencies := w.dependencies, retryLimit := w.retryLimit,
                      retryableFailures := w.retryableFailures, timeoutSeconds := w.timeoutSeconds,
                      timeoutPolicy := w.timeoutPolicy, prompt := w.prompt)
    && n.cleanup == (if snapshot.cleanup.Some? then snapshot.cleanup else w.cleanup)
    && n.abort == (if snapshot.abort.Some? then snapshot.abort else w.abort)
    && n.attemptLog == (if snapshot.attemptLog.Some? then snapshot.attemptLog else w.attemptLog)
    && n.result == (if snapshot.result.Some? then snapshot.result else w.result)
    && n.session == (if w.HasSession() || !snapshot.HasSession() then w.session else snapshot.session)
  }

  /** A builder-made snapshot is replayed, field by field, exactly when its state is at most one declared edge ahead, or
      both it and the stored worker are aborted; over another accepted abort only its prompt ids and cleanup pass; else
      it is stale and changes nothing, without an error. */
  lemma SnapshotReplay(w: Worker, snapshot: Worker, id: WorkerId)
    ensures var t := Transition(id, SnapshotApplied(snapshot), None);
            var moves := w.lifecycle == snapshot.lifecycle || snapshot.lifecycle in Successors(w.lifecycle);
            if w.AcceptedAbort() && !snapshot.AcceptedAbort() then
              && Offer(w, t).(promptIds := w.promptIds, cleanup := w.cleanup) == w
              && Offer(w, t).cleanup == (if snapshot.cleanup.Some? then snapshot.cleanup else w.cleanup)
              && MergedOf(Offer(w, t).promptIds, w.promptIds, snapshot.promptIds)
            else if w.AcceptedAbort() || moves then Replayed(w, snapshot, Offer(w, t))
            else Apply(w, t) == Skipped(true) && Offer(w, t) == w
  {
    hide ReducePayload, AbortPassthrough, DeclaredEdge, Successors, Replayed, Worker.AcceptedAbort;
    EdgesAre(w.lifecycle, snapshot.lifecycle);
    if w.AcceptedAbort() { SnapshotOverAbort(w, snapshot); }
    SnapshotReduced(w, snapshot, id);
  }

  lemma SnapshotOverAbort(w: Worker, snapshot: Worker)
    requires w.AcceptedAbort()
    ensures var n := AbortPassthrough(w, SnapshotApplied(snapshot));
            && n.(promptIds := w.promptIds, cleanup := w.cleanup) == w
            && n.cleanup == (if snapshot.cleanup.Some? then snapshot.cleanup else w.cleanup)
            && MergedOf(n.promptIds, w.promptIds, snapshot.promptIds)
  {
    hide MergedOf;
    AppendedMerge(w.promptIds, snapshot.promptIds);
  }

  lemma SnapshotReduced(w: Worker, snapshot: Worker, id: WorkerId)
    ensures Replayed(w, snapshot, ReducePayload(w, id, SnapshotApplied(snapshot)))
  {
    hide ReducePayload, ReplayedFields, MergedOf;
    assert w.PromptIdsAreRetryMarker() <==> w.lifecycle == ActiveRetry && w.lastFailureCategory.Some?;
    SnapshotFields(w, snapshot, id);
    MergedIds(w, snapshot.promptIds);
  }

  lemma SnapshotFields(w: Worker, snapshot: Worker, id: WorkerId)
    ensures var n := ReducePayload(w, id, SnapshotApplied(snapshot));
            ReplayedFields(w, snapshot, n) && n.promptIds == MergePromptIds(w, w, snapshot.promptIds, true).promptIds
  {
    hide AppendAllUnique;
  }

  lemma MergedIds(w: Worker, ids: seq<string>)
    ensures MergedOf(MergePromptIds(w, w, ids, true).promptIds,
                     if w.PromptIdsAreRetryMarker() then [] else w.promptIds, ids)
  {
    hide MergedOf;
    AppendedMerge(if w.PromptIdsAreRetryMarker() then [] else w.promptIds, ids);
  }

  // ----- The attempt log -----

  /** Attempt i of the log is named attempt-(i + 1). */
  predicate NumberedLog(w: Worker) {
    forall i :: 0 <= i < |w.Attempts()| ==> w.Attempts()[i].id == Numbered(i + 1)
  }

  function NewAttempt(w: Worker, startedAt: Instant, created: seq<SessionId>, promptId: Option<string>): Attempt {
    Attempt(Numbered(|w.Attempts()| + 1), w.session, created, AttemptActive, Some(startedAt), None, None, None, None,
            promptId, None)
  }

  predicate LogTransition(w: Worker, t: Transition) {
    && !t.payload.SnapshotApplied?
    && (t.payload.AttemptStarted? ==>
          t.payload.attempt.id.Numbered? && 1 <= t.payload.attempt.id.n <= |w.Attempts()| + 1)
  }

  lemma ReducedAttempts(w: Worker, t: Transition)
    requires NumberedLog(w) && LogTransition(w, t)
    ensures var p := t.payload;
            Reduce(w, t).Attempts() ==
            if p.AttemptStarted? && !w.AcceptedAbort() && p.attempt.id.n == |w.Attempts()| + 1
            then w.Attempts() + [p.attempt] else w.Attempts()
  {
    var p := t.payload;
    if p.AttemptStarted? && !w.AcceptedAbort() {
      if p.attempt.id.n <= |w.Attempts()| {
        assert w.Attempts()[p.attempt.id.n - 1].id == p.attempt.id;
      }
    } else {
      assert Reduce(w, t).attemptLog == w.attemptLog;
    }
  }

  /** An attempt numbered from an earlier state of the same log keeps ids distinct and never drops or reorders one. */
  lemma AttemptLogGrows(w: Worker, t: Transition)
    requires NumberedLog(w) && LogTransition(w, t)
    ensures NumberedLog(Offer(w, t))
    ensures |w.Attempts()| <= |Offer(w, t).Attempts()| <= |w.Attempts()| + 1
    ensures t.finalization.None? ==> w.Attempts() <= Offer(w, t).Attempts()
  {
    var reduced := Reduce(w, t);
    ReducedAttempts(w, t);
    if Legal(w, t) && t.finalization.Some? {
      assert |AttemptFinalized(reduced, t.finalization).Attempts()| == |reduced.Attempts()|;
    }
  }
}
