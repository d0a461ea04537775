/** Timing out workers whose active attempt outlived its lease. */
module AttemptRecovery {
  import opened Common
  import opened Lifecycle
  import opened Workers
  import opened LifecycleLaws
  import opened FieldLaws
  import opened DependencyAnalysis
  import opened Planner
  import opened Execution
  import opened AttemptLaws

  /** The position of the last unfinished attempt. */
  function LastUnfinished(attempts: seq<Attempt>): (r: Option<nat>)
    ensures r.Some? ==> r.value < |attempts| && Unfinished(attempts[r.value])
                        && forall i :: r.value < i < |attempts| ==> !Unfinished(attempts[i])
    ensures r.None? ==> forall i :: 0 <= i < |attempts| ==> !Unfinished(attempts[i])
  {
    if attempts == [] then None
    else
      var n := |attempts| - 1;
      if Unfinished(attempts[n]) then Some(n) else LastUnfinished(attempts[..n])
  }

  /** Without a timeout a lease never expires; without a start it has expired. */
  predicate LeaseExpired(w: Worker, a: Attempt, now: Instant) {
    var started := if w.timeoutStartedAt.Some? then w.timeoutStartedAt else a.startedAt;
    w.timeoutSeconds.Some? && (started.Some? ==> started.value + w.timeoutSeconds.value <= now)
  }

  predicate NeedsRecovery(w: Worker, now: Instant) {
    var last := LastUnfinished(w.Attempts());
    w.lifecycle == ActiveWait && last.Some? && LeaseExpired(w, w.Attempts()[last.value], now)
  }

  datatype Recovery = Recovery(workerId: WorkerId, attemptId: AttemptId, error: Option<string>, transition: Transition)

  function RecoveryOf(id: WorkerId, w: Worker, attemptId: AttemptId, now: Instant): Recovery {
    var d := DecideAttempt(w, AttemptRaised(TimeoutFailure, "worker timed out", None), now);
    Recovery(id, attemptId, d.error,
             Transition(id, d.payload,
                        Some(Finalization(attemptId, AttemptFailed, now, d.error, d.category, None, None, None))))
  }

  function RecoveryFor(workers: WorkerMap, now: Instant, id: WorkerId): Recovery {
    var w := Latest(workers, id);
    var last := LastUnfinished(w.Attempts());
    RecoveryOf(id, w, if last.Some? then w.Attempts()[last.value].id else NoId, now)
  }

  function ExpiredIds(workers: WorkerMap, now: Instant, ids: seq<WorkerId>): seq<WorkerId> {
    if ids == [] then []
    else
      var n := |ids| - 1;
      ExpiredIds(workers, now, ids[..n]) +
      if ids[n] in workers && NeedsRecovery(workers[ids[n]], now) then [ids[n]] else []
  }

  function RecoveriesAmong(workers: WorkerMap, now: Instant, ids: seq<WorkerId>): seq<Recovery> {
    var expired := ExpiredIds(workers, now, ids);
    seq(|expired|, i requires 0 <= i < |expired| => RecoveryFor(workers, now, expired[i]))
  }

  function Recoveries(workers: WorkerMap, now: Instant): seq<Recovery> {
    RecoveriesAmong(workers, now, SortedIds(workers.Keys))
  }

  method LastUnfinishedAttempt(attempts: seq<Attempt>) returns (r: Option<nat>)
    ensures r == LastUnfinished(attempts)
  {
    var i := |attempts|;
    while i > 0
      invariant 0 <= i <= |attempts|
      invariant LastUnfinished(attempts) == LastUnfinished(attempts[..i])
    {
      i := i - 1;
      assert attempts[..i + 1][..i] == attempts[..i];
      if Unfinished(attempts[i]) { return Some(i); }
    }
    return None;
  }

  lemma RecoveriesNext(workers: WorkerMap, now: Instant, sorted: seq<WorkerId>, i: nat)
    requires i < |sorted| && sorted[i] in workers
    ensures RecoveriesAmong(workers, now, sorted[..i + 1]) ==
            RecoveriesAmong(workers, now, sorted[..i]) +
            if NeedsRecovery(workers[sorted[i]], now) then [RecoveryFor(workers, now, sorted[i])] else []
  {
    hide NeedsRecovery, RecoveryFor;
    assert sorted[..i + 1][..i] == sorted[..i];
  }

  lemma RecoveryForIs(workers: WorkerMap, now: Instant, id: WorkerId, last: nat)
    requires id in workers && LastUnfinished(workers[id].Attempts()) == Some(last)
    ensures RecoveryFor(workers, now, id) == RecoveryOf(id, workers[id], workers[id].Attempts()[last].id, now)
  {
    hide RecoveryOf;
  }

  lemma NothingToRecoverAmong(workers: WorkerMap, now: Instant)
    ensures RecoveriesAmong(workers, now, []) == []
  {
  }

  method RecoverWorker(workers: WorkerMap, id: WorkerId, now: Instant) returns (recovery: Option<Recovery>)
    requires id in workers
    ensures recovery == if NeedsRecovery(workers[id], now) then Some(RecoveryFor(workers, now, id)) else None
  {
    hide RecoveryOf, RecoveryFor, LeaseExpired, LastUnfinished;
    var w := workers[id];
    if w.lifecycle != ActiveWait { return None; }
    var last := LastUnfinishedAttempt(w.Attempts());
    if last.None? || !LeaseExpired(w, w.Attempts()[last.value], now) { return None; }
    RecoveryForIs(workers, now, id, last.value);
    return Some(RecoveryOf(id, w, w.Attempts()[last.value].id, now));
  }

  /** The last attempt of the log that has an id, is active and was never finished. */
  ghost predicate LastOpen(attempts: seq<Attempt>, k: int) {
    && 0 <= k < |attempts| && Unfinished(attempts[k])
    && forall i :: k < i < |attempts| ==> !Unfinished(attempts[i])
  }

  /** By the clock: the worker waits on an open attempt, has a timeout, and so many seconds have passed since it
      started; the attempt's own start counts when the worker shows none, and without any start the time is over. */
  ghost predicate Overdue(w: Worker, now: Instant) {
    && w.lifecycle == ActiveWait && w.timeoutSeconds.Some?
    && exists k :: LastOpen(w.Attempts(), k) &&
         match w.timeoutStartedAt
         case Some(start) => now - start >= w.timeoutSeconds.value
         case None =>
           match w.Attempts()[k].startedAt
           case Some(start) => now - start >= w.timeoutSeconds.value
           case None => true
  }

  lemma OverdueIff(w: Worker, now: Instant)
    ensures NeedsRecovery(w, now) <==> Overdue(w, now)
  {
    var last := LastUnfinished(w.Attempts());
    if last.Some? { assert LastOpen(w.Attempts(), last.value); }
    forall k | LastOpen(w.Attempts(), k) ensures last == Some(k) { }
  }

  ghost predicate Recovers(recoveries: seq<Recovery>, id: WorkerId) {
    exists i :: 0 <= i < |recoveries| && recoveries[i].workerId == id
  }

  /** Names each overdue worker once, in id order, and nobody else. */
  method RecoverExpiredActiveAttempts(workers: WorkerMap, now: Instant) returns (recoveries: seq<Recovery>)
    ensures recoveries == Recoveries(workers, now)
    ensures forall i, j :: 0 <= i < j < |recoveries| ==> recoveries[i].workerId < recoveries[j].workerId
    ensures forall id :: Recovers(recoveries, id) <==> id in workers && Overdue(workers[id], now)
  {
    hide RecoveriesAmong, RecoveryFor, NeedsRecovery, Overdue, Recovers;
    recoveries := [];
    var sorted := SortedIds(workers.Keys);
    NothingToRecoverAmong(workers, now);
    assert sorted[..0] == [];
    for i := 0 to |sorted|
      invariant recoveries == RecoveriesAmong(workers, now, sorted[..i])
    {
      RecoveriesNext(workers, now, sorted, i);
      var recovery := RecoverWorker(workers, sorted[i], now);
      if recovery.Some? { recoveries := recoveries + [recovery.value]; }
    }
    assert sorted[..|sorted|] == sorted;
    RecoveryIsExact(workers, now);
  }

  // ----- Exactness -----

  lemma {:induction false} ExpiredIdsExact(workers: WorkerMap, now: Instant, ids: seq<WorkerId>)
    requires Ascending(ids)
    ensures Ascending(ExpiredIds(workers, now, ids))
    ensures forall id :: id in ExpiredIds(workers, now, ids) <==>
              id in ids && id in workers && NeedsRecovery(workers[id], now)
  {
    hide NeedsRecovery;
    if ids != [] {
      var n := |ids| - 1;
      ExpiredIdsExact(workers, now, ids[..n]);
      var expired := ExpiredIds(workers, now, ids[..n]);
      assert ids == ids[..n] + [ids[n]];
      forall i | 0 <= i < |expired| ensures expired[i] < ids[n] {
        assert expired[i] in expired;
        var j :| 0 <= j < n && ids[j] == expired[i];
      }
    }
  }

  lemma RecoveriesOfIds(workers: WorkerMap, now: Instant)
    ensures var ids, rs := ExpiredIds(workers, now, SortedIds(workers.Keys)), Recoveries(workers, now);
            |rs| == |ids| && forall i :: 0 <= i < |rs| ==> rs[i].workerId == ids[i]
  {
    hide ExpiredIds, DecideAttempt;
  }

  /** Recovery names exactly the overdue workers, each once. */
  lemma RecoveryIsExact(workers: WorkerMap, now: Instant)
    ensures forall i, j :: 0 <= i < j < |Recoveries(workers, now)| ==>
              Recoveries(workers, now)[i].workerId < Recoveries(workers, now)[j].workerId
    ensures forall id :: Recovers(Recoveries(workers, now), id) <==> id in workers && Overdue(workers[id], now)
  {
    hide NeedsRecovery, Overdue, Recoveries, ExpiredIds;
    forall id | id in workers ensures NeedsRecovery(workers[id], now) <==> Overdue(workers[id], now) {
      OverdueIff(workers[id], now);
    }
    var ids := ExpiredIds(workers, now, SortedIds(workers.Keys));
    var rs := Recoveries(workers, now);
    ExpiredIdsExact(workers, now, SortedIds(workers.Keys));
    RecoveriesOfIds(workers, now);
    forall id | Recovers(rs, id) ensures id in workers && NeedsRecovery(workers[id], now) {
      var i :| 0 <= i < |rs| && rs[i].workerId == id;
      assert ids[i] in ids;
    }
    forall id | id in workers && NeedsRecovery(workers[id], now) ensures Recovers(rs, id) {
      assert id in ids;
      var i :| 0 <= i < |ids| && ids[i] == id;
      assert rs[i].workerId == id;
    }
  }

  function RecoveryTransition(workers: WorkerMap, now: Instant): WorkerId -> Transition {
    (id: WorkerId) => RecoveryFor(workers, now, id).transition
  }

  /** The persisted run after recovery: one batch of the recoveries' transitions. */
  function Recovered(workers: WorkerMap, foreign: seq<AbortWrite>, now: Instant): Option<WorkerMap> {
    ApplyBatch(Interfere(workers, foreign),
               BatchOf(RecoveryTransition(workers, now), ExpiredIds(workers, now, SortedIds(workers.Keys))))
  }

  predicate DistinctAttempts(w: Worker) {
    forall i, j :: 0 <= i < j < |w.Attempts()| ==> w.Attempts()[i].id != w.Attempts()[j].id
  }

  /** What recovery does to one expired worker: a timeout, and one finalized attempt. */
  predicate TimedOutBy(a: Worker, b: Worker, now: Instant)
    requires NeedsRecovery(a, now)
  {
    var k := LastUnfinished(a.Attempts()).value;
    var available := a.failureRetryable != Some(false) && Budget(a, TimeoutFailure);
    && PublicStatus(b.lifecycle) == PolicyStatus(a.timeoutPolicy) && Table(b.lifecycle).timeoutOrigin
    && (Executable(b.lifecycle) <==> available && (a.timeoutPolicy == PolicyTimeout || a.timeoutPolicy == PolicyFailed))
    && b.failureCategory == Some(TimeoutFailure) && b.timedOutAt == Some(now) && b.retryCount == a.retryCount
    && b.manualRetryRequired == (if available then Some(true) else None)
    && |b.Attempts()| == |a.Attempts()|
    && b.error.Some?
    && b.Attempts()[k] == a.Attempts()[k].(status := AttemptFailed, finishedAt := Some(now), error := b.error,
                                           failureCategory := Some(TimeoutFailure))
    && (DistinctAttempts(a) ==> b.Attempts() == a.Attempts()[k := b.Attempts()[k]])
  }

  function RecoveryPayload(w: Worker, now: Instant): Payload {
    var available := w.RetryAvailable(Some(TimeoutFailure));
    TimedOut("worker timed out", w.timeoutPolicy, now, available, available, Set(w.timeoutStartedAt))
  }

  /** The recovery transition is a timeout that finalizes the last unfinished attempt. */
  lemma RecoveryShape(workers: WorkerMap, id: WorkerId, now: Instant)
    requires id in workers && NeedsRecovery(workers[id], now)
    ensures var t := RecoveryTransition(workers, now)(id); var w := workers[id];
            && t.workerId == id && t.payload == RecoveryPayload(w, now)
            && t.finalization.Some?
            && t.finalization.value.attemptId == w.Attempts()[LastUnfinished(w.Attempts()).value].id
            && t.finalization.value ==
               Finalization(t.finalization.value.attemptId, AttemptFailed, now, Some(t.payload.reason),
                            Some(TimeoutFailure), None, None, None)
  {
    hide NeedsRecovery, LeaseExpired;
    NeedsRecoveryHas(workers[id], now);
  }

  lemma NeedsRecoveryHas(w: Worker, now: Instant)
    requires NeedsRecovery(w, now)
    ensures w.lifecycle == ActiveWait && !w.AcceptedAbort() && LastUnfinished(w.Attempts()).Some?
  {
  }

  lemma TimeoutReduced(a: Worker, t: Transition, p: Payload)
    requires a.lifecycle == ActiveWait && t.payload == p && p.TimedOut?
    ensures Legal(a, t)
    ensures var b := Reduce(a, t);
            && TimeoutShown(a, b, p) && b.attemptLog == a.attemptLog
  {
    hide MergePromptIds;
    PayloadShows(a, t.workerId, p);
  }

  lemma FinalizedAt(attempts: seq<Attempt>, f: Finalization, k: nat)
    requires k < |attempts| && attempts[k].id == f.attemptId
    ensures var after := FinalizedAttempts(attempts, f);
            && |after| == |attempts| && after[k] == FinalizedAttempt(attempts[k], f)
            && ((forall i, j :: 0 <= i < j < |attempts| ==> attempts[i].id != attempts[j].id) ==>
                  after == attempts[k := after[k]])
  {
    var after := FinalizedAttempts(attempts, f);
    if forall i, j :: 0 <= i < j < |attempts| ==> attempts[i].id != attempts[j].id {
      forall i | 0 <= i < |attempts| && i != k ensures after[i] == attempts[i] {
        assert attempts[i].id != attempts[k].id;
      }
    }
  }

  lemma RecoveryStep(workers: WorkerMap, id: WorkerId, now: Instant)
    requires id in workers && NeedsRecovery(workers[id], now)
    ensures var t := RecoveryTransition(workers, now)(id);
            Apply(workers[id], t).Applied? && TimedOutBy(workers[id], Offer(workers[id], t), now)
  {
    hide NeedsRecovery, RecoveryTransition, Reduce, Legal;
    var a := workers[id];
    var t := RecoveryTransition(workers, now)(id);
    NeedsRecoveryHas(a, now);
    RecoveryShape(workers, id, now);
    TimeoutReduced(a, t, RecoveryPayload(a, now));
    FinalizedAt(a.Attempts(), t.finalization.value, LastUnfinished(a.Attempts()).value);
  }

  lemma RecoveryAfterAborts(a: Worker, s: Worker, t: Transition)
    requires a.lifecycle == ActiveWait && Overlay(a, s) && t.payload.TimedOut?
    ensures Apply(s, t).Applied?
    ensures s.AcceptedAbort() || s.lifecycle == ActiveWait
  {
  }

  /** Recovery is legal even if aborts land before it is written. */
  lemma RecoveryIsLegal(workers: WorkerMap, foreign: seq<AbortWrite>, now: Instant)
    ensures Recovered(workers, foreign, now) ==
            Some(Offered(Interfere(workers, foreign), RecoveryTransition(workers, now),
                         ExpiredIds(workers, now, SortedIds(workers.Keys))))
  {
    hide NeedsRecovery, ApplyBatch, BatchOf, ExpiredIds, Overlay, RecoveryTransition, Offered, RecoveryPayload, Apply;
    var s := Interfere(workers, foreign);
    var ids := ExpiredIds(workers, now, SortedIds(workers.Keys));
    ExpiredIdsExact(workers, now, SortedIds(workers.Keys));
    AscendingDistinct(ids);
    var f := RecoveryTransition(workers, now);
    forall id | id in ids ensures id in s && !Raises(s, f, id) && f(id).workerId == id {
      AbortsOverlay(id, workers[id], foreign);
      NeedsRecoveryHas(workers[id], now);
      RecoveryShape(workers, id, now);
      PayloadIsTimeout(workers[id], now);
      RecoveryAfterAborts(workers[id], s[id], f(id));
    }
    BatchIsAllOrNothing(s, f, ids);
  }

  lemma PayloadIsTimeout(w: Worker, now: Instant)
    ensures RecoveryPayload(w, now).TimedOut?
  {
  }

  /** Exactly the expired workers are timed out, with exactly one attempt finalized each; no other worker changes. */
  lemma RecoveryTimesOutExactly(workers: WorkerMap, now: Instant)
    ensures var after := Recovered(workers, [], now);
            && after.Some? && after.value.Keys == workers.Keys
            && forall id :: id in workers ==>
                 if NeedsRecovery(workers[id], now) then TimedOutBy(workers[id], after.value[id], now)
                 else after.value[id] == workers[id]
  {
    hide NeedsRecovery, TimedOutBy, Recovered, RecoveryTransition, ExpiredIds, Offer, Interfere;
    RecoveryIsLegal(workers, [], now);
    InterfereNothing(workers);
    var ids := ExpiredIds(workers, now, SortedIds(workers.Keys));
    ExpiredIdsExact(workers, now, SortedIds(workers.Keys));
    forall id | id in workers && NeedsRecovery(workers[id], now)
      ensures TimedOutBy(workers[id], Offer(workers[id], RecoveryTransition(workers, now)(id)), now)
    {
      RecoveryStep(workers, id, now);
    }
  }

  lemma AbortedNeedsNothing(w: Worker, now: Instant)
    requires w.lifecycle != ActiveWait
    ensures !NeedsRecovery(w, now)
  {
  }

  lemma OverlaidNeed(a: Worker, s: Worker, now: Instant)
    requires Overlay(a, s) && NeedsRecovery(s, now)
    ensures NeedsRecovery(a, now)
  {
  }

  lemma TimedOutLeavesWaiting(s: Worker, t: Transition)
    requires (s.AcceptedAbort() || s.lifecycle == ActiveWait) && t.payload.TimedOut?
    ensures Offer(s, t).lifecycle != ActiveWait
  {
    hide Reduce;
    if s.AcceptedAbort() { AcceptedAbortStep(s, t); } else { TimeoutReduced(s, t, t.payload); }
  }

  /** Repeating the recovery at the same instant finds nothing, whatever aborts landed before it was written. */
  lemma RecoveryIsIdempotent(workers: WorkerMap, foreign: seq<AbortWrite>, now: Instant)
    ensures Recovered(workers, foreign, now).Some? && Recoveries(Recovered(workers, foreign, now).value, now) == []
  {
    hide NeedsRecovery, RecoveryTransition, ExpiredIds, Overlay, Recovered, Offer, RecoveryFor;
    RecoveryIsLegal(workers, foreign, now);
    var after := Recovered(workers, foreign, now).value;
    var ids := ExpiredIds(workers, now, SortedIds(workers.Keys));
    ExpiredIdsExact(workers, now, SortedIds(workers.Keys));
    forall id | id in after ensures !NeedsRecovery(after[id], now) {
      RecoveredNeedsNothing(workers, id, foreign, after[id], now);
    }
    ExpiredIdsExact(after, now, SortedIds(after.Keys));
    NonEmptyHasFirst(ExpiredIds(after, now, SortedIds(after.Keys)));
  }

  lemma RecoveredNeedsNothing(workers: WorkerMap, id: WorkerId, foreign: seq<AbortWrite>, b: Worker, now: Instant)
    requires id in workers
    requires b == if NeedsRecovery(workers[id], now)
                  then Offer(AbortsOn(id, workers[id], foreign), RecoveryTransition(workers, now)(id))
                  else AbortsOn(id, workers[id], foreign)
    ensures !NeedsRecovery(b, now)
  {
    hide NeedsRecovery, RecoveryTransition, Overlay, Offer, RecoveryPayload;
    var s := AbortsOn(id, workers[id], foreign);
    AbortsOverlay(id, workers[id], foreign);
    if NeedsRecovery(workers[id], now) {
      NeedsRecoveryHas(workers[id], now);
      RecoveryShape(workers, id, now);
      PayloadIsTimeout(workers[id], now);
      RecoveryAfterAborts(workers[id], s, RecoveryTransition(workers, now)(id));
      TimedOutLeavesWaiting(s, RecoveryTransition(workers, now)(id));
      AbortedNeedsNothing(b, now);
    } else if NeedsRecovery(s, now) {
      OverlaidNeed(workers[id], s, now);
    }
  }

  // ----- The lease of an attempt under way -----

  lemma RunningIsOpen(w: Worker, attempts: seq<Attempt>, attempt: Attempt)
    requires w.Attempts() == attempts + [attempt] && Unfinished(attempt)
    ensures forall k :: LastOpen(w.Attempts(), k) <==> k == |attempts|
  {
    assert w.Attempts()[|attempts|] == attempt;
  }

  /** An attempt that the executor started at the clock of e, and that nobody aborted, is left alone by recovery as long
      as its timeout has not passed since, and is timed out from then on; without a timeout it is never touched. */
  lemma RunningAttemptIsLeased(a: Worker, id: WorkerId, e: Env, v: Stages, run: WorkerMap, now: Instant)
    requires PassesToStarted(a, id, e, v) && NumberedLog(a) && !v.started.AcceptedAbort()
    requires id in run && run[id] == v.started
    ensures Recovers(Recoveries(run, now), id) <==>
            a.timeoutSeconds.Some? && e.now + a.timeoutSeconds.value <= now
    ensures var after := Recovered(run, [], now);
            && after.Some? && id in after.value
            && if a.timeoutSeconds.Some? && e.now + a.timeoutSeconds.value <= now
               then after.value[id].failureCategory == Some(TimeoutFailure) && after.value[id].timedOutAt == Some(now)
                    && after.value[id].lifecycle != ActiveWait
               else after.value[id] == run[id]
  {
    hide PassesToStarted, Recovered, Recoveries, NumberedLog, NeedsRecovery;
    StartedIsOpen(a, id, e, v);
    RecoveryIsExact(run, now);
    OverdueIff(run[id], now);
    StartedOverdue(a, e, v.started, now);
    RecoveryTimesOutExactly(run, now);
    if NeedsRecovery(run[id], now) { TimedOutIsNotWaiting(run[id], Recovered(run, [], now).value[id], now); }
  }

  lemma TimedOutIsNotWaiting(a: Worker, b: Worker, now: Instant)
    requires NeedsRecovery(a, now) && TimedOutBy(a, b, now)
    ensures b.lifecycle != ActiveWait && b.failureCategory == Some(TimeoutFailure) && b.timedOutAt == Some(now)
  {
  }

  lemma StartedIsOpen(a: Worker, id: WorkerId, e: Env, v: Stages)
    requires PassesToStarted(a, id, e, v) && NumberedLog(a) && !v.started.AcceptedAbort()
    ensures Carried(a, e, v.started) && Opened(a, e, v.started)
    ensures exists k :: LastOpen(v.started.Attempts(), k)
  {
    hide Carried, Opened, AttemptOf;
    StartedStages(a, id, e, v);
    StartedIsUnfinished(v.active, e, !a.HasSession());
    RunningIsOpen(v.started, a.Attempts(), AttemptOf(v.active, e, !a.HasSession()));
    assert LastOpen(v.started.Attempts(), |a.Attempts()|);
  }

  lemma StartedIsUnfinished(w: Worker, e: Env, created: bool)
    ensures Unfinished(AttemptOf(w, e, created))
  {
  }

  lemma StartedOverdue(a: Worker, e: Env, w: Worker, now: Instant)
    requires Carried(a, e, w) && Opened(a, e, w) && exists k :: LastOpen(w.Attempts(), k)
    ensures Overdue(w, now) <==> a.timeoutSeconds.Some? && e.now + a.timeoutSeconds.value <= now
  {
  }
}
