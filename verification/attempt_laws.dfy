/** What one attempt leaves: one finished attempt in the log, and its outcome on the worker. */
module AttemptLaws {
  import opened Common
  import opened Lifecycle
  import opened Workers
  import opened LifecycleLaws
  import opened DependencyAnalysis
  import opened Execution
  import opened FieldLaws

  // ----- The worker's way through the writes of an attempt -----

  /** The worker as each write of the attempt left it. */
  datatype Stages = Stages(provided: Worker, provisioned: Worker, active: Worker, started: Worker, ended: Worker)

  /** w is the worker after aborts and a legal transition. */
  ghost predicate WrittenFrom(id: WorkerId, before: Worker, foreign: seq<AbortWrite>, t: Transition, w: Worker) {
    Legal(AbortsOn(id, before, foreign), t) && w == Offer(AbortsOn(id, before, foreign), t)
  }

  /** The attempt is under way: provided with a session, active and started. */
  ghost predicate PassesToStarted(a: Worker, id: WorkerId, e: Env, v: Stages) {
    && Provided(a, id, e, v.provided)
    && WrittenFrom(id, v.provided, e.aborts(1), ProvisionedWrite(id, v.provided), v.provisioned)
    && WrittenFrom(id, v.provisioned, e.aborts(2), ActiveWrite(id, v.provisioned, e.now), v.active)
    && WrittenFrom(id, v.active, e.aborts(3), StartedWrite(id, v.active, e, !a.HasSession()), v.started)
  }

  ghost predicate Passes(a: Worker, id: WorkerId, e: Env, v: Stages) {
    && PassesToStarted(a, id, e, v)
    && WrittenFrom(id, v.started, e.aborts(4),
                   OutcomeWrite(id, v.started, AttemptOf(v.active, e, !a.HasSession()).id, e), v.ended)
  }

  predicate Provided(a: Worker, id: WorkerId, e: Env, w: Worker) {
    if a.HasSession() then w == a
    else e.provision.Creates? && var b := AbortsOn(id, a, e.aborts(0)).(session := Some(e.provision.session));
         w == if e.cleanupRequested then SessionRemembered(b, e.provision.session) else b
  }

  lemma WritesAt(workers: WorkerMap, foreign: seq<AbortWrite>, t: Transition)
    requires t.workerId in workers && !t.payload.SnapshotApplied? && Write(workers, foreign, t).Some?
    ensures t.workerId in Write(workers, foreign, t).value
    ensures WrittenFrom(t.workerId, workers[t.workerId], foreign, t, Write(workers, foreign, t).value[t.workerId])
  {
    hide Write, AbortsOn, Offer, Legal, Reduce;
    WriteAt(workers, foreign, t);
  }

  lemma WritePayloads(id: WorkerId, w: Worker, attemptId: AttemptId, created: bool, e: Env)
    ensures ProvisionedWrite(id, w).payload.Provisioned? && ActiveWrite(id, w, e.now).payload.Activated?
    ensures StartedWrite(id, w, e, created).payload.AttemptStarted?
    ensures !OutcomeWrite(id, w, attemptId, e).payload.SnapshotApplied?
    ensures ProvisionedWrite(id, w).workerId == id && ActiveWrite(id, w, e.now).workerId == id
    ensures StartedWrite(id, w, e, created).workerId == id && OutcomeWrite(id, w, attemptId, e).workerId == id
  {
  }

  lemma AttemptStages(workers: WorkerMap, id: WorkerId, e: Env) returns (v: Stages)
    requires id in workers && AttemptRun(workers, id, e).Ran?
    ensures Passes(workers[id], id, e, v)
    ensures var r := AttemptRun(workers, id, e);
            && id in r.workers && r.workers[id] == v.ended
            && r.error == DecideAttempt(v.started, Classify(e.event), e.now).error
  {
    hide Write, AbortsOn, ProvisionedWrite, ActiveWrite, StartedWrite, OutcomeWrite, WrittenFrom, DecideAttempt,
         AttemptOf;
    var created := !workers[id].HasSession();
    var s0 := Provisioning(workers, id, e).value;
    ProvidedAt(workers, id, e);
    WritePayloads(id, s0[id], NoId, created, e);
    WritesAt(s0, e.aborts(1), ProvisionedWrite(id, s0[id]));
    var s1 := Write(s0, e.aborts(1), ProvisionedWrite(id, s0[id])).value;
    WritePayloads(id, s1[id], NoId, created, e);
    WritesAt(s1, e.aborts(2), ActiveWrite(id, s1[id], e.now));
    var s2 := Write(s1, e.aborts(2), ActiveWrite(id, s1[id], e.now)).value;
    WritePayloads(id, s2[id], NoId, created, e);
    WritesAt(s2, e.aborts(3), StartedWrite(id, s2[id], e, created));
    var s3 := Write(s2, e.aborts(3), StartedWrite(id, s2[id], e, created)).value;
    var attemptId := AttemptOf(s2[id], e, created).id;
    WritePayloads(id, s3[id], attemptId, created, e);
    WritesAt(s3, e.aborts(4), OutcomeWrite(id, s3[id], attemptId, e));
    var s4 := Write(s3, e.aborts(4), OutcomeWrite(id, s3[id], attemptId, e)).value;
    v := Stages(s0[id], s1[id], s2[id], s3[id], s4[id]);
  }

  lemma ProvidedAt(workers: WorkerMap, id: WorkerId, e: Env)
    requires id in workers && Provisioning(workers, id, e).Some?
    ensures var s := Provisioning(workers, id, e).value; id in s && Provided(workers[id], id, e, s[id])
  {
    hide AbortsOn;
  }

  // ----- What is recorded -----

  /** How an event is recorded: its category, result, reason and message id. */
  function EventCategory(event: PromptEvent): Option<Category> {
    match event
    case Returned(_) => None
    case BlockingTimeout(_, _) | DeadlineTimeout(_, _) | TransportTimeout(_) => Some(TimeoutFailure)
    case ApiError(_) => Some(ApiFailure)
    case ProviderError(_, _) => Some(ProviderFailure)
  }

  function MessageOf(event: PromptEvent): Option<string> {
    match event
    case Returned(result) => result.userMessage
    case BlockingTimeout(_, promptId) => promptId
    case DeadlineTimeout(_, promptId) => promptId
    case ProviderError(_, promptId) => promptId
    case TransportTimeout(_) | ApiError(_) => None
  }

  /** The attempt that the log gains: started and finished by the clock, with the session it used, the one it created,
      and how it ended. */
  ghost predicate Recorded(a: Worker, b: Worker, e: Env, error: Option<string>, attempt: Attempt) {
    && attempt.id == Numbered(|a.Attempts()| + 1)
    && attempt.startedAt == Some(e.now) && attempt.finishedAt == Some(e.now)
    && attempt.session == b.session
    && attempt.created == (if a.HasSession() || !e.provision.Creates? then [] else [e.provision.session])
    && (attempt.status == AttemptCompleted <==> e.event.Returned?)
    && attempt.status != AttemptActive
    && (!b.AcceptedAbort() ==> (attempt.status == AttemptRetryScheduled <==> b.lifecycle == ActiveRetry))
    && attempt.error == error && attempt.failureCategory == EventCategory(e.event)
    && attempt.resultStatus == (if e.event.Returned? then Some(e.event.result.status) else None)
    && attempt.userMessage == (if MessageOf(e.event).Some? then MessageOf(e.event) else e.promptId)
    && attempt.assistantMessage == (if e.event.Returned? then e.event.result.assistantMessage else None)
  }

  /** The log gains exactly the recorded attempt; only an abort accepted before it started leaves the log as it was. */
  ghost predicate LogGains(a: Worker, b: Worker, e: Env, error: Option<string>) {
    || (b.AcceptedAbort() && b.Attempts() == a.Attempts())
    || (|b.Attempts()| == |a.Attempts()| + 1 && a.Attempts() <= b.Attempts()
        && Recorded(a, b, e, error, b.Attempts()[|a.Attempts()|]))
  }

  // ----- The log through the stages -----

  lemma AbortsKeepLog(id: WorkerId, w: Worker, writes: seq<AbortWrite>)
    ensures var s := AbortsOn(id, w, writes);
            && s.Attempts() == w.Attempts() && s.session == w.session && s.promptIds == w.promptIds
            && (w.AcceptedAbort() ==> s.AcceptedAbort())
  {
    AbortsOverlay(id, w, writes);
  }

  /** What a stage keeps of the one before it. */
  predicate KeepsLog(w: Worker, n: Worker) {
    && n.Attempts() == w.Attempts() && (w.HasSession() ==> n.session == w.session)
    && (w.AcceptedAbort() ==> n.AcceptedAbort())
  }

  lemma UnfinalizedLog(w: Worker, t: Transition, n: Worker)
    requires !t.payload.SnapshotApplied? && LogShown(w, t, n) && t.finalization.None?
    ensures n.Attempts() == w.Attempts() +
            if t.payload.AttemptStarted? && !w.AcceptedAbort() && !Listed(w.Attempts(), t.payload.attempt.id)
            then [t.payload.attempt] else []
  {
    hide Listed;
  }

  lemma QuietStage(id: WorkerId, w: Worker, foreign: seq<AbortWrite>, t: Transition, n: Worker)
    requires WrittenFrom(id, w, foreign, t, n) && t.finalization.None?
    requires t.payload.Provisioned? || t.payload.Activated?
    ensures KeepsLog(w, n)
  {
    hide AbortsOn, Offer, Legal;
    var s := AbortsOn(id, w, foreign);
    AbortsKeepLog(id, w, foreign);
    OfferShows(s, t);
    UnfinalizedLog(s, t, n);
    if s.AcceptedAbort() { AcceptedAbortStep(s, t); }
  }

  lemma StartedStage(id: WorkerId, w: Worker, foreign: seq<AbortWrite>, e: Env, created: bool, n: Worker)
    requires WrittenFrom(id, w, foreign, StartedWrite(id, w, e, created), n) && NumberedLog(w)
    ensures n.session == w.session && (w.AcceptedAbort() ==> n.AcceptedAbort())
    ensures || (n.AcceptedAbort() && n.Attempts() == w.Attempts())
            || n.Attempts() == w.Attempts() + [AttemptOf(w, e, created)]
  {
    hide AbortsOn, Offer, Legal;
    var s, t := AbortsOn(id, w, foreign), StartedWrite(id, w, e, created);
    AbortsKeepLog(id, w, foreign);
    OfferShows(s, t);
    UnfinalizedLog(s, t, n);
    if s.AcceptedAbort() { AcceptedAbortStep(s, t); }
    assert !Listed(w.Attempts(), AttemptOf(w, e, created).id);
  }

  /** Finishing the last attempt of a numbered log touches that one only; finishing an id beyond it touches none. */
  lemma LastFinished(before: seq<Attempt>, f: Finalization, after: seq<Attempt>, n: nat)
    requires FinishedIn(before, Some(f), after) && f.attemptId == Numbered(n + 1) && |before| <= n + 1
    requires forall i :: 0 <= i < |before| && i < n ==> before[i].id == Numbered(i + 1)
    ensures |before| <= n ==> after == before
    ensures |before| == n + 1 && before[n].id == f.attemptId ==>
              |after| == n + 1 && after[..n] == before[..n] && FinishedAs(before[n], f, after[n])
  {
  }

  lemma OutcomeStage(id: WorkerId, w: Worker, foreign: seq<AbortWrite>, attemptId: AttemptId, e: Env, n: Worker)
    requires WrittenFrom(id, w, foreign, OutcomeWrite(id, w, attemptId, e), n)
    ensures var f := OutcomeWrite(id, w, attemptId, e).finalization;
            && f.Some? && f.value.attemptId == attemptId && FinishedIn(w.Attempts(), f, n.Attempts())
            && n.session == w.session && (w.AcceptedAbort() ==> n.AcceptedAbort())
  {
    hide AbortsOn, Offer, Legal, DecideAttempt, FinishedIn, Listed;
    var s, t := AbortsOn(id, w, foreign), OutcomeWrite(id, w, attemptId, e);
    AbortsKeepLog(id, w, foreign);
    DecisionPayload(w, e);
    OfferShows(s, t);
    if s.AcceptedAbort() { AcceptedAbortStep(s, t); }
    assert s.Attempts() + [] == s.Attempts();
    KeepsSession(s, t, n);
  }

  lemma DecisionPayload(w: Worker, e: Env)
    ensures var p := DecideAttempt(w, Classify(e.event), e.now).payload;
            p.ResultApplied? || p.TimedOut? || p.FailedWith? || p.RetryScheduled?
  {
  }

  lemma KeepsSession(w: Worker, t: Transition, n: Worker)
    requires t.payload.ResultApplied? || t.payload.TimedOut? || t.payload.FailedWith? || t.payload.RetryScheduled?
    requires Shown(w, t, n)
    ensures n.session == w.session
  {
    hide KnowsPrompts, LogShown;
  }

  /** The finalization records the event. */
  lemma FinalizationRecords(id: WorkerId, w: Worker, attemptId: AttemptId, e: Env)
    ensures var f := OutcomeWrite(id, w, attemptId, e).finalization.value;
            var d := DecideAttempt(w, Classify(e.event), e.now);
            && f.finishedAt == e.now && f.error == d.error && f.failureCategory == EventCategory(e.event)
            && (f.status == AttemptCompleted <==> e.event.Returned?) && f.status != AttemptActive
            && (f.status == AttemptRetryScheduled <==> d.payload.RetryScheduled?)
            && f.resultStatus == (if e.event.Returned? then Some(e.event.result.status) else None)
            && f.userMessage == (if MessageOf(e.event).Some? then MessageOf(e.event)
                                 else if e.event.Returned? then None else e.promptId)
            && f.assistantMessage == (if e.event.Returned? then e.event.result.assistantMessage else None)
  {
  }

  lemma ProvidedKeeps(a: Worker, id: WorkerId, e: Env, w: Worker)
    requires Provided(a, id, e, w)
    ensures w.Attempts() == a.Attempts() && w.HasSession() && (a.AcceptedAbort() ==> w.AcceptedAbort())
    ensures w == a.(id := w.id, abort := w.abort, lifecycle := w.lifecycle, session := w.session, cleanup := w.cleanup)
    ensures w.session == (if a.HasSession() then a.session else Some(e.provision.session))
    ensures w.cleanup == (if a.HasSession() || !e.cleanupRequested then a.cleanup
                          else SessionRemembered(a, e.provision.session).cleanup)
    ensures !a.HasSession() ==> e.provision.Creates?
    ensures !w.AcceptedAbort() ==> w.lifecycle == a.lifecycle
  {
    AbortsOverlay(id, a, e.aborts(0));
  }

  /** An attempt adds to a numbered log exactly the attempt that it made, finished. */
  lemma AttemptIsLogged(workers: WorkerMap, id: WorkerId, e: Env)
    requires id in workers && AttemptRun(workers, id, e).Ran? && NumberedLog(workers[id])
    ensures var r := AttemptRun(workers, id, e); id in r.workers && LogGains(workers[id], r.workers[id], e, r.error)
  {
    hide AttemptRun, Provided, WrittenFrom, FinishedIn, DecideAttempt;
    var a := workers[id];
    var v := AttemptStages(workers, id, e);
    ProvidedKeeps(a, id, e, v.provided);
    WritePayloads(id, v.provided, NoId, false, e);
    WritePayloads(id, v.provisioned, NoId, false, e);
    QuietStage(id, v.provided, e.aborts(1), ProvisionedWrite(id, v.provided), v.provisioned);
    QuietStage(id, v.provisioned, e.aborts(2), ActiveWrite(id, v.provisioned, e.now), v.active);
    StagesLog(a, id, e, v);
  }

  lemma StagesLog(a: Worker, id: WorkerId, e: Env, v: Stages)
    requires NumberedLog(a) && v.active.Attempts() == a.Attempts() && (a.HasSession() || e.provision.Creates?)
    requires var created := !a.HasSession();
             && WrittenFrom(id, v.active, e.aborts(3), StartedWrite(id, v.active, e, created), v.started)
             && WrittenFrom(id, v.started, e.aborts(4),
                            OutcomeWrite(id, v.started, AttemptOf(v.active, e, created).id, e), v.ended)
    ensures LogGains(a, v.ended, e, DecideAttempt(v.started, Classify(e.event), e.now).error)
  {
    hide WrittenFrom, FinishedIn, DecideAttempt, Recorded;
    var attempt := AttemptOf(v.active, e, !a.HasSession());
    StartedStage(id, v.active, e.aborts(3), e, !a.HasSession(), v.started);
    OutcomeStage(id, v.started, e.aborts(4), attempt.id, e, v.ended);
    var f := OutcomeWrite(id, v.started, attempt.id, e).finalization.value;
    LastFinished(v.started.Attempts(), f, v.ended.Attempts(), |a.Attempts()|);
    if v.started.Attempts() == a.Attempts() + [attempt] {
      FinishedRecords(a, id, e, v);
      assert v.ended.Attempts()[..|a.Attempts()|] == a.Attempts();
    }
  }

  lemma FinishedRecords(a: Worker, id: WorkerId, e: Env, v: Stages)
    requires v.active.Attempts() == a.Attempts() && (a.HasSession() || e.provision.Creates?)
    requires v.started.session == v.active.session && v.ended.session == v.started.session
    requires var attempt := AttemptOf(v.active, e, !a.HasSession());
             && WrittenFrom(id, v.started, e.aborts(4), OutcomeWrite(id, v.started, attempt.id, e), v.ended)
             && |v.ended.Attempts()| == |a.Attempts()| + 1
             && FinishedAs(attempt, OutcomeWrite(id, v.started, attempt.id, e).finalization.value,
                           v.ended.Attempts()[|a.Attempts()|])
    ensures Recorded(a, v.ended, e, DecideAttempt(v.started, Classify(e.event), e.now).error,
                     v.ended.Attempts()[|a.Attempts()|])
  {
    hide WrittenFrom, DecideAttempt;
    var attemptId := AttemptOf(v.active, e, !a.HasSession()).id;
    FinalizationRecords(id, v.started, attemptId, e);
    if !v.ended.AcceptedAbort() { RetryState(id, v.started, e.aborts(4), attemptId, e, v.ended); }
  }

  lemma RetryState(id: WorkerId, w: Worker, foreign: seq<AbortWrite>, attemptId: AttemptId, e: Env, n: Worker)
    requires WrittenFrom(id, w, foreign, OutcomeWrite(id, w, attemptId, e), n) && !n.AcceptedAbort()
    ensures n.lifecycle == ActiveRetry <==> DecideAttempt(w, Classify(e.event), e.now).payload.RetryScheduled?
  {
    hide AbortsOn, Offer, Legal, DecideAttempt, LogShown, KnowsPrompts;
    var s, t := AbortsOn(id, w, foreign), OutcomeWrite(id, w, attemptId, e);
    DecisionPayload(w, e);
    OfferShows(s, t);
    if s.AcceptedAbort() { AcceptedAbortStep(s, t); }
  }

  /** If no attempt of the log was unfinished, none is. */
  lemma NothingIsLeftUnfinished(a: Worker, b: Worker, e: Env, error: Option<string>)
    requires LogGains(a, b, e, error) && forall i :: 0 <= i < |a.Attempts()| ==> !Unfinished(a.Attempts()[i])
    ensures forall i :: 0 <= i < |b.Attempts()| ==> !Unfinished(b.Attempts()[i])
  {
    if |b.Attempts()| == |a.Attempts()| + 1 {
      forall i | 0 <= i < |a.Attempts()| ensures b.Attempts()[i] == a.Attempts()[i] { }
    }
  }

  // ----- The outcome on the worker -----

  function ReasonOf(event: PromptEvent): string {
    match event
    case Returned(_) => ""
    case BlockingTimeout(reason, _) => reason
    case DeadlineTimeout(reason, _) => reason
    case TransportTimeout(reason) => reason
    case ApiError(reason) => reason
    case ProviderError(reason, _) => reason
  }

  /** The session an attempt works in: the worker's own, or the one created for it. */
  function SessionUsed(a: Worker, e: Env): Option<SessionId> {
    if a.HasSession() then a.session else if e.provision.Creates? then Some(e.provision.session) else None
  }

  /** The cleanup record: a session created for cleanup is remembered. */
  function CleanupKept(a: Worker, e: Env): Option<Cleanup> {
    if a.HasSession() || !e.cleanupRequested || !e.provision.Creates? then a.cleanup
    else SessionRemembered(a, e.provision.session).cleanup
  }

  /** A worker that waits to retry forgets the message ids of the failed attempt. */
  predicate PromptKept(a: Worker, m: string) {
    m in a.promptIds && !(a.lifecycle == ActiveRetry && a.lastFailureCategory.Some?)
  }

  predicate PromptSent(message: Option<string>, m: string) { message == Some(m) && m != "" }

  /** The message ids that the outcome adds: those of a result or of a provider's failure. */
  function NewMessages(event: PromptEvent): seq<string> {
    if (event.Returned? || event.ProviderError?) && MessageOf(event).Some? then [MessageOf(event).value] else []
  }

  /** A worker that nobody aborted shows the result or the failure, the instant the attempt began, and the session and
      cleanup it was provided with. */
  ghost predicate OutcomeShown(a: Worker, b: Worker, e: Env) {
    && b.session == SessionUsed(a, e)
    && b.timeoutStartedAt == (if a.timeoutSeconds.Some? then Some(e.now) else None)
    && (forall m :: m in b.promptIds <==> PromptKept(a, m) || PromptSent(e.promptId, m) || m in NewMessages(e.event))
    && b.cleanup == CleanupKept(a, e)
    && if e.event.Returned? then
         && b.result == Some(e.event.result) && b.failureCategory == None && b.failureReason == None
         && (e.event.result.status == Done ==> ShowsNothing(b) && OutputsMessage(b, e.event.result.assistantMessage))
       else
         var category := EventCategory(e.event).value;
         && (if b.lifecycle == ActiveRetry
             then ShowsNothing(b) && ShowsLastFailure(b, category, ReasonOf(e.event))
             else ShowsFailure(b, category, ReasonOf(e.event)))
         && (category == TimeoutFailure ==>
               && b.timedOutAt == Some(e.now)
               && b.manualRetryRequired == (if Budget(a, TimeoutFailure) then Some(true) else None))
  }

  /** What the attempt carries along: configuration, budget, session and cleanup. */
  predicate Carried(a: Worker, e: Env, w: Worker) {
    && SameConfig(a, w) && w.retryCount == a.retryCount
    && w.session == SessionUsed(a, e)
    && w.cleanup == CleanupKept(a, e)
  }

  /** Before it is active the worker shows what it showed of its prompts and its last failure. */
  predicate Unopened(a: Worker, w: Worker) {
    && w.promptIds == a.promptIds && w.lastFailureCategory == a.lastFailureCategory
    && (!w.AcceptedAbort() ==> w.lifecycle == a.lifecycle)
  }

  /** The message ids that are kept, and the sent one once it is sent. */
  ghost predicate Knows(a: Worker, sent: Option<string>, w: Worker) {
    forall m :: m in w.promptIds <==> PromptKept(a, m) || PromptSent(sent, m)
  }

  /** While it runs the worker waits, nothing of the last attempt shows, and the lease runs from the clock. */
  predicate Opened(a: Worker, e: Env, w: Worker) {
    && w.lifecycle == ActiveWait && ShowsNothing(w)
    && w.timeoutStartedAt == (if a.timeoutSeconds.Some? then Some(e.now) else None)
  }

  lemma StageShows(id: WorkerId, w: Worker, foreign: seq<AbortWrite>, t: Transition, n: Worker)
    requires WrittenFrom(id, w, foreign, t, n) && !t.payload.SnapshotApplied? && !n.AcceptedAbort()
    ensures var s := AbortsOn(id, w, foreign);
            && !s.AcceptedAbort() && !w.AcceptedAbort() && s == w.(id := s.id, abort := s.abort)
            && FieldsShown(s, t.workerId, t.payload, n)
  {
    hide AbortsOn, Offer, Legal, FieldsShown, LogShown;
    var s := AbortsOn(id, w, foreign);
    AbortsOverlay(id, w, foreign);
    OfferShows(s, t);
    if s.AcceptedAbort() { AcceptedAbortStep(s, t); }
  }

  lemma ProvisionedFields(a: Worker, id: WorkerId, e: Env, w: Worker, n: Worker)
    requires Carried(a, e, w) && Unopened(a, w) && w.HasSession() && !n.AcceptedAbort()
    requires WrittenFrom(id, w, e.aborts(1), ProvisionedWrite(id, w), n)
    ensures Carried(a, e, n) && Unopened(a, n) && !w.AcceptedAbort()
  {
    hide WrittenFrom, AbortsOn;
    StageShows(id, w, e.aborts(1), ProvisionedWrite(id, w), n);
  }

  lemma ActiveFields(a: Worker, id: WorkerId, e: Env, w: Worker, n: Worker)
    requires Carried(a, e, w) && Unopened(a, w) && !n.AcceptedAbort()
    requires WrittenFrom(id, w, e.aborts(2), ActiveWrite(id, w, e.now), n)
    ensures Carried(a, e, n) && Opened(a, e, n) && Knows(a, None, n) && !w.AcceptedAbort()
  {
    hide WrittenFrom, AbortsOn;
    StageShows(id, w, e.aborts(2), ActiveWrite(id, w, e.now), n);
  }

  lemma StartedFields(a: Worker, id: WorkerId, e: Env, w: Worker, n: Worker)
    requires Carried(a, e, w) && Opened(a, e, w) && Knows(a, None, w) && !n.AcceptedAbort()
    requires WrittenFrom(id, w, e.aborts(3), StartedWrite(id, w, e, !a.HasSession()), n)
    ensures Carried(a, e, n) && Opened(a, e, n) && !w.AcceptedAbort() && Knows(a, e.promptId, n)
  {
    hide WrittenFrom, AbortsOn;
    StageShows(id, w, e.aborts(3), StartedWrite(id, w, e, !a.HasSession()), n);
    var s := AbortsOn(id, w, e.aborts(3));
    assert n.promptIds == s.promptIds + n.promptIds[|s.promptIds|..];
  }

  /** The decision's payload carries the event, and whether the budget covers it. */
  predicate Decided(a: Worker, w: Worker, e: Env, p: Payload) {
    if e.event.Returned? then
      && p.ResultApplied? && p.result == e.event.result && p.startedAt == Set(w.timeoutStartedAt)
      && p.promptIds == NewMessages(e.event)
    else
      var category := EventCategory(e.event).value;
      if category == TimeoutFailure then
        && p.TimedOut? && p.reason == ReasonOf(e.event) && p.timedOutAt == e.now
        && p.manualRetryRequired == Budget(a, TimeoutFailure) && p.startedAt == Set(w.timeoutStartedAt)
      else if Budget(a, category) then
        && p.RetryScheduled? && p.category == category && p.reason == ReasonOf(e.event)
        && p.startedAt == Set(w.timeoutStartedAt) && p.promptIds == NewMessages(e.event)
      else
        && p.FailedWith? && p.category == category && p.reason == ReasonOf(e.event)
        && p.startedAt == Set(w.timeoutStartedAt) && p.promptIds == NewMessages(e.event)
  }

  lemma DecisionCarries(a: Worker, e: Env, w: Worker)
    requires Carried(a, e, w) && Opened(a, e, w)
    ensures Decided(a, w, e, DecideAttempt(w, Classify(e.event), e.now).payload)
  {
  }

  lemma EndedFields(a: Worker, id: WorkerId, e: Env, attemptId: AttemptId, w: Worker, n: Worker)
    requires Carried(a, e, w) && Opened(a, e, w) && Knows(a, e.promptId, w) && !n.AcceptedAbort()
    requires WrittenFrom(id, w, e.aborts(4), OutcomeWrite(id, w, attemptId, e), n)
    ensures OutcomeShown(a, n, e) && !w.AcceptedAbort()
  {
    hide WrittenFrom, AbortsOn, DecideAttempt, KnowsPrompts;
    var t := OutcomeWrite(id, w, attemptId, e);
    DecisionPayload(w, e);
    DecisionCarries(a, e, w);
    StageShows(id, w, e.aborts(4), t, n);
    PayloadShown(a, e, w, AbortsOn(id, w, e.aborts(4)), id, t.payload, n);
  }

  lemma PayloadShown(a: Worker, e: Env, w: Worker, s: Worker, id: WorkerId, p: Payload, n: Worker)
    requires Carried(a, e, w) && Opened(a, e, w) && Knows(a, e.promptId, w) && s == w.(id := s.id, abort := s.abort)
    requires Decided(a, w, e, p) && FieldsShown(s, id, p, n)
    ensures OutcomeShown(a, n, e)
  {
    hide KnowsPrompts;
    if !p.TimedOut? { PromptsKnown(s, p, n); }
  }

  lemma PromptsKnown(s: Worker, p: Payload, n: Worker)
    requires s.lifecycle == ActiveWait
    requires p.ResultApplied? || p.RetryScheduled? || p.FailedWith?
    requires KnowsPrompts(s, n, p.promptIds)
    ensures forall m :: m in n.promptIds <==> m in s.promptIds || m in p.promptIds
  {
    hide MergedOf;
    if p.promptIds != [] { MergedMembers(n.promptIds, s.promptIds, p.promptIds); }
  }

  /** Unless an abort is accepted meanwhile, the worker shows the attempt's outcome. */
  lemma OutcomeIsShown(workers: WorkerMap, id: WorkerId, e: Env)
    requires id in workers && AttemptRun(workers, id, e).Ran?
    ensures var r := AttemptRun(workers, id, e);
            id in r.workers && (!r.workers[id].AcceptedAbort() ==> OutcomeShown(workers[id], r.workers[id], e))
  {
    hide AttemptRun, Provided, WrittenFrom, OutcomeShown;
    var a := workers[id];
    var v := AttemptStages(workers, id, e);
    if !v.ended.AcceptedAbort() { StagesShow(a, id, e, v); }
  }

  lemma StagesShow(a: Worker, id: WorkerId, e: Env, v: Stages)
    requires Passes(a, id, e, v) && !v.ended.AcceptedAbort()
    ensures OutcomeShown(a, v.ended, e)
  {
    hide Provided, WrittenFrom, OutcomeShown, Opened, Carried, Unopened, Knows, DecideAttempt;
    ProvidedKeeps(a, id, e, v.provided);
    CarriesProvided(a, id, e, v.provided);
    var attemptId := AttemptOf(v.active, e, !a.HasSession()).id;
    EarlierNotAborted(a, id, e, v);
    ProvisionedFields(a, id, e, v.provided, v.provisioned);
    ActiveFields(a, id, e, v.provisioned, v.active);
    StartedFields(a, id, e, v.active, v.started);
    EndedFields(a, id, e, attemptId, v.started, v.ended);
  }

  /** Under way, the attempt is the last one of a numbered log, and the worker shows nothing but that it waits. */
  lemma StartedStages(a: Worker, id: WorkerId, e: Env, v: Stages)
    requires PassesToStarted(a, id, e, v) && NumberedLog(a) && !v.started.AcceptedAbort()
    ensures Carried(a, e, v.started) && Opened(a, e, v.started)
    ensures v.started.Attempts() == a.Attempts() + [AttemptOf(v.active, e, !a.HasSession())]
  {
    hide Provided, WrittenFrom, Opened, Carried, Unopened, Knows, AttemptOf, FieldsShown;
    ProvidedKeeps(a, id, e, v.provided);
    CarriesProvided(a, id, e, v.provided);
    StageShows(id, v.active, e.aborts(3), StartedWrite(id, v.active, e, !a.HasSession()), v.started);
    StageShows(id, v.provisioned, e.aborts(2), ActiveWrite(id, v.provisioned, e.now), v.active);
    ProvisionedFields(a, id, e, v.provided, v.provisioned);
    ActiveFields(a, id, e, v.provisioned, v.active);
    StartedFields(a, id, e, v.active, v.started);
    WritePayloads(id, v.provided, NoId, false, e);
    WritePayloads(id, v.provisioned, NoId, false, e);
    UnfinalizedWrites(id, v.provided, v.provisioned, e);
    QuietStage(id, v.provided, e.aborts(1), ProvisionedWrite(id, v.provided), v.provisioned);
    QuietStage(id, v.provisioned, e.aborts(2), ActiveWrite(id, v.provisioned, e.now), v.active);
    StartedStage(id, v.active, e.aborts(3), e, !a.HasSession(), v.started);
  }

  lemma CarriesProvided(a: Worker, id: WorkerId, e: Env, w: Worker)
    requires Provided(a, id, e, w)
    ensures Carried(a, e, w) && Unopened(a, w)
  {
    hide Provided;
    ProvidedKeeps(a, id, e, w);
  }

  lemma UnfinalizedWrites(id: WorkerId, a: Worker, b: Worker, e: Env)
    ensures ProvisionedWrite(id, a).finalization.None? && ActiveWrite(id, b, e.now).finalization.None?
  {
  }

  lemma EarlierNotAborted(a: Worker, id: WorkerId, e: Env, v: Stages)
    requires Passes(a, id, e, v) && !v.ended.AcceptedAbort()
    ensures !v.started.AcceptedAbort() && !v.active.AcceptedAbort() && !v.provisioned.AcceptedAbort()
  {
    hide Provided, WrittenFrom, DecideAttempt, FieldsShown, AbortsOn;
    var attemptId := AttemptOf(v.active, e, !a.HasSession()).id;
    WritePayloads(id, v.started, attemptId, !a.HasSession(), e);
    StageShows(id, v.started, e.aborts(4), OutcomeWrite(id, v.started, attemptId, e), v.ended);
    StageShows(id, v.active, e.aborts(3), StartedWrite(id, v.active, e, !a.HasSession()), v.started);
    StageShows(id, v.provisioned, e.aborts(2), ActiveWrite(id, v.provisioned, e.now), v.active);
  }
}
