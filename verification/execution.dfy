/** One worker attempt as a sequence of persisted writes, with run-abort writes landing between any two of them. */
module Execution {
  import opened Common
  import opened Lifecycle
  import opened Workers
  import opened LifecycleLaws
  import opened DependencyAnalysis
  import opened Planner

  // ----- Concurrent abort commands -----

  datatype AbortWrite = AbortWrite(workerId: WorkerId, abort: Abort)

  function AbortTransition(a: AbortWrite): Transition {
    Transition(a.workerId, AbortRecorded(a.abort), None)
  }

  /** A run abort needs a worker with a session; an illegal abort raises and writes nothing. */
  function AbortOne(id: WorkerId, w: Worker, a: AbortWrite): Worker {
    if a.workerId == id && w.HasSession() then Offer(w, AbortTransition(a)) else w
  }

  function AbortsOn(id: WorkerId, w: Worker, writes: seq<AbortWrite>): Worker
    decreases |writes|
  {
    if writes == [] then w else AbortsOn(id, AbortOne(id, w, writes[0]), writes[1..])
  }

  function Interfere(workers: WorkerMap, writes: seq<AbortWrite>): WorkerMap {
    map id | id in workers :: AbortsOn(id, workers[id], writes)
  }

  lemma InterfereNothing(workers: WorkerMap)
    ensures Interfere(workers, []) == workers
  {
  }

  /** b is a with aborts recorded on it: same lifecycle state, or moved to aborted by an accepted abort. */
  predicate Overlay(a: Worker, b: Worker) {
    && b == a.(id := b.id, abort := b.abort, lifecycle := b.lifecycle)
    && (a.AcceptedAbort() ==> b.AcceptedAbort())
    && (b.lifecycle == a.lifecycle || (b.AcceptedAbort() && IsSource(AbortedName, a.lifecycle)))
  }

  lemma AbortOneOverlays(id: WorkerId, w: Worker, a: AbortWrite)
    ensures Overlay(w, AbortOne(id, w, a))
  {
    if a.workerId == id && w.AcceptedAbort() { AcceptedAbortStep(w, AbortTransition(a)); }
  }

  lemma OverlayTransitive(a: Worker, b: Worker, c: Worker)
    requires Overlay(a, b) && Overlay(b, c)
    ensures Overlay(a, c)
  {
  }

  /** Aborts overlay a worker that has a session, and never touch one that has none. */
  lemma {:induction false} AbortsOverlay(id: WorkerId, w: Worker, writes: seq<AbortWrite>)
    ensures Overlay(w, AbortsOn(id, w, writes))
    ensures !w.HasSession() ==> AbortsOn(id, w, writes) == w
    decreases |writes|
  {
    if writes != [] {
      var next := AbortOne(id, w, writes[0]);
      AbortOneOverlays(id, w, writes[0]);
      AbortsOverlay(id, next, writes[1..]);
      OverlayTransitive(w, next, AbortsOn(id, next, writes[1..]));
    }
  }

  // ----- The attempt policy -----

  datatype AttemptOutcome =
    | AttemptReturned(result: Result)
    | AttemptRaised(category: Category, reason: string, promptId: Option<string>)

  /** What a blocking prompt call can end in; unclassified exceptions are not modelled. */
  datatype PromptEvent =
    | Returned(result: Result)
    | BlockingTimeout(reason: string, promptId: Option<string>)
    | DeadlineTimeout(reason: string, promptId: Option<string>)
    | TransportTimeout(reason: string)
    | ApiError(reason: string)
    | ProviderError(reason: string, promptId: Option<string>)

  function Classify(event: PromptEvent): AttemptOutcome {
    match event
    case Returned(result) => AttemptReturned(result)
    case BlockingTimeout(reason, promptId) => AttemptRaised(TimeoutFailure, reason, promptId)
    case DeadlineTimeout(reason, promptId) => AttemptRaised(TimeoutFailure, reason, promptId)
    case TransportTimeout(reason) => AttemptRaised(TimeoutFailure, reason, None)
    case ApiError(reason) => AttemptRaised(ApiFailure, reason, None)
    case ProviderError(reason, promptId) => AttemptRaised(ProviderFailure, reason, promptId)
  }

  datatype Decision =
    Decision(status: AttemptStatus, error: Option<string>, category: Option<Category>, payload: Payload)

  function ListedId(id: Option<string>): seq<string> {
    if id.Some? then [id.value] else []
  }

  function DecideAttempt(w: Worker, outcome: AttemptOutcome, now: Instant): Decision {
    match outcome
    case AttemptReturned(result) =>
      Decision(AttemptCompleted, None, None,
               ResultApplied(result, ListedId(result.userMessage), Set(w.timeoutStartedAt)))
    case AttemptRaised(category, reason, promptId) =>
      var available := w.RetryAvailable(Some(category));
      if category == TimeoutFailure then
        Decision(AttemptFailed, Some(reason), Some(category),
                 TimedOut(reason, w.timeoutPolicy, now, available, available, Set(w.timeoutStartedAt)))
      else if category == ApiFailure || category == ProviderFailure then
        var ids := if category == ProviderFailure then ListedId(promptId) else [];
        if available then
          Decision(AttemptRetryScheduled, None, Some(category),
                   RetryScheduled(category, reason, w.retryCount + 1, Set(w.timeoutStartedAt), ids))
        else
          Decision(AttemptFailed, Some(reason), Some(category),
                   FailedWith(category, reason, true, available, Set(w.timeoutStartedAt), ids))
      else
        Decision(AttemptFailed, Some(reason), Some(UnknownFailure),
                 FailedWith(UnknownFailure, reason, true, w.RetryAvailable(Some(UnknownFailure)),
                            Set(w.timeoutStartedAt), []))
  }

  function FinalizationOf(attemptId: AttemptId, d: Decision, outcome: AttemptOutcome, promptId: Option<string>,
                          now: Instant): Finalization {
    match outcome
    case AttemptReturned(result) =>
      Finalization(attemptId, d.status, now, d.error, d.category,
                   Some(result.status), result.userMessage, result.assistantMessage)
    case AttemptRaised(_, _, raisedId) =>
      Finalization(attemptId, d.status, now, d.error, d.category,
                   None, if raisedId.Some? then raisedId else promptId, None)
  }

  // ----- The executor, as a sequence of writes -----

  /** The server's answer is refused unless it names the new session. */
  type NewSession = s: SessionId | s != "" witness "session"

  datatype Provision = Creates(session: NewSession) | CreationFails(error: string)

  /** What an attempt does not decide itself: foreign writes before each write, the server's answers, the clock. */
  datatype Env = Env(
    aborts: nat -> seq<AbortWrite>,
    provision: Provision,
    event: PromptEvent,
    promptId: Option<string>,
    cleanupRequested: bool,
    now: Instant)

  datatype Attempted =
    | Ran(workers: WorkerMap, error: Option<string>)
    | ProvisionFailed(workers: WorkerMap, reason: string)
    | Illegal(workers: WorkerMap)

  /** One persisted transition, after the foreign writes that landed before it. */
  function Write(workers: WorkerMap, foreign: seq<AbortWrite>, t: Transition): Option<WorkerMap> {
    ApplyBatch(Interfere(workers, foreign), [t])
  }

  function AttachSession(workers: WorkerMap, id: WorkerId, session: SessionId, cleanup: bool): WorkerMap {
    var w := Latest(workers, id).(session := Some(session));
    workers[id := if cleanup then SessionRemembered(w, session) else w]
  }

  /** The run once the worker has a session, or None when creating it failed. */
  function Provisioning(workers: WorkerMap, id: WorkerId, e: Env): Option<WorkerMap>
    requires id in workers
  {
    if workers[id].HasSession() then Some(workers)
    else if e.provision.CreationFails? then None
    else Some(AttachSession(Interfere(workers, e.aborts(0)), id, e.provision.session, e.cleanupRequested))
  }

  function ProvisionedWrite(id: WorkerId, w: Worker): Transition {
    Transition(id, Provisioned(w.session, w.agent, w.model), None)
  }

  function ActiveWrite(id: WorkerId, w: Worker, now: Instant): Transition {
    var startedAt := Set(if w.timeoutSeconds.Some? then Some(now) else None);
    Transition(id, Activated(startedAt, w.PromptIdsAreRetryMarker()), None)
  }

  function AttemptOf(w: Worker, e: Env, created: bool): Attempt {
    NewAttempt(w, e.now, if created && e.provision.Creates? then [e.provision.session] else [], e.promptId)
  }

  function StartedWrite(id: WorkerId, w: Worker, e: Env, created: bool): Transition {
    Transition(id, AttemptStarted(AttemptOf(w, e, created)), None)
  }

  function OutcomeWrite(id: WorkerId, w: Worker, attemptId: AttemptId, e: Env): Transition {
    var outcome := Classify(e.event);
    var d := DecideAttempt(w, outcome, e.now);
    Transition(id, d.payload, Some(FinalizationOf(attemptId, d, outcome, e.promptId, e.now)))
  }

  /** Each payload is computed from the worker that the previous write returned. */
  function AttemptRun(workers: WorkerMap, id: WorkerId, e: Env): Attempted
    requires id in workers
  {
    match Provisioning(workers, id, e)
    case None => ProvisionFailed(Interfere(workers, e.aborts(0)), e.provision.error)
    case Some(s0) =>
    match Write(s0, e.aborts(1), ProvisionedWrite(id, s0[id]))
    case None => Illegal(s0)
    case Some(s1) => AttemptAfterProvisioning(s1, id, e, !workers[id].HasSession())
  }

  function AttemptAfterProvisioning(s1: WorkerMap, id: WorkerId, e: Env, created: bool): Attempted {
    match Write(s1, e.aborts(2), ActiveWrite(id, Latest(s1, id), e.now))
    case None => Illegal(s1)
    case Some(s2) =>
    match Write(s2, e.aborts(3), StartedWrite(id, Latest(s2, id), e, created))
    case None => Illegal(s2)
    case Some(s3) =>
    var w := Latest(s3, id);
    match Write(s3, e.aborts(4), OutcomeWrite(id, w, AttemptOf(Latest(s2, id), e, created).id, e))
    case None => Illegal(s3)
    case Some(s4) => Ran(s4, DecideAttempt(w, Classify(e.event), e.now).error)
  }

  lemma WriteAt(workers: WorkerMap, foreign: seq<AbortWrite>, t: Transition)
    requires t.workerId in workers
    ensures var w := AbortsOn(t.workerId, workers[t.workerId], foreign);
            Write(workers, foreign, t) ==
            if Apply(w, t) == Skipped(false) then None
            else Some(Interfere(workers, foreign)[t.workerId := Offer(w, t)])
  {
    var s := Interfere(workers, foreign);
    assert [t][1..] == [];
    assert ApplyBatch(s[t.workerId := Offer(s[t.workerId], t)], []) == Some(s[t.workerId := Offer(s[t.workerId], t)]);
  }

  // ----- What one attempt does to its worker -----

  /** The fields that no transition changes. */
  predicate SameConfig(a: Worker, b: Worker) {
    && a.prompt == b.prompt && a.dependencies == b.dependencies && a.retryLimit == b.retryLimit
    && a.retryableFailures == b.retryableFailures && a.timeoutPolicy == b.timeoutPolicy
    && a.timeoutSeconds == b.timeoutSeconds
  }

  /** The retry budget as configured, whatever the last attempt left in the failure fields. */
  predicate Budget(w: Worker, category: Category) {
    (category in w.retryableFailures || AllFailures in w.retryableFailures) && w.retryCount < w.retryLimit
  }

  /** A retry is available exactly within the budget, unless the last failure was not to be retried. */
  lemma AvailableIff(w: Worker, category: Category)
    ensures w.RetryAvailable(Some(category)) <==> w.failureRetryable != Some(false) && Budget(w, category)
  {
  }

  /** The worker is where the executor left it, or its abort was accepted meanwhile. */
  predicate AtOrAborted(w: Worker, s: State) {
    w.lifecycle == s || w.AcceptedAbort()
  }

  predicate Startable(w: Worker) {
    IsSource(ProvisionedName, w.lifecycle) || w.AcceptedAbort()
  }

  /** Before the attempt is active: still startable with the budget it began with, or aborted. */
  predicate Prepared(a: Worker, w: Worker) {
    && SameConfig(a, w) && Startable(w)
    && (w.AcceptedAbort() || w.retryCount == a.retryCount)
    && (a.AcceptedAbort() ==> w.AcceptedAbort())
  }

  /** Mid-attempt: waiting with the failure fields cleared, or aborted. */
  predicate Running(a: Worker, w: Worker) {
    && SameConfig(a, w) && AtOrAborted(w, ActiveWait)
    && (!w.AcceptedAbort() ==> w.retryCount == a.retryCount && w.failureRetryable == None)
    && (a.AcceptedAbort() ==> w.AcceptedAbort())
  }

  function EndState(a: Worker, outcome: AttemptOutcome): State {
    match outcome
    case AttemptReturned(result) => ResultState(result.status)
    case AttemptRaised(category, _, _) =>
      if category == TimeoutFailure then TimeoutState(a.timeoutPolicy, Budget(a, category))
      else if Budget(a, category) then ActiveRetry else FailedTerminal
  }

  /** The whole effect of an attempt on scheduling: where the worker ends and what is left of its budget. */
  predicate Finished(a: Worker, b: Worker, event: PromptEvent) {
    && SameConfig(a, b)
    && (a.AcceptedAbort() ==> b.AcceptedAbort())
    && (b.AcceptedAbort() ||
        (b.lifecycle == EndState(a, Classify(event)) &&
         b.retryCount == a.retryCount + if b.lifecycle == ActiveRetry then 1 else 0))
  }

  /** The attempt completes, or an api or provider failure is within the budget. */
  predicate Progresses(a: Worker, event: PromptEvent) {
    match event
    case Returned(_) => true
    case ApiError(_) => Budget(a, ApiFailure)
    case ProviderError(_, _) => Budget(a, ProviderFailure)
    case _ => false
  }

  /** An attempt of a worker that is not aborted reports an error exactly if it did not progress. */
  predicate ErrorTells(a: Worker, b: Worker, event: PromptEvent, error: Option<string>) {
    !b.AcceptedAbort() ==> (error.None? <==> Progresses(a, event))
  }

  lemma DecisionTells(a: Worker, w: Worker, e: Env)
    requires Running(a, w)
    ensures ErrorTells(a, w, e.event, DecideAttempt(w, Classify(e.event), e.now).error)
  {
  }

  lemma ProvisionedStep(a: Worker, w: Worker, id: WorkerId, payload: Worker)
    requires Prepared(a, w)
    ensures var t := ProvisionedWrite(id, payload); Apply(w, t).Applied? && Prepared(a, Offer(w, t))
  {
  }

  lemma ActiveStep(a: Worker, w: Worker, id: WorkerId, payload: Worker, now: Instant)
    requires Prepared(a, w)
    ensures var t := ActiveWrite(id, payload, now); Apply(w, t).Applied? && Running(a, Offer(w, t))
  {
  }

  lemma StartedStep(a: Worker, w: Worker, id: WorkerId, payload: Worker, e: Env, created: bool)
    requires Running(a, w)
    ensures var t := StartedWrite(id, payload, e, created); Apply(w, t).Applied? && Running(a, Offer(w, t))
  {
  }

  lemma OverlayKeeps(a: Worker, w: Worker, n: Worker)
    requires Overlay(w, n)
    ensures Running(a, w) ==> Running(a, n)
    ensures Prepared(a, w) ==> Prepared(a, n)
  {
  }

  /** The decision is legal and ends the attempt as EndState says, even if aborts landed after it was taken. */
  lemma OutcomeStep(a: Worker, payload: Worker, w: Worker, id: WorkerId, attemptId: AttemptId, e: Env)
    requires Running(a, payload) && Running(a, w) && (payload.AcceptedAbort() ==> w.AcceptedAbort())
    ensures var t := OutcomeWrite(id, payload, attemptId, e); Apply(w, t).Applied? && Finished(a, Offer(w, t), e.event)
    ensures !w.AcceptedAbort() ==>
              Offer(w, OutcomeWrite(id, payload, attemptId, e)).lifecycle == EndState(a, Classify(e.event))
    ensures w.AcceptedAbort() ==> Offer(w, OutcomeWrite(id, payload, attemptId, e)).AcceptedAbort()
  {
    var t := OutcomeWrite(id, payload, attemptId, e);
    TransitionKeepsConfig(w, t);
    if w.AcceptedAbort() {
      AcceptedAbortStep(w, t);
    } else {
      ReducedLifecycle(w, t);
      DecisionState(a, payload, e);
    }
  }

  predicate KeepsConfig(w: Worker, n: Worker, retryCount: int) {
    SameConfig(w, n) && n.retryCount == retryCount
  }

  lemma HelpersKeepConfig(w: Worker, latest: Worker, ids: seq<string>, merge: bool, s: Setting<Option<Instant>>)
    ensures KeepsConfig(w, MergePromptIds(w, latest, ids, merge), w.retryCount)
    ensures KeepsConfig(w, ClearStatusFields(w), w.retryCount) && KeepsConfig(w, WithStartedAt(w, s), w.retryCount)
  {
  }

  lemma StartKeepsConfig(w: Worker, id: WorkerId, p: Payload)
    requires p.Provisioned? || p.Activated? || p.AttemptStarted?
    ensures KeepsConfig(w, ReducePayload(w, id, p), w.retryCount)
  {
  }

  lemma StopKeepsConfig(w: Worker, id: WorkerId, p: Payload)
    requires p.DependencyBlocked? || p.AbortRecorded? || p.CleanupUpdated? || p.TimedOut? || p.SnapshotApplied?
    ensures KeepsConfig(w, ReducePayload(w, id, p), if p.SnapshotApplied? then p.snapshot.retryCount else w.retryCount)
  {
  }

  lemma FailureKeepsConfig(w: Worker, id: WorkerId, p: Payload)
    requires p.FailedWith? || p.RetryScheduled?
    ensures KeepsConfig(w, ReducePayload(w, id, p), if p.RetryScheduled? then p.retryCount else w.retryCount)
  {
  }

  lemma ResultKeepsConfig(w: Worker, id: WorkerId, p: Payload)
    requires p.ResultApplied?
    ensures KeepsConfig(w, ReducePayload(w, id, p), w.retryCount)
  {
    hide MergePromptIds, WithStartedAt, ClearStatusFields;
    var base := w.(id := id, lifecycle := ResultState(p.result.status), result := Some(p.result));
    HelpersKeepConfig(base, w, p.promptIds, false, p.startedAt);
    var started := WithStartedAt(base, p.startedAt);
    HelpersKeepConfig(started, w, p.promptIds, false, p.startedAt);
    var refs := if p.result.assistantMessage.Some? && p.result.assistantMessage.value != ""
                then ["assistant:" + p.result.assistantMessage.value] else [];
    var settled := if p.result.status == Done then ClearStatusFields(started).(outputRefs := refs)
                   else started.(failureCategory := None, failureReason := None);
    HelpersKeepConfig(settled, w, p.promptIds, false, p.startedAt);
  }

  lemma PayloadKeepsConfig(w: Worker, id: WorkerId, p: Payload)
    ensures var n := ReducePayload(w, id, p);
            && SameConfig(w, n)
            && (p.RetryScheduled? ==> n.retryCount == p.retryCount)
            && (!p.RetryScheduled? && !p.SnapshotApplied? ==> n.retryCount == w.retryCount)
  {
    hide ReducePayload;
    match p {
      case Provisioned(_, _, _) => StartKeepsConfig(w, id, p);
      case Activated(_, _) => StartKeepsConfig(w, id, p);
      case AttemptStarted(_) => StartKeepsConfig(w, id, p);
      case FailedWith(_, _, _, _, _, _) => FailureKeepsConfig(w, id, p);
      case RetryScheduled(_, _, _, _, _) => FailureKeepsConfig(w, id, p);
      case ResultApplied(_, _, _) => ResultKeepsConfig(w, id, p);
      case DependencyBlocked(_) => StopKeepsConfig(w, id, p);
      case AbortRecorded(_) => StopKeepsConfig(w, id, p);
      case TimedOut(_, _, _, _, _, _) => StopKeepsConfig(w, id, p);
      case CleanupUpdated(_) => StopKeepsConfig(w, id, p);
      case SnapshotApplied(_) => StopKeepsConfig(w, id, p);
    }
  }

  lemma PassthroughKeepsConfig(w: Worker, p: Payload, f: Option<Finalization>)
    ensures SameConfig(w, AbortPassthrough(w, p)) && AbortPassthrough(w, p).retryCount == w.retryCount
    ensures SameConfig(w, AttemptFinalized(w, f))
    ensures AttemptFinalized(w, f) == w.(attemptLog := AttemptFinalized(w, f).attemptLog)
  {
  }

  lemma TransitionKeepsConfig(w: Worker, t: Transition)
    requires !t.payload.SnapshotApplied?
    ensures var n := Offer(w, t);
            && SameConfig(w, n)
            && (!t.payload.RetryScheduled? ==> n.retryCount == w.retryCount)
            && (!w.AcceptedAbort() && Legal(w, t) && t.payload.RetryScheduled? ==> n.retryCount == t.payload.retryCount)
            && n.lifecycle == (if Legal(w, t) then Reduce(w, t).lifecycle else w.lifecycle)
  {
    PayloadKeepsConfig(w, t.workerId, t.payload);
    PassthroughKeepsConfig(w, t.payload, None);
    PassthroughKeepsConfig(Reduce(w, t), t.payload, t.finalization);
  }

  lemma DecisionState(a: Worker, w: Worker, e: Env)
    requires Running(a, w) && !w.AcceptedAbort()
    ensures var p := DecideAttempt(w, Classify(e.event), e.now).payload;
            && TargetOf(p) == Some(EndState(a, Classify(e.event)))
            && (p.RetryScheduled? <==> EndState(a, Classify(e.event)) == ActiveRetry)
            && (p.RetryScheduled? ==> p.retryCount == a.retryCount + 1)
            && (p.ResultApplied? || p.TimedOut? || p.FailedWith? || p.RetryScheduled?)
  {
  }

  /** How the run looks around a worker under execution: the others only ever gain aborts. */
  ghost predicate Elsewhere(before: WorkerMap, id: WorkerId, after: WorkerMap) {
    after.Keys == before.Keys && forall x :: x in before && x != id ==> Overlay(before[x], after[x])
  }

  lemma WriteElsewhere(before: WorkerMap, workers: WorkerMap, foreign: seq<AbortWrite>, t: Transition)
    requires t.workerId in workers && Elsewhere(before, t.workerId, workers)
    requires Apply(AbortsOn(t.workerId, workers[t.workerId], foreign), t).Applied?
    ensures var next := Write(workers, foreign, t);
            && next.Some? && Elsewhere(before, t.workerId, next.value)
            && next.value[t.workerId] == Offer(AbortsOn(t.workerId, workers[t.workerId], foreign), t)
  {
    WriteAt(workers, foreign, t);
    InterfereElsewhere(before, t.workerId, workers, foreign);
  }

  lemma InterfereElsewhere(before: WorkerMap, id: WorkerId, workers: WorkerMap, foreign: seq<AbortWrite>)
    requires Elsewhere(before, id, workers)
    ensures Elsewhere(before, id, Interfere(workers, foreign))
  {
    forall x | x in before && x != id ensures Overlay(before[x], Interfere(workers, foreign)[x]) {
      AbortsOverlay(x, workers[x], foreign);
      OverlayTransitive(before[x], workers[x], AbortsOn(x, workers[x], foreign));
    }
  }

  lemma SelfElsewhere(workers: WorkerMap, id: WorkerId)
    ensures Elsewhere(workers, id, workers)
  {
    forall x | x in workers ensures Overlay(workers[x], workers[x]) { }
  }

  lemma ProvisioningStep(workers: WorkerMap, id: WorkerId, e: Env)
    requires id in workers && Startable(workers[id]) && Provisioning(workers, id, e).Some?
    ensures var s := Provisioning(workers, id, e).value;
            && Elsewhere(workers, id, s) && id in s && Prepared(workers[id], s[id])
  {
    SelfElsewhere(workers, id);
    if !workers[id].HasSession() {
      InterfereElsewhere(workers, id, workers, e.aborts(0));
      AbortsOverlay(id, workers[id], e.aborts(0));
    }
  }

  /** No write of an attempt is illegal, whatever aborts are interleaved, the attempt ends as Finished says, and unless
      the worker was aborted an error is reported iff there was neither a result nor an api or provider failure that the
      budget covers. */
  lemma AttemptNeverIllegal(workers: WorkerMap, id: WorkerId, e: Env)
    requires id in workers && Startable(workers[id])
    ensures var r := AttemptRun(workers, id, e);
            && !r.Illegal? && Elsewhere(workers, id, r.workers) && id in r.workers
            && (r.Ran? ==> Finished(workers[id], r.workers[id], e.event)
                           && ErrorTells(workers[id], r.workers[id], e.event, r.error))
            && (r.ProvisionFailed? ==> Overlay(workers[id], r.workers[id]))
  {
    if Provisioning(workers, id, e).None? {
      SelfElsewhere(workers, id);
      InterfereElsewhere(workers, id, workers, e.aborts(0));
      AbortsOverlay(id, workers[id], e.aborts(0));
    } else {
      var a := workers[id];
      var s0 := Provisioning(workers, id, e).value;
      ProvisioningStep(workers, id, e);
      var w0 := AbortsOn(id, s0[id], e.aborts(1));
      AbortsOverlay(id, s0[id], e.aborts(1));
      OverlayKeeps(a, s0[id], w0);
      ProvisionedStep(a, w0, id, s0[id]);
      WriteElsewhere(workers, s0, e.aborts(1), ProvisionedWrite(id, s0[id]));
      var s1 := Write(s0, e.aborts(1), ProvisionedWrite(id, s0[id])).value;
      RestNeverIllegal(workers, a, s1, id, e, !a.HasSession());
    }
  }

  lemma RestNeverIllegal(before: WorkerMap, a: Worker, s1: WorkerMap, id: WorkerId, e: Env, created: bool)
    requires id in s1 && Elsewhere(before, id, s1) && Prepared(a, s1[id])
    ensures var r := AttemptAfterProvisioning(s1, id, e, created);
            && r.Ran? && Elsewhere(before, id, r.workers) && id in r.workers && Finished(a, r.workers[id], e.event)
            && ErrorTells(a, r.workers[id], e.event, r.error)
  {
    var active := ActiveWrite(id, s1[id], e.now);
    var w1 := AbortsOn(id, s1[id], e.aborts(2));
    AbortsOverlay(id, s1[id], e.aborts(2));
    OverlayKeeps(a, s1[id], w1);
    ActiveStep(a, w1, id, s1[id], e.now);
    WriteElsewhere(before, s1, e.aborts(2), active);
    var s2 := Write(s1, e.aborts(2), active).value;
    StartedNeverIllegal(before, a, s2, id, e, created);
    var s3 := Write(s2, e.aborts(3), StartedWrite(id, s2[id], e, created)).value;
    OutcomeNeverIllegal(before, a, s3, id, AttemptOf(s2[id], e, created).id, e);
    DecisionTells(a, s3[id], e);
  }

  lemma StartedNeverIllegal(before: WorkerMap, a: Worker, s: WorkerMap, id: WorkerId, e: Env, created: bool)
    requires id in s && Elsewhere(before, id, s) && Running(a, s[id])
    ensures var next := Write(s, e.aborts(3), StartedWrite(id, s[id], e, created));
            next.Some? && Elsewhere(before, id, next.value) && id in next.value && Running(a, next.value[id])
  {
    var w := AbortsOn(id, s[id], e.aborts(3));
    AbortsOverlay(id, s[id], e.aborts(3));
    OverlayKeeps(a, s[id], w);
    StartedStep(a, w, id, s[id], e, created);
    WriteElsewhere(before, s, e.aborts(3), StartedWrite(id, s[id], e, created));
  }

  lemma OutcomeNeverIllegal(before: WorkerMap, a: Worker, s: WorkerMap, id: WorkerId, attemptId: AttemptId, e: Env)
    requires id in s && Elsewhere(before, id, s) && Running(a, s[id])
    ensures var next := Write(s, e.aborts(4), OutcomeWrite(id, s[id], attemptId, e));
            && next.Some? && Elsewhere(before, id, next.value) && id in next.value
            && Finished(a, next.value[id], e.event)
            && (s[id].AcceptedAbort() ==> next.value[id].AcceptedAbort())
  {
    var w := AbortsOn(id, s[id], e.aborts(4));
    AbortsOverlay(id, s[id], e.aborts(4));
    OverlayKeeps(a, s[id], w);
    OutcomeStep(a, s[id], w, id, attemptId, e);
    WriteElsewhere(before, s, e.aborts(4), OutcomeWrite(id, s[id], attemptId, e));
  }
}
