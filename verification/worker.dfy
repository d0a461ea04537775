/** Worker snapshots, the transitions between them, and what each transition changes. */
module Workers {
  import opened Common
  import opened Lifecycle

  /** A failure category, or the wildcard that a worker may list as retryable. */
  datatype Category =
    | TimeoutFailure | ApiFailure | ProviderFailure | UnknownFailure | AllFailures | NamedFailure(name: string)

  datatype Blocker =
    | CycleBlocker(cycle: seq<WorkerId>)
    | NotRunnableBlocker(dependency: WorkerId)
    | DependencyBlocker(dependency: WorkerId)
    | TimeoutBlocker
    | NamedBlocker(name: string)

  datatype Cleanup = Cleanup(
    requested: bool,
    deleted: bool,
    sessions: Option<seq<SessionId>>,
    verified: Option<seq<SessionId>>,
    error: Option<string>)

  datatype Abort = Abort(accepted: bool, session: SessionId)

  datatype AttemptId = NoId | Numbered(n: nat) | NamedId(name: string)

  datatype AttemptStatus = AttemptActive | AttemptCompleted | AttemptRetryScheduled | AttemptFailed

  datatype Attempt = Attempt(
    id: AttemptId,
    session: Option<SessionId>,
    created: seq<SessionId>,
    status: AttemptStatus,
    startedAt: Option<Instant>,
    finishedAt: Option<Instant>,
    error: Option<string>,
    failureCategory: Option<Category>,
    resultStatus: Option<Status>,
    userMessage: Option<string>,
    assistantMessage: Option<string>)

  datatype Result = Result(status: Status, userMessage: Option<string>, assistantMessage: Option<string>)

  /** The value of WorkerRecord.to_snapshot, one component per modelled field. */
  datatype Worker = Worker(
    id: WorkerId,
    session: Option<SessionId>,
    agent: Option<string>,
    model: Option<string>,
    dependencies: seq<WorkerId>,
    promptIds: seq<string>,
    retryCount: int,
    retryLimit: int,
    retryableFailures: seq<Category>,
    timeoutSeconds: Option<nat>,
    timeoutPolicy: TimeoutPolicy,
    timeoutStartedAt: Option<Instant>,
    timedOutAt: Option<Instant>,
    lifecycle: State,
    failureCategory: Option<Category>,
    failureReason: Option<string>,
    lastFailureCategory: Option<Category>,
    lastFailureReason: Option<string>,
    blockers: seq<Blocker>,
    outputRefs: seq<string>,
    prompt: Option<string>,
    error: Option<string>,
    failureRetryable: Option<bool>,
    manualRetryRequired: Option<bool>,
    cleanup: Option<Cleanup>,
    abort: Option<Abort>,
    attemptLog: Option<seq<Attempt>>,
    result: Option<Result>)
  {
    predicate HasPrompt() { prompt.Some? && prompt.value != "" }

    predicate HasSession() { session.Some? && session.value != "" }

    function Status(): Status { PublicStatus(lifecycle) }

    function Attempts(): seq<Attempt> { GetOr(attemptLog, []) }

    predicate CanExecute() { HasPrompt() && Executable(lifecycle) }

    predicate CanBlock() { HasPrompt() && RunnableStatus(Status()) }

    predicate AcceptedAbort() { abort.Some? && abort.value.accepted && InAbortedStatus(lifecycle) }

    /** The prompt ids of a worker waiting to retry belong to the failed attempt. */
    predicate PromptIdsAreRetryMarker() { lifecycle == ActiveRetry && lastFailureCategory.Some? }

    predicate RetryAvailable(category: Option<Category>) {
      var effective :=
        if category.Some? then category else if failureCategory.Some? then failureCategory else lastFailureCategory;
      && failureRetryable != Some(false)
      && retryableFailures != []
      && (effective.Some? ==> effective.value in retryableFailures || AllFailures in retryableFailures)
      && retryCount < retryLimit
    }
  }

  function DefaultWorker(id: WorkerId): Worker {
    Worker(id, None, None, None, [], [], 0, 0, [], None, PolicyTimeout, None, None, Queued, None, None, None, None,
           [], [], None, None, None, None, None, None, None, None)
  }

  // ----- Transitions -----

  /** A payload field that may be left out, so that the reducer keeps the stored value. */
  datatype Setting<+T> = Unset | Set(value: T)

  datatype Finalization = Finalization(
    attemptId: AttemptId,
    status: AttemptStatus,
    finishedAt: Instant,
    error: Option<string>,
    failureCategory: Option<Category>,
    resultStatus: Option<Status>,
    userMessage: Option<string>,
    assistantMessage: Option<string>)

  datatype Payload =
    | Provisioned(session: Option<SessionId>, agent: Option<string>, model: Option<string>)
    | Activated(startedAt: Setting<Option<Instant>>, clearPromptIds: bool)
    | AttemptStarted(attempt: Attempt)
    | FailedWith(category: Category, reason: string, retryable: bool, retryAvailable: bool,
                 startedAt: Setting<Option<Instant>>, promptIds: seq<string>)
    | DependencyBlocked(blockers: seq<Blocker>)
    | AbortRecorded(abort: Abort)
    | RetryScheduled(category: Category, reason: string, retryCount: int,
                     startedAt: Setting<Option<Instant>>, promptIds: seq<string>)
    | TimedOut(reason: string, policy: TimeoutPolicy, timedOutAt: Instant, retryAvailable: bool,
               manualRetryRequired: bool, startedAt: Setting<Option<Instant>>)
    | ResultApplied(result: Result, promptIds: seq<string>, startedAt: Setting<Option<Instant>>)
    | CleanupUpdated(cleanup: Option<Cleanup>)
    | SnapshotApplied(snapshot: Worker)  // the patch that the snapshot builder makes for this snapshot

  datatype Transition = Transition(workerId: WorkerId, payload: Payload, finalization: Option<Finalization>)

  function NameOf(p: Payload): Name {
    match p
    case Provisioned(_, _, _) => ProvisionedName
    case Activated(_, _) => ActiveName
    case AttemptStarted(_) => AttemptStartedName
    case FailedWith(_, _, _, _, _, _) => FailedName
    case DependencyBlocked(_) => DependencyBlockedName
    case AbortRecorded(_) => AbortedName
    case RetryScheduled(_, _, _, _, _) => RetryScheduledName
    case TimedOut(_, _, _, _, _, _) => TimedOutName
    case ResultApplied(_, _, _) => ResultAppliedName
    case CleanupUpdated(_) => CleanupUpdatedName
    case SnapshotApplied(_) => SnapshotAppliedName
  }

  /** The resolved target state, when the transition has one. */
  function TargetOf(p: Payload): Option<State> {
    match p
    case Provisioned(_, _, _) => None
    case Activated(_, _) => Some(ActiveWait)
    case AttemptStarted(_) => None
    case FailedWith(_, _, retryable, available, _, _) => Some(FailedState(retryable, available))
    case DependencyBlocked(_) => Some(BlockedDependency)
    case AbortRecorded(_) => Some(AbortedState)
    case RetryScheduled(_, _, _, _, _) => Some(ActiveRetry)
    case TimedOut(_, policy, _, available, _, _) => Some(TimeoutState(policy, available))
    case ResultApplied(result, _, _) => Some(ResultState(result.status))
    case CleanupUpdated(_) => None
    case SnapshotApplied(snapshot) => Some(snapshot.lifecycle)
  }

  function PromptIdsOf(p: Payload): seq<string> {
    match p
    case FailedWith(_, _, _, _, _, ids) => ids
    case RetryScheduled(_, _, _, _, ids) => ids
    case ResultApplied(_, ids, _) => ids
    case _ => []
  }

  function ClearStatusFields(w: Worker): Worker {
    w.(blockers := [], failureCategory := None, failureReason := None,
       error := None, failureRetryable := None, manualRetryRequired := None)
  }

  function WithStartedAt(w: Worker, s: Setting<Option<Instant>>): Worker {
    if s.Set? then w.(timeoutStartedAt := s.value) else w
  }

  function MergePromptIds(w: Worker, latest: Worker, ids: seq<string>, mergeEmpty: bool): Worker {
    if ids == [] && !mergeEmpty then w
    else
      var source := if latest.PromptIdsAreRetryMarker() then [] else latest.promptIds;
      w.(promptIds := AppendAllUnique(AppendAllUnique([], source), ids))
  }

  function AttemptAppended(w: Worker, attempt: Attempt): Worker {
    if exists i :: 0 <= i < |w.Attempts()| && w.Attempts()[i].id == attempt.id then w
    else w.(attemptLog := Some(w.Attempts() + [attempt]))
  }

  function FinalizedAttempt(a: Attempt, f: Finalization): Attempt {
    a.(status := f.status,
       finishedAt := Some(f.finishedAt),
       error := if f.error.Some? then f.error else a.error,
       failureCategory := if f.failureCategory.Some? then f.failureCategory else a.failureCategory,
       resultStatus := if f.resultStatus.Some? then f.resultStatus else a.resultStatus,
       userMessage := if f.userMessage.Some? then f.userMessage else a.userMessage,
       assistantMessage := if f.assistantMessage.Some? then f.assistantMessage else a.assistantMessage)
  }

  /** Every attempt that carries the finalized id takes the finalization's fields. */
  function FinalizedAttempts(attempts: seq<Attempt>, f: Finalization): seq<Attempt> {
    seq(|attempts|, i requires 0 <= i < |attempts| =>
      if attempts[i].id == f.attemptId then FinalizedAttempt(attempts[i], f) else attempts[i])
  }

  function AttemptFinalized(w: Worker, f: Option<Finalization>): Worker {
    if f.None? || f.value.attemptId == NoId || w.attemptLog.None? then w
    else w.(attemptLog := Some(FinalizedAttempts(w.attemptLog.value, f.value)))
  }

  function RememberPromptId(w: Worker, id: string): Worker {
    w.(promptIds := AppendUnique(w.promptIds, id))
  }

  function EnsureCleanup(w: Worker): Worker {
    if w.cleanup.Some? then w else w.(cleanup := Some(Cleanup(true, false, None, None, None)))
  }

  function SessionRemembered(w: Worker, session: SessionId): Worker {
    var c := EnsureCleanup(w).cleanup.value;
    var sessions := GetOr(c.sessions, []);
    w.(cleanup := Some(c.(requested := true, deleted := false,
                          sessions := Some(if session != "" then AppendUnique(sessions, session) else sessions))))
  }

  /** The field-by-field effect of a transition, before the accepted-abort rule. */
  function ReducePayload(latest: Worker, id: WorkerId, p: Payload): Worker {
    match p
    case Provisioned(session, agent, model) =>
      var w := latest.(id := id,
                       agent := if agent.Some? then agent else latest.agent,
                       model := if model.Some? then model else latest.model);
      if session.Some? && session.value != "" && !w.HasSession() then w.(session := session) else w
    case Activated(startedAt, clear) =>
      var w := WithStartedAt(ClearStatusFields(latest).(id := id, lifecycle := ActiveWait), startedAt);
      if clear then w.(promptIds := []) else w
    case AttemptStarted(attempt) =>
      var w := AttemptAppended(latest, attempt);
      if attempt.userMessage.Some? && attempt.userMessage.value != ""
      then RememberPromptId(w, attempt.userMessage.value) else w
    case FailedWith(category, reason, retryable, available, startedAt, ids) =>
      var w := latest.(id := id, lifecycle := FailedState(retryable, available), error := Some(reason),
                       failureCategory := Some(category), failureReason := Some(reason),
                       lastFailureCategory := Some(category), lastFailureReason := Some(reason),
                       manualRetryRequired := None,
                       failureRetryable := if retryable then None else Some(false));
      MergePromptIds(WithStartedAt(w, startedAt), latest, ids, false)
    case DependencyBlocked(blockers) =>
      latest.(id := id, lifecycle := BlockedDependency, blockers := blockers)
    case AbortRecorded(abort) =>
      var w := latest.(id := id, abort := Some(abort));
      if abort.accepted then w.(lifecycle := AbortedState) else w
    case RetryScheduled(category, reason, retryCount, startedAt, ids) =>
      var w := ClearStatusFields(latest).(id := id, lifecycle := ActiveRetry, retryCount := retryCount,
                                          lastFailureCategory := Some(category), lastFailureReason := Some(reason));
      MergePromptIds(WithStartedAt(w, startedAt), latest, ids, false)
    case TimedOut(reason, policy, at, available, manual, startedAt) =>
      var w := latest.(id := id, lifecycle := TimeoutState(policy, available), error := Some(reason),
                       failureCategory := Some(TimeoutFailure), failureReason := Some(reason),
                       lastFailureCategory := Some(TimeoutFailure), lastFailureReason := Some(reason),
                       timedOutAt := Some(at), outputRefs := [],
                       manualRetryRequired := if manual then Some(true) else None);
      WithStartedAt(if policy == PolicyBlocked then w.(blockers := [TimeoutBlocker]) else w, startedAt)
    case ResultApplied(result, ids, startedAt) =>
      var w := WithStartedAt(latest.(id := id, lifecycle := ResultState(result.status), result := Some(result)),
          startedAt);
      var settled :=
        if result.status == Done then
          ClearStatusFields(w).(outputRefs := if result.assistantMessage.Some? && result.assistantMessage.value != ""
                                              then ["assistant:" + result.assistantMessage.value] else [])
        else w.(failureCategory := None, failureReason := None);
      MergePromptIds(settled, latest, ids, false)
    case CleanupUpdated(cleanup) =>
      latest.(id := id, cleanup := cleanup)
    case SnapshotApplied(s) =>
      var w := latest.(id := id, retryCount := s.retryCount, timeoutStartedAt := s.timeoutStartedAt,
                       timedOutAt := s.timedOutAt, lifecycle := s.lifecycle,
                       failureCategory := s.failureCategory, failureReason := s.failureReason,
                       lastFailureCategory := s.lastFailureCategory, lastFailureReason := s.lastFailureReason,
                       blockers := s.blockers, outputRefs := s.outputRefs, error := s.error,
                       failureRetryable := s.failureRetryable, manualRetryRequired := s.manualRetryRequired,
                       cleanup := if s.cleanup.Some? then s.cleanup else latest.cleanup,
                       abort := if s.abort.Some? then s.abort else latest.abort,
                       attemptLog := if s.attemptLog.Some? then s.attemptLog else latest.attemptLog,
                       result := if s.result.Some? then s.result else latest.result);
      var merged := MergePromptIds(w, latest, s.promptIds, true);
      if s.HasSession() && !merged.HasSession() then merged.(session := s.session) else merged
  }

  predicate KeepsReducedWorker(p: Payload) {
    match p
    case AbortRecorded(abort) => abort.accepted
    case CleanupUpdated(_) => true
    case SnapshotApplied(s) => s.AcceptedAbort()
    case _ => false
  }

  /** What still passes through to a worker whose abort was accepted. */
  function AbortPassthrough(latest: Worker, p: Payload): Worker {
    match p
    case SnapshotApplied(s) =>
      MergePromptIds(if s.cleanup.Some? then latest.(cleanup := s.cleanup) else latest, latest, s.promptIds, true)
    case _ => MergePromptIds(latest, latest, PromptIdsOf(p), false)
  }

  function Reduce(latest: Worker, t: Transition): Worker {
    if latest.AcceptedAbort() && !KeepsReducedWorker(t.payload) then AbortPassthrough(latest, t.payload)
    else ReducePayload(latest, t.workerId, t.payload)
  }

  predicate Legal(latest: Worker, t: Transition) {
    || (latest.AcceptedAbort() && (t.payload.SnapshotApplied? || PublicTransition(NameOf(t.payload))))
    || (if t.payload.SnapshotApplied? then ReplaySource(latest.lifecycle, t.payload.snapshot.lifecycle)
        else IsSource(NameOf(t.payload), latest.lifecycle))
  }

  /** Skipped(true) is a stale snapshot, which is ignored; Skipped(false) is raised to the caller. */
  datatype Outcome = Applied(worker: Worker) | Skipped(stale: bool)

  function Apply(latest: Worker, t: Transition): Outcome {
    if Legal(latest, t) then Applied(AttemptFinalized(Reduce(latest, t), t.finalization))
    else Skipped(t.payload.SnapshotApplied?)
  }

  /** The stored worker after a transition was offered to it. */
  function Offer(latest: Worker, t: Transition): Worker {
    match Apply(latest, t)
    case Applied(w) => w
    case Skipped(_) => latest
  }

  function OfferAll(latest: Worker, ts: seq<Transition>): Worker
    decreases |ts|
  {
    if ts == [] then latest else OfferAll(Offer(latest, ts[0]), ts[1..])
  }
}
