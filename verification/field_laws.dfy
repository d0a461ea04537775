/** What each transition shows on the worker it is applied to, field by field, and which fields stay. */
module FieldLaws {
  import opened Common
  import opened Lifecycle
  import opened Workers

  // ----- Vocabulary -----

  /** No current failure, blocker or retry flag is shown. */
  predicate ShowsNothing(n: Worker) {
    && n.blockers == [] && n.error == None && n.failureCategory == None && n.failureReason == None
    && n.failureRetryable == None && n.manualRetryRequired == None
  }

  predicate ShowsLastFailure(n: Worker, category: Category, reason: string) {
    n.lastFailureCategory == Some(category) && n.lastFailureReason == Some(reason)
  }

  /** The failure is shown as the current and as the last one. */
  predicate ShowsFailure(n: Worker, category: Category, reason: string) {
    && n.error == Some(reason) && n.failureCategory == Some(category) && n.failureReason == Some(reason)
    && ShowsLastFailure(n, category, reason)
  }

  predicate StartedAs(w: Worker, n: Worker, s: Setting<Option<Instant>>) {
    n.timeoutStartedAt == match s case Unset => w.timeoutStartedAt case Set(at) => at
  }

  /** New ids follow the known ones, each once; the ids of a worker that waits to retry belong to the failed attempt and
      are dropped. Without new ids nothing changes. */
  ghost predicate KnowsPrompts(w: Worker, n: Worker, ids: seq<string>) {
    if ids == [] then n.promptIds == w.promptIds
    else
      MergedOf(n.promptIds, if w.lifecycle == ActiveRetry && w.lastFailureCategory.Some? then [] else w.promptIds, ids)
  }

  /** Of n, the fields that speak of status, failures, prompts and time; the attempt log has its own law. */
  predicate OnlyStatusChanged(w: Worker, n: Worker) {
    n == w.(id := n.id, lifecycle := n.lifecycle, promptIds := n.promptIds, retryCount := n.retryCount,
            timeoutStartedAt := n.timeoutStartedAt, timedOutAt := n.timedOutAt, failureCategory := n.failureCategory,
            failureReason := n.failureReason, lastFailureCategory := n.lastFailureCategory,
            lastFailureReason := n.lastFailureReason, blockers := n.blockers, outputRefs := n.outputRefs,
            error := n.error, failureRetryable := n.failureRetryable, manualRetryRequired := n.manualRetryRequired,
            result := n.result, attemptLog := n.attemptLog)
  }

  predicate SameClock(w: Worker, n: Worker) { n.timedOutAt == w.timedOutAt && n.retryCount == w.retryCount }

  predicate SameLastFailure(w: Worker, n: Worker) {
    n.lastFailureCategory == w.lastFailureCategory && n.lastFailureReason == w.lastFailureReason
  }

  predicate SameOutput(w: Worker, n: Worker) { n.result == w.result && n.outputRefs == w.outputRefs }

  // ----- One predicate for each transition -----

  predicate ProvisionedShown(w: Worker, n: Worker, session: Option<SessionId>, agent: Option<string>,
                             model: Option<string>) {
    && n == w.(id := n.id, session := n.session, agent := n.agent, model := n.model, attemptLog := n.attemptLog)
    && n.agent == (if agent.Some? then agent else w.agent)
    && n.model == (if model.Some? then model else w.model)
    && n.session == (if session.Some? && session.value != "" && !w.HasSession() then session else w.session)
  }

  predicate ActivatedShown(w: Worker, n: Worker, startedAt: Setting<Option<Instant>>, clear: bool) {
    && OnlyStatusChanged(w, n) && SameClock(w, n) && SameLastFailure(w, n) && SameOutput(w, n)
    && n.lifecycle == ActiveWait && ShowsNothing(n) && StartedAs(w, n, startedAt)
    && n.promptIds == if clear then [] else w.promptIds
  }

  predicate AttemptShown(w: Worker, n: Worker, attempt: Attempt) {
    && n == w.(promptIds := n.promptIds, attemptLog := n.attemptLog)
    && w.promptIds <= n.promptIds
    && n.promptIds[|w.promptIds|..] ==
       if attempt.userMessage.Some? && attempt.userMessage.value != "" && attempt.userMessage.value !in w.promptIds
       then [attempt.userMessage.value] else []
  }

  ghost predicate FailedShown(w: Worker, n: Worker, p: Payload)
    requires p.FailedWith?
  {
    && OnlyStatusChanged(w, n) && SameClock(w, n) && SameOutput(w, n)
    && n.lifecycle == FailedState(p.retryable, p.retryAvailable) && PublicStatus(n.lifecycle) == Failed
    && !Table(n.lifecycle).timeoutOrigin && (Executable(n.lifecycle) <==> p.retryable && p.retryAvailable)
    && ShowsFailure(n, p.category, p.reason) && n.blockers == w.blockers && n.manualRetryRequired == None
    && n.failureRetryable == (if p.retryable then None else Some(false))
    && StartedAs(w, n, p.startedAt) && KnowsPrompts(w, n, p.promptIds)
  }

  ghost predicate RetryShown(w: Worker, n: Worker, p: Payload)
    requires p.RetryScheduled?
  {
    && OnlyStatusChanged(w, n) && SameOutput(w, n) && n.timedOutAt == w.timedOutAt
    && n.lifecycle == ActiveRetry && n.retryCount == p.retryCount
    && ShowsNothing(n) && ShowsLastFailure(n, p.category, p.reason)
    && StartedAs(w, n, p.startedAt) && KnowsPrompts(w, n, p.promptIds)
  }

  /** The public status that a timeout policy asks for. */
  function PolicyStatus(p: TimeoutPolicy): Status {
    match p
    case PolicyTimeout => TimedOutStatus
    case PolicyBlocked => Blocked
    case PolicyFailed => Failed
    case PolicyAborted => Aborted
  }

  predicate TimeoutShown(w: Worker, n: Worker, p: Payload)
    requires p.TimedOut?
  {
    && OnlyStatusChanged(w, n) && n.retryCount == w.retryCount && n.promptIds == w.promptIds
    && n.lifecycle == TimeoutState(p.policy, p.retryAvailable) && PublicStatus(n.lifecycle) == PolicyStatus(p.policy)
    && Table(n.lifecycle).timeoutOrigin
    && (Executable(n.lifecycle) <==> p.retryAvailable && (p.policy == PolicyTimeout || p.policy == PolicyFailed))
    && ShowsFailure(n, TimeoutFailure, p.reason) && n.timedOutAt == Some(p.timedOutAt)
    && n.outputRefs == [] && n.result == w.result && n.failureRetryable == w.failureRetryable
    && n.blockers == (if p.policy == PolicyBlocked then [TimeoutBlocker] else w.blockers)
    && n.manualRetryRequired == (if p.manualRetryRequired then Some(true) else None)
    && StartedAs(w, n, p.startedAt)
  }

  /** The assistant's message is the only output of a done result. */
  predicate OutputsMessage(n: Worker, message: Option<string>) {
    if message.Some? && message.value != ""
    then |n.outputRefs| == 1 && n.outputRefs[0] == "assistant:" + message.value
    else n.outputRefs == []
  }

  ghost predicate ResultShown(w: Worker, n: Worker, p: Payload)
    requires p.ResultApplied?
  {
    && OnlyStatusChanged(w, n) && SameClock(w, n) && SameLastFailure(w, n)
    && n.lifecycle == ResultState(p.result.status) && n.result == Some(p.result) && !Executable(n.lifecycle)
    && PublicStatus(n.lifecycle) ==
       (if p.result.status in {Done, Blocked, Aborted, TimedOutStatus} then p.result.status else Failed)
    && n.failureCategory == None && n.failureReason == None
    && StartedAs(w, n, p.startedAt) && KnowsPrompts(w, n, p.promptIds)
    && if p.result.status == Done then ShowsNothing(n) && OutputsMessage(n, p.result.assistantMessage)
       else
         && n.blockers == w.blockers && n.error == w.error && n.outputRefs == w.outputRefs
         && n.failureRetryable == w.failureRetryable && n.manualRetryRequired == w.manualRetryRequired
  }

  predicate AbortShown(w: Worker, n: Worker, abort: Abort) {
    && n == w.(id := n.id, abort := Some(abort), lifecycle := n.lifecycle, attemptLog := n.attemptLog)
    && n.lifecycle == if abort.accepted then AbortedState else w.lifecycle
  }

  /** Everything that a transition other than a snapshot shows, but for the attempt log. */
  ghost predicate FieldsShown(w: Worker, id: WorkerId, p: Payload, n: Worker)
    requires !p.SnapshotApplied?
  {
    && n.id == (if p.AttemptStarted? then w.id else id)
    && match p
       case Provisioned(session, agent, model) => ProvisionedShown(w, n, session, agent, model)
       case Activated(startedAt, clear) => ActivatedShown(w, n, startedAt, clear)
       case AttemptStarted(attempt) => AttemptShown(w, n, attempt)
       case FailedWith(_, _, _, _, _, _) => FailedShown(w, n, p)
       case DependencyBlocked(blockers) =>
         n == w.(id := n.id, lifecycle := BlockedDependency, blockers := blockers, attemptLog := n.attemptLog)
       case AbortRecorded(abort) => AbortShown(w, n, abort)
       case RetryScheduled(_, _, _, _, _) => RetryShown(w, n, p)
       case TimedOut(_, _, _, _, _, _) => TimeoutShown(w, n, p)
       case ResultApplied(_, _, _) => ResultShown(w, n, p)
       case CleanupUpdated(cleanup) => n == w.(id := n.id, cleanup := cleanup, attemptLog := n.attemptLog)
  }

  /** Over an accepted abort only prompt ids, another accepted abort and cleanups get through. */
  ghost predicate ShownOverAbort(w: Worker, id: WorkerId, p: Payload, n: Worker)
    requires !p.SnapshotApplied?
  {
    if p.CleanupUpdated? || (p.AbortRecorded? && p.abort.accepted) then FieldsShown(w, id, p, n)
    else
      && n == w.(promptIds := n.promptIds, attemptLog := n.attemptLog)
      && match p
         case FailedWith(_, _, _, _, _, ids) => KnowsPrompts(w, n, ids)
         case RetryScheduled(_, _, _, _, ids) => KnowsPrompts(w, n, ids)
         case ResultApplied(_, ids, _) => KnowsPrompts(w, n, ids)
         case _ => n.promptIds == w.promptIds
  }

  /** When a transition other than a snapshot is legal: over an accepted abort always; else an abort unless the state is
      final, a start or a failure while the worker may be executed or waits, an activation also from blocked, a block
      while it is runnable, a retry also after a retryable end, and what an attempt does while it waits. */
  predicate Accepts(w: Worker, p: Payload)
    requires !p.SnapshotApplied?
  {
    var s := w.lifecycle;
    var startable := Executable(s) || s == ActiveWait;
    w.AcceptedAbort() ||
    match p
    case Provisioned(_, _, _) => startable
    case FailedWith(_, _, _, _, _, _) => startable
    case Activated(_, _) => startable || PublicStatus(s) == Blocked
    case DependencyBlocked(_) => PublicStatus(s) == QueuedStatus || PublicStatus(s) == Active
    case AbortRecorded(_) => !Final(s)
    case RetryScheduled(_, _, _, _, _) => s == ActiveWait || (Executable(s) && TerminalStatus(PublicStatus(s)))
    case AttemptStarted(_) => s == ActiveWait
    case TimedOut(_, _, _, _, _, _) => s == ActiveWait
    case ResultApplied(_, _, _) => s == ActiveWait
    case CleanupUpdated(_) => true
  }

  lemma LegalIff(w: Worker, t: Transition)
    requires !t.payload.SnapshotApplied?
    ensures Legal(w, t) <==> Accepts(w, t.payload)
  {
  }

  // ----- The attempt log -----

  predicate Unfinished(a: Attempt) {
    a.id != NoId && a.status == AttemptActive && a.finishedAt.None?
  }

  predicate Listed(attempts: seq<Attempt>, id: AttemptId) {
    exists i :: 0 <= i < |attempts| && attempts[i].id == id
  }

  predicate Overwrites<T(==)>(known: Option<T>, given: Option<T>, r: Option<T>) {
    r == if given.Some? then given else known
  }

  /** b is a, finished as f says; what f leaves open stays. */
  predicate FinishedAs(a: Attempt, f: Finalization, b: Attempt) {
    && b.id == a.id && b.session == a.session && b.created == a.created && b.startedAt == a.startedAt
    && b.status == f.status && b.finishedAt == Some(f.finishedAt)
    && Overwrites(a.error, f.error, b.error) && Overwrites(a.failureCategory, f.failureCategory, b.failureCategory)
    && Overwrites(a.resultStatus, f.resultStatus, b.resultStatus)
    && Overwrites(a.userMessage, f.userMessage, b.userMessage)
    && Overwrites(a.assistantMessage, f.assistantMessage, b.assistantMessage)
  }

  /** The attempts with the finalized id are finished, all others stay where and as they are. */
  predicate FinishedIn(before: seq<Attempt>, f: Option<Finalization>, after: seq<Attempt>) {
    && |after| == |before|
    && forall i :: 0 <= i < |before| ==>
         if f.Some? && f.value.attemptId != NoId && before[i].id == f.value.attemptId
         then FinishedAs(before[i], f.value, after[i]) else after[i] == before[i]
  }

  /** A started attempt is the last one of the log, unless its id is listed or the worker's abort was accepted. */
  ghost predicate LogShown(w: Worker, t: Transition, n: Worker)
    requires !t.payload.SnapshotApplied?
  {
    var starts := t.payload.AttemptStarted? && !w.AcceptedAbort() && !Listed(w.Attempts(), t.payload.attempt.id);
    FinishedIn(w.Attempts() + if starts then [t.payload.attempt] else [], t.finalization, n.Attempts())
  }

  ghost predicate Shown(w: Worker, t: Transition, n: Worker)
    requires !t.payload.SnapshotApplied?
  {
    && (if w.AcceptedAbort() then ShownOverAbort(w, t.workerId, t.payload, n)
        else FieldsShown(w, t.workerId, t.payload, n))
    && LogShown(w, t, n)
  }

  // ----- Every legal transition shows what it should -----

  lemma PromptsMerge(w: Worker, latest: Worker, ids: seq<string>)
    requires w.promptIds == latest.promptIds
    ensures var n := MergePromptIds(w, latest, ids, false); n == w.(promptIds := n.promptIds)
    ensures KnowsPrompts(latest, MergePromptIds(w, latest, ids, false), ids)
  {
    hide MergedOf;
    AppendedMerge(if latest.PromptIdsAreRetryMarker() then [] else latest.promptIds, ids);
  }

  lemma RememberedPrompt(w: Worker, attempt: Attempt, id: WorkerId)
    ensures FieldsShown(w, id, AttemptStarted(attempt), ReducePayload(w, id, AttemptStarted(attempt)))
  {
    if attempt.userMessage.Some? { AppendedFirsts(w.promptIds, [attempt.userMessage.value]); }
  }

  lemma FailedFields(w: Worker, id: WorkerId, p: Payload)
    requires p.FailedWith?
    ensures FieldsShown(w, id, p, ReducePayload(w, id, p))
  {
    hide MergePromptIds, KnowsPrompts;
    var base := w.(id := id, lifecycle := FailedState(p.retryable, p.retryAvailable), error := Some(p.reason),
                   failureCategory := Some(p.category), failureReason := Some(p.reason),
                   lastFailureCategory := Some(p.category), lastFailureReason := Some(p.reason),
                   manualRetryRequired := None, failureRetryable := if p.retryable then None else Some(false));
    PromptsMerge(WithStartedAt(base, p.startedAt), w, p.promptIds);
  }

  lemma RetryFields(w: Worker, id: WorkerId, p: Payload)
    requires p.RetryScheduled?
    ensures FieldsShown(w, id, p, ReducePayload(w, id, p))
  {
    hide MergePromptIds, KnowsPrompts;
    var base := ClearStatusFields(w).(id := id, lifecycle := ActiveRetry, retryCount := p.retryCount,
                                      lastFailureCategory := Some(p.category), lastFailureReason := Some(p.reason));
    PromptsMerge(WithStartedAt(base, p.startedAt), w, p.promptIds);
  }

  lemma ResultFields(w: Worker, id: WorkerId, p: Payload)
    requires p.ResultApplied?
    ensures FieldsShown(w, id, p, ReducePayload(w, id, p))
  {
    hide MergePromptIds, KnowsPrompts;
    var base := WithStartedAt(w.(id := id, lifecycle := ResultState(p.result.status), result := Some(p.result)),
                              p.startedAt);
    var refs := if p.result.assistantMessage.Some? && p.result.assistantMessage.value != ""
                then ["assistant:" + p.result.assistantMessage.value] else [];
    PromptsMerge(ClearStatusFields(base).(outputRefs := refs), w, p.promptIds);
    PromptsMerge(base.(failureCategory := None, failureReason := None), w, p.promptIds);
  }

  lemma TimeoutFields(w: Worker, id: WorkerId, p: Payload)
    requires p.TimedOut?
    ensures FieldsShown(w, id, p, ReducePayload(w, id, p))
  {
    hide TimeoutState, PublicStatus, Executable, Table;
    TimeoutStates(p.policy, p.retryAvailable);
  }

  lemma TimeoutStates(policy: TimeoutPolicy, available: bool)
    ensures var s := TimeoutState(policy, available);
            && PublicStatus(s) == PolicyStatus(policy) && Table(s).timeoutOrigin
            && (Executable(s) <==> available && (policy == PolicyTimeout || policy == PolicyFailed))
  {
  }

  lemma StartFields(w: Worker, id: WorkerId, p: Payload)
    requires p.Provisioned? || p.Activated?
    ensures FieldsShown(w, id, p, ReducePayload(w, id, p))
  {
  }

  lemma PlainFields(w: Worker, id: WorkerId, p: Payload)
    requires p.DependencyBlocked? || p.AbortRecorded? || p.CleanupUpdated?
    ensures FieldsShown(w, id, p, ReducePayload(w, id, p))
  {
  }

  lemma PayloadShows(w: Worker, id: WorkerId, p: Payload)
    requires !p.SnapshotApplied?
    ensures FieldsShown(w, id, p, ReducePayload(w, id, p))
  {
    hide FieldsShown, ReducePayload;
    match p {
      case Provisioned(_, _, _) => StartFields(w, id, p);
      case Activated(_, _) => StartFields(w, id, p);
      case AttemptStarted(attempt) => RememberedPrompt(w, attempt, id);
      case FailedWith(_, _, _, _, _, _) => FailedFields(w, id, p);
      case DependencyBlocked(_) => PlainFields(w, id, p);
      case AbortRecorded(_) => PlainFields(w, id, p);
      case RetryScheduled(_, _, _, _, _) => RetryFields(w, id, p);
      case TimedOut(_, _, _, _, _, _) => TimeoutFields(w, id, p);
      case ResultApplied(_, _, _) => ResultFields(w, id, p);
      case CleanupUpdated(_) => PlainFields(w, id, p);
    }
  }

  lemma PassthroughShows(w: Worker, id: WorkerId, p: Payload)
    requires !p.SnapshotApplied? && w.AcceptedAbort()
    ensures ShownOverAbort(w, id, p, Reduce(w, Transition(id, p, None)))
  {
    hide ReducePayload, MergePromptIds, KnowsPrompts, FieldsShown;
    PayloadShows(w, id, p);
    PromptsMerge(w, w, PromptIdsOf(p));
    NothingMerges(w);
  }

  lemma NothingMerges(w: Worker)
    ensures MergePromptIds(w, w, [], false) == w
    ensures forall n: Worker :: KnowsPrompts(w, n, []) <==> n.promptIds == w.promptIds
  {
  }

  lemma FinalizingFinishes(attempts: seq<Attempt>, f: Finalization)
    requires f.attemptId != NoId
    ensures FinishedIn(attempts, Some(f), FinalizedAttempts(attempts, f))
  {
  }

  lemma FinalizedShows(w: Worker, f: Option<Finalization>)
    ensures var n := AttemptFinalized(w, f); n == w.(attemptLog := n.attemptLog)
    ensures FinishedIn(w.Attempts(), f, AttemptFinalized(w, f).Attempts())
  {
    hide FinalizedAttempts;
    if f.Some? && f.value.attemptId != NoId { FinalizingFinishes(w.Attempts(), f.value); }
  }

  lemma ReducedLog(w: Worker, t: Transition)
    requires !t.payload.SnapshotApplied?
    ensures var p := t.payload;
            var starts := p.AttemptStarted? && !w.AcceptedAbort() && !Listed(w.Attempts(), p.attempt.id);
            Reduce(w, t).Attempts() == w.Attempts() + if starts then [t.payload.attempt] else []
  {
    hide MergePromptIds, ClearStatusFields;
    if !t.payload.AttemptStarted? { LogIsKept(w, t.workerId, t.payload); }
    PassingKeepsLog(w, t.payload);
  }

  lemma LogIsKept(w: Worker, id: WorkerId, p: Payload)
    requires !p.SnapshotApplied? && !p.AttemptStarted?
    ensures ReducePayload(w, id, p).attemptLog == w.attemptLog
  {
  }

  lemma PassingKeepsLog(w: Worker, p: Payload)
    ensures AbortPassthrough(w, p).attemptLog == w.attemptLog
  {
  }

  lemma FieldsIgnoreLog(w: Worker, id: WorkerId, p: Payload, n: Worker, log: Option<seq<Attempt>>)
    requires !p.SnapshotApplied?
    ensures FieldsShown(w, id, p, n) ==> FieldsShown(w, id, p, n.(attemptLog := log))
    ensures ShownOverAbort(w, id, p, n) ==> ShownOverAbort(w, id, p, n.(attemptLog := log))
  {
    hide MergedOf;
  }

  /** A legal transition shows on the worker what its payload says, field by field, and finishes what it finalizes. */
  lemma OfferShows(w: Worker, t: Transition)
    requires Legal(w, t) && !t.payload.SnapshotApplied?
    ensures Shown(w, t, Offer(w, t))
  {
    hide ReducePayload, AbortPassthrough, FieldsShown, ShownOverAbort, FinishedIn, Legal, AttemptFinalized, Listed;
    var reduced := Reduce(w, t);
    if w.AcceptedAbort() {
      PassthroughShows(w, t.workerId, t.payload);
      ReducedAlike(w, t);
    } else {
      PayloadShows(w, t.workerId, t.payload);
    }
    ReducedLog(w, t);
    FinalizedShows(reduced, t.finalization);
    FieldsIgnoreLog(w, t.workerId, t.payload, reduced, AttemptFinalized(reduced, t.finalization).attemptLog);
  }

  lemma ReducedAlike(w: Worker, t: Transition)
    ensures Reduce(w, t) == Reduce(w, Transition(t.workerId, t.payload, None))
  {
    hide ReducePayload, AbortPassthrough;
  }
}
