/** The worker lifecycle table and the source and target sets of the named transitions. */
module Lifecycle {

  datatype State =
    | Queued
    | ActiveWait
    | ActiveRetry
    | BlockedDependency
    | BlockedTimeout
    | DoneCollect
    | FailedRetry
    | FailedTerminal
    | TimeoutRetry
    | TimeoutTerminal
    | TimeoutFailedRetry
    | TimeoutFailedTerminal
    | TimeoutAborted
    | AbortedState

  datatype Status = QueuedStatus | Active | Blocked | Done | Failed | Aborted | TimedOutStatus

  datatype Action = Start | Wait | Retry | ResolveBlocker | Collect | NoAction

  /** One row of the lifecycle table: the columns that decide scheduling. */
  datatype Row = Row(status: Status, action: Action, retryable: bool, timeoutOrigin: bool, executable: bool)

  function Table(s: State): Row {
    match s
    case Queued                => Row(QueuedStatus, Start, false, false, true)
    case ActiveWait            => Row(Active, Wait, false, false, false)
    case ActiveRetry           => Row(Active, Retry, true, false, true)
    case BlockedDependency     => Row(Blocked, ResolveBlocker, false, false, false)
    case BlockedTimeout        => Row(Blocked, ResolveBlocker, false, true, false)
    case DoneCollect           => Row(Done, Collect, false, false, false)
    case FailedRetry           => Row(Failed, Retry, true, false, true)
    case FailedTerminal        => Row(Failed, Retry, false, false, false)
    case TimeoutRetry          => Row(TimedOutStatus, Retry, true, true, true)
    case TimeoutTerminal       => Row(TimedOutStatus, Retry, false, true, false)
    case TimeoutFailedRetry    => Row(Failed, Retry, true, true, true)
    case TimeoutFailedTerminal => Row(Failed, Retry, false, true, false)
    case TimeoutAborted        => Row(Aborted, NoAction, false, true, false)
    case AbortedState          => Row(Aborted, NoAction, false, false, false)
  }

  function PublicStatus(s: State): Status { Table(s).status }

  predicate Executable(s: State) { Table(s).executable }

  predicate TerminalStatus(s: Status) { s in {Done, Failed, Aborted, TimedOutStatus} }

  predicate FailedDependencyStatus(s: Status) { s in {Blocked, Failed, Aborted, TimedOutStatus} }

  predicate RunnableStatus(s: Status) { !TerminalStatus(s) && s != Blocked }

  predicate InAbortedStatus(s: State) { PublicStatus(s) == Aborted }

  /** What a timeout does to a worker, as configured on the worker. */
  datatype TimeoutPolicy = PolicyTimeout | PolicyBlocked | PolicyFailed | PolicyAborted

  function TimeoutState(policy: TimeoutPolicy, retryAvailable: bool): State {
    match policy
    case PolicyBlocked => BlockedTimeout
    case PolicyAborted => TimeoutAborted
    case PolicyFailed => if retryAvailable then TimeoutFailedRetry else TimeoutFailedTerminal
    case PolicyTimeout => if retryAvailable then TimeoutRetry else TimeoutTerminal
  }

  function FailedState(retryable: bool, retryAvailable: bool): State {
    if retryable && retryAvailable then FailedRetry else FailedTerminal
  }

  /** The state for the status a result reports; statuses a result may not carry count as failed. */
  function ResultState(status: Status): State {
    match status
    case Aborted => AbortedState
    case Blocked => BlockedDependency
    case Done => DoneCollect
    case TimedOutStatus => TimeoutTerminal
    case QueuedStatus | Active | Failed => FailedTerminal
  }

  datatype Name =
    | ProvisionedName
    | ActiveName
    | AttemptStartedName
    | FailedName
    | DependencyBlockedName
    | AbortedName
    | RetryScheduledName
    | TimedOutName
    | ResultAppliedName
    | CleanupUpdatedName
    | SnapshotAppliedName

  predicate IsSource(n: Name, s: State) {
    match n
    case ProvisionedName | FailedName =>
      s in {Queued, ActiveWait, ActiveRetry, FailedRetry, TimeoutRetry, TimeoutFailedRetry}
    case ActiveName =>
      s in {Queued, ActiveWait, ActiveRetry, BlockedDependency, BlockedTimeout, FailedRetry, TimeoutRetry,
            TimeoutFailedRetry}
    case AttemptStartedName | TimedOutName | ResultAppliedName => s == ActiveWait
    case DependencyBlockedName => s in {Queued, ActiveWait, ActiveRetry}
    case AbortedName =>
      s in {Queued, ActiveWait, ActiveRetry, BlockedDependency, BlockedTimeout, FailedRetry, TimeoutRetry,
            TimeoutFailedRetry, TimeoutAborted, AbortedState}
    case RetryScheduledName => s in {ActiveWait, FailedRetry, TimeoutRetry, TimeoutFailedRetry}
    case CleanupUpdatedName | SnapshotAppliedName => true
  }

  /** Declared targets; a transition without any leaves the state alone or takes it from its payload. */
  predicate IsTarget(n: Name, s: State) {
    match n
    case ActiveName => s == ActiveWait
    case FailedName => s in {FailedRetry, FailedTerminal}
    case DependencyBlockedName => s == BlockedDependency
    case AbortedName => s == AbortedState
    case RetryScheduledName => s == ActiveRetry
    case TimedOutName =>
      s in {BlockedTimeout, TimeoutRetry, TimeoutTerminal, TimeoutFailedRetry, TimeoutFailedTerminal, TimeoutAborted}
    case ResultAppliedName => s in {BlockedDependency, DoneCollect, FailedTerminal, TimeoutTerminal, AbortedState}
    case ProvisionedName | AttemptStartedName | CleanupUpdatedName | SnapshotAppliedName => false
  }

  /** Whether an accepted abort overrides the legality check for this transition. */
  predicate PublicTransition(n: Name) {
    n != CleanupUpdatedName && n != SnapshotAppliedName
  }

  /** A declared edge: some named transition has a as a source and b as a target. */
  predicate DeclaredEdge(a: State, b: State) {
    exists n: Name :: IsSource(n, a) && IsTarget(n, b)
  }

  /** The graph of the states: where a worker may go next. */
  function Successors(s: State): set<State> {
    match s
    case Queued | ActiveRetry => {ActiveWait, BlockedDependency, FailedRetry, FailedTerminal, AbortedState}
    case ActiveWait =>
      {ActiveWait, ActiveRetry, BlockedDependency, BlockedTimeout, DoneCollect, FailedRetry, FailedTerminal,
       TimeoutRetry, TimeoutTerminal, TimeoutFailedRetry, TimeoutFailedTerminal, TimeoutAborted, AbortedState}
    case BlockedDependency | BlockedTimeout => {ActiveWait, AbortedState}
    case FailedRetry | TimeoutRetry | TimeoutFailedRetry =>
      {ActiveWait, ActiveRetry, FailedRetry, FailedTerminal, AbortedState}
    case TimeoutAborted | AbortedState => {AbortedState}
    case DoneCollect | FailedTerminal | TimeoutTerminal | TimeoutFailedTerminal => {}
  }

  predicate NamedEdge(n: Name, a: State, b: State) {
    IsSource(n, a) && IsTarget(n, b)
  }

  lemma EdgeHasName(a: State, b: State)
    ensures DeclaredEdge(a, b) <==>
            || NamedEdge(FailedName, a, b) || NamedEdge(ActiveName, a, b) || NamedEdge(DependencyBlockedName, a, b)
            || NamedEdge(AbortedName, a, b) || NamedEdge(RetryScheduledName, a, b) || NamedEdge(TimedOutName, a, b)
            || NamedEdge(ResultAppliedName, a, b)
  {
    hide IsSource, IsTarget, NamedEdge, DeclaredEdge;
    NamedIsEdge(FailedName, a, b);
    NamedIsEdge(ActiveName, a, b);
    NamedIsEdge(DependencyBlockedName, a, b);
    NamedIsEdge(AbortedName, a, b);
    NamedIsEdge(RetryScheduledName, a, b);
    NamedIsEdge(TimedOutName, a, b);
    NamedIsEdge(ResultAppliedName, a, b);
    if DeclaredEdge(a, b) { var n := EdgeName(a, b); }
  }

  lemma NamedIsEdge(n: Name, a: State, b: State)
    ensures NamedEdge(n, a, b) ==> DeclaredEdge(a, b)
  {
    hide IsSource, IsTarget;
  }

  lemma EdgeName(a: State, b: State) returns (n: Name)
    requires DeclaredEdge(a, b)
    ensures NamedEdge(n, a, b)
    ensures n in {FailedName, ActiveName, DependencyBlockedName, AbortedName, RetryScheduledName, TimedOutName,
                  ResultAppliedName}
  {
    hide IsSource, IsTarget;
    n :| IsSource(n, a) && IsTarget(n, b);
    TargetsAreNamed(n, b);
  }

  lemma TargetsAreNamed(n: Name, b: State)
    ensures IsTarget(n, b) ==>
              n in {FailedName, ActiveName, DependencyBlockedName, AbortedName, RetryScheduledName, TimedOutName,
                    ResultAppliedName}
  {
  }

  lemma ReadyEdges(a: State, b: State)
    requires a in {Queued, ActiveRetry}
    ensures DeclaredEdge(a, b) <==> b in Successors(a)
  {
    hide DeclaredEdge;
    EdgeHasName(a, b);
  }

  lemma WaitingEdges(a: State, b: State)
    requires a in {ActiveWait}
    ensures DeclaredEdge(a, b) <==> b in Successors(a)
  {
    hide DeclaredEdge;
    EdgeHasName(a, b);
  }

  lemma BlockedEdges(a: State, b: State)
    requires a in {BlockedDependency, BlockedTimeout}
    ensures DeclaredEdge(a, b) <==> b in Successors(a)
  {
    hide DeclaredEdge;
    EdgeHasName(a, b);
  }

  lemma RetryableEdges(a: State, b: State)
    requires a in {FailedRetry, TimeoutRetry, TimeoutFailedRetry}
    ensures DeclaredEdge(a, b) <==> b in Successors(a)
  {
    hide DeclaredEdge;
    EdgeHasName(a, b);
  }

  lemma EndedEdges(a: State, b: State)
    requires a in {TimeoutAborted, AbortedState, DoneCollect, FailedTerminal, TimeoutTerminal, TimeoutFailedTerminal}
    ensures DeclaredEdge(a, b) <==> b in Successors(a)
  {
    hide DeclaredEdge;
    EdgeHasName(a, b);
  }

  /** The transitions' source and target sets make up exactly this graph. */
  lemma EdgesAre(a: State, b: State)
    ensures DeclaredEdge(a, b) <==> b in Successors(a)
  {
    hide DeclaredEdge, Successors;
    match a {
      case Queued => ReadyEdges(a, b);
      case ActiveRetry => ReadyEdges(a, b);
      case ActiveWait => WaitingEdges(a, b);
      case BlockedDependency => BlockedEdges(a, b);
      case BlockedTimeout => BlockedEdges(a, b);
      case FailedRetry => RetryableEdges(a, b);
      case TimeoutRetry => RetryableEdges(a, b);
      case TimeoutFailedRetry => RetryableEdges(a, b);
      case TimeoutAborted => EndedEdges(a, b);
      case AbortedState => EndedEdges(a, b);
      case DoneCollect => EndedEdges(a, b);
      case FailedTerminal => EndedEdges(a, b);
      case TimeoutTerminal => EndedEdges(a, b);
      case TimeoutFailedTerminal => EndedEdges(a, b);
    }
  }

  /** A snapshot may be replayed one declared edge, or none, before its own state. */
  predicate ReplaySource(source: State, target: State) {
    source == target || DeclaredEdge(source, target)
  }

  /** States that no declared edge leaves. */
  predicate Final(s: State) {
    s in {DoneCollect, FailedTerminal, TimeoutTerminal, TimeoutFailedTerminal}
  }

  lemma FinalStatesHaveNoDeclaredEdge(a: State, b: State)
    ensures Final(a) ==> !DeclaredEdge(a, b)
    ensures InAbortedStatus(a) && DeclaredEdge(a, b) ==> b == AbortedState
  {
  }
}
