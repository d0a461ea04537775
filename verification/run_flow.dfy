/** A whole start of a run: recover, plan, skip or probe, execute serially, and mark what an API error left pending. */
module RunFlow {
  import opened Common
  import opened Lifecycle
  import opened Workers
  import opened DependencyAnalysis
  import opened Planner
  import opened Execution
  import opened SerialLoop
  import opened SerialLaws
  import opened AttemptRecovery
  import opened StartFailure
  import opened EndlessRuns

  /** What the capability probe finds. */
  datatype Probe = Supported | Unsupported(error: string) | ProbeRaises(error: string)

  /** What a start cannot decide itself: foreign writes before each of its writes, the clock, the server. */
  datatype FlowEnv = FlowEnv(
    recoveryAborts: seq<AbortWrite>,
    planAborts: seq<AbortWrite>,
    activationAborts: seq<AbortWrite>,
    markAborts: seq<AbortWrite>,
    now: Instant,
    probe: Probe,
    rounds: nat -> RoundEnv)

  /** Where a start stands after at most n rounds. Raised is an illegal transition, which nothing handles. */
  datatype FlowEnd =
    | NotExecuted(run: WorkerMap, recoveryError: Option<string>)
    | Marked(run: WorkerMap, error: string)
    | Executed(loop: Loop)
    | Raised

  /** The run that planning starts from; without recoveries nothing is written. */
  function RecoveredRun(run: WorkerMap, foreign: seq<AbortWrite>, now: Instant): Option<WorkerMap> {
    if Recoveries(run, now) == [] then Some(run) else Recovered(run, foreign, now)
  }

  /** The error that the flow reports for the recovery: the one of the first recovered attempt that has one. */
  function RecoveryError(recoveries: seq<Recovery>): Option<string> {
    if recoveries == [] then None
    else if recoveries[0].error.Some? then recoveries[0].error
    else RecoveryError(recoveries[1..])
  }

  /** Nothing is attempted after a recovery error under fail-fast, or when nothing is selected. */
  predicate Skips(l: Loop, recoveryError: Option<string>, policy: ExecutionPolicy) {
    (recoveryError.Some? && policy == FailFast) || l.selected.None?
  }

  /** Marking the run active writes no worker; the loop goes on from what the write returned. */
  function Activate(l: Loop, foreign: seq<AbortWrite>): Loop {
    l.(run := Interfere(l.run, foreign))
  }

  function AfterMarking(stale: WorkerMap, latest: WorkerMap, foreign: seq<AbortWrite>, error: string): FlowEnd {
    match MarkPromptedFailed(stale, latest, foreign, error)
    case None => Raised
    case Some(run) => Marked(run, error)
  }

  function AfterExecution(start: Loop, l: Loop, foreign: seq<AbortWrite>): FlowEnd {
    match l.end
    case CreationFailed(reason) => AfterMarking(start.run, l.run, foreign, reason)
    case IllegalWrite => Raised
    case Open | StoppedFast(_) => Executed(l)
  }

  function AfterPlanning(start: Loop, recoveryError: Option<string>, policy: ExecutionPolicy, e: FlowEnv,
                         n: nat): FlowEnd {
    if start.end == IllegalWrite then Raised
    else if Skips(start, recoveryError, policy) then NotExecuted(start.run, recoveryError)
    else
      match e.probe
      case Unsupported(error) => AfterMarking(start.run, start.run, e.markAborts, error)
      case ProbeRaises(error) => AfterMarking(start.run, start.run, e.markAborts, error)
      case Supported =>
        var active := Activate(start, e.activationAborts);
        AfterExecution(active, LoopAfter(active, policy, e.rounds, n), e.markAborts)
  }

  function FlowAfter(run: WorkerMap, policy: ExecutionPolicy, e: FlowEnv, n: nat): FlowEnd {
    match RecoveredRun(run, e.recoveryAborts, e.now)
    case None => Raised
    case Some(recovered) =>
      AfterPlanning(StartLoop(recovered, e.planAborts), RecoveryError(Recoveries(run, e.now)), policy, e, n)
  }

  // ----- The flow in place -----

  method Recover(run: WorkerMap, foreign: seq<AbortWrite>, now: Instant)
      returns (recovered: Option<WorkerMap>, error: Option<string>)
    ensures recovered == RecoveredRun(run, foreign, now) && error == RecoveryError(Recoveries(run, now))
  {
    hide ApplyBatch, Interfere, RecoveryFor, ExpiredIds;
    var recoveries := RecoverExpiredActiveAttempts(run, now);
    error := RecoveryError(recoveries);
    if recoveries == [] { return Some(run), error; }
    var transitions := seq(|recoveries|, i requires 0 <= i < |recoveries| => recoveries[i].transition);
    RecoveryTransitions(run, now, transitions);
    recovered := ApplyBatch(Interfere(run, foreign), transitions);
  }

  method Start(run: WorkerMap, policy: ExecutionPolicy, e: FlowEnv, horizon: nat) returns (end: FlowEnd)
    ensures end == FlowAfter(run, policy, e, horizon)
  {
    hide PlanStep, PersistPlan, RecoveredRun, AfterExecution, Recoveries;
    var recovered, recoveryError := Recover(run, e.recoveryAborts, e.now);
    if recovered.None? { return Raised; }
    var planned, step := PlanAndPersist(recovered.value, e.planAborts);
    if planned.None? { return Raised; }
    if recoveryError.Some? && policy == FailFast { return NotExecuted(planned.value, recoveryError); }
    if step.selected.None? { return NotExecuted(planned.value, recoveryError); }
    var start := Loop(recovered.value, planned.value, step.selected, [], None, Open);
    end := ExecutePlanned(start, policy, e, horizon);
    assert !Skips(start, recoveryError, policy);
  }

  method ExecutePlanned(start: Loop, policy: ExecutionPolicy, e: FlowEnv, horizon: nat) returns (end: FlowEnd)
    requires start.end == Open && start.selected.Some?
    ensures forall error :: !Skips(start, error, policy) ==> end == AfterPlanning(start, error, policy, e, horizon)
  {
    hide Interfere, LoopAfter, MarkPromptedFailed;
    var run := start.run;
    match e.probe {
      case Unsupported(error) => end := Mark(run, run, e.markAborts, error);
      case ProbeRaises(error) => end := Mark(run, run, e.markAborts, error);
      case Supported =>
        run := Interfere(run, e.activationAborts);
        var l := ExecuteSerialWorkers(start.(run := run), policy, e.rounds, horizon);
        match l.end {
          case CreationFailed(reason) => end := Mark(run, l.run, e.markAborts, reason);
          case IllegalWrite => end := Raised;
          case Open => end := Executed(l);
          case StoppedFast(_) => end := Executed(l);
        }
    }
  }

  method Mark(stale: WorkerMap, latest: WorkerMap, foreign: seq<AbortWrite>, error: string) returns (end: FlowEnd)
    ensures end == AfterMarking(stale, latest, foreign, error)
  {
    hide MarkPromptedFailed;
    var marked := MarkPromptedWorkersFailed(stale, latest, foreign, error);
    end := if marked.Some? then Marked(marked.value, error) else Raised;
  }

  lemma RecoveryTransitions(run: WorkerMap, now: Instant, transitions: seq<Transition>)
    requires |transitions| == |Recoveries(run, now)|
    requires forall i :: 0 <= i < |transitions| ==> transitions[i] == Recoveries(run, now)[i].transition
    ensures transitions == BatchOf(RecoveryTransition(run, now), ExpiredIds(run, now, SortedIds(run.Keys)))
  {
    hide RecoveryFor, ExpiredIds;
  }

  // ----- Exactly which starts raise -----

  lemma RecoveredIsSome(run: WorkerMap, foreign: seq<AbortWrite>, now: Instant)
    ensures RecoveredRun(run, foreign, now).Some?
  {
    hide Recovered, Recoveries;
    RecoveryIsLegal(run, foreign, now);
  }

  lemma WrittenOverlaid(blocked: bool, a: Worker, b: Worker, c: Worker)
    requires Written(blocked, a, b) && Overlay(b, c)
    ensures Written(blocked, a, c)
  {
    if !blocked { OverlayTransitive(a, b, c); }
  }

  lemma ActivationKeepsWritten(basis: WorkerMap, blocked: set<WorkerId>, run: WorkerMap, foreign: seq<AbortWrite>)
    requires WrittenAll(basis, blocked, run)
    ensures WrittenAll(basis, blocked, Interfere(run, foreign))
  {
    hide Written, Overlay, AbortsOn;
    forall id | id in basis ensures Written(id in blocked, basis[id], Interfere(run, foreign)[id]) {
      AbortsOverlay(id, run[id], foreign);
      WrittenOverlaid(id in blocked, basis[id], run[id], AbortsOn(id, run[id], foreign));
    }
  }

  lemma ActivationKeepsOk(l: Loop, foreign: seq<AbortWrite>)
    requires LoopOk(l) && l.end == Open
    ensures LoopOk(Activate(l, foreign)) && Activate(l, foreign).end == Open
    ensures Activate(l, foreign).basis == l.basis && Activate(l, foreign).selected == l.selected
  {
    hide WrittenAll, Analyze, PlanStep, Interfere;
    ActivationKeepsWritten(l.basis, Analyze(l.basis).blockers.Keys, l.run, foreign);
  }

  /** The loop over the workers of a run; rounds change workers, never the set of them. */
  ghost predicate OkOver(ids: set<WorkerId>, l: Loop) {
    LoopOk(l) && l.run.Keys == ids && (l.end == Open ==> l.basis.Keys == ids)
  }

  lemma RoundKeepsIds(ids: set<WorkerId>, l: Loop, policy: ExecutionPolicy, event: PromptEvent, ws: WorkerMap,
                      next: Loop)
    requires OkOver(ids, l) && RoundEffect(l, policy, event, ws, next)
    ensures OkOver(ids, next)
  {
    hide WrittenAll, Elsewhere, Finished, Analyze, PlanStep, Overlay, LoopOk;
    EffectKeepsOk(l, policy, event, ws, next);
    ElsewhereKeys(l.run, l.selected.value, ws);
    if !next.end.CreationFailed? { WrittenKeys(ws, Analyze(ws).blockers.Keys, next.run); }
  }

  lemma WrittenKeys(basis: WorkerMap, blocked: set<WorkerId>, run: WorkerMap)
    requires WrittenAll(basis, blocked, run)
    ensures run.Keys == basis.Keys
  {
  }

  lemma StepKeepsIds(ids: set<WorkerId>, l: Loop, policy: ExecutionPolicy, env: nat -> RoundEnv, i: nat)
    requires OkOver(ids, l) && Continues(l)
    ensures OkOver(ids, Stepper(policy, env)(l, i))
  {
    hide NextLoop, OkOver, LoopOk, RoundEffect;
    OverIsOk(ids, l);
    RoundHasEffect(l, policy, env(i));
    RoundKeepsIds(ids, l, policy, env(i).attempt.event, AttemptRun(l.run, l.selected.value, env(i).attempt).workers,
                  NextLoop(l, policy, env(i)));
  }

  lemma OverIsOk(ids: set<WorkerId>, l: Loop)
    requires OkOver(ids, l)
    ensures LoopOk(l)
  {
  }

  lemma LoopKeepsIds(ids: set<WorkerId>, l: Loop, policy: ExecutionPolicy, env: nat -> RoundEnv, n: nat)
    requires OkOver(ids, l)
    ensures OkOver(ids, LoopAfter(l, policy, env, n))
  {
    hide NextLoop, Continues, OkOver;
    var inv := (x: Loop) => OkOver(ids, x);
    forall x: Loop, i: nat | inv(x) && Continues(x) ensures inv(Stepper(policy, env)(x, i)) {
      StepKeepsIds(ids, x, policy, env, i);
    }
    RoundsKeep(inv, Stepper(policy, env), l, 0, n);
  }

  /** The loop of a start that attempts anything, as it begins and after n rounds. */
  function ExecutionOf(run: WorkerMap, policy: ExecutionPolicy, e: FlowEnv, n: nat): Option<(Loop, Loop)> {
    match RecoveredRun(run, e.recoveryAborts, e.now)
    case None => None
    case Some(recovered) =>
      var start := StartLoop(recovered, e.planAborts);
      if start.end == IllegalWrite || Skips(start, RecoveryError(Recoveries(run, e.now)), policy) || !e.probe.Supported?
      then None
      else
        var active := Activate(start, e.activationAborts);
        Some((active, LoopAfter(active, policy, e.rounds, n)))
  }

  /** A creation failed, and some worker that could run when the loop began cannot fail where the marking lands. */
  ghost predicate MarkingMeetsSettled(active: Loop, l: Loop, foreign: seq<AbortWrite>) {
    l.end.CreationFailed? && exists id ::
      CanRun(active.run, id) && id in l.run && !CanFail(Interfere(l.run, foreign)[id])
  }

  lemma ExecutionRaisesIff(active: Loop, policy: ExecutionPolicy, e: FlowEnv, n: nat)
    requires LoopOk(active) && active.end == Open
    ensures var l := LoopAfter(active, policy, e.rounds, n);
            && l.run.Keys == active.run.Keys
            && (AfterExecution(active, l, e.markAborts) == Raised <==> MarkingMeetsSettled(active, l, e.markAborts))
  {
    hide LoopAfter, MarkPromptedFailed, CanFail, WrittenAll, Analyze, PlanStep, CanRun;
    WrittenKeys(active.basis, Analyze(active.basis).blockers.Keys, active.run);
    LoopKeepsIds(active.run.Keys, active, policy, e.rounds, n);
    var l := LoopAfter(active, policy, e.rounds, n);
    if l.end.CreationFailed? {
      MarkPromptedFailedIff(active.run, l.run, e.markAborts, l.end.reason);
      forall id | CanRun(active.run, id) ensures id in l.run { CanRunIsWorker(active.run, id); }
    }
  }

  lemma CanRunIsWorker(workers: WorkerMap, id: WorkerId)
    requires CanRun(workers, id)
    ensures id in workers
  {
  }

  lemma PlannedRaisesIff(start: Loop, recoveryError: Option<string>, policy: ExecutionPolicy, e: FlowEnv, n: nat)
    requires LoopOk(start) && start.end == Open
    ensures AfterPlanning(start, recoveryError, policy, e, n) == Raised <==>
            && !Skips(start, recoveryError, policy) && e.probe.Supported?
            && var active := Activate(start, e.activationAborts);
            MarkingMeetsSettled(active, LoopAfter(active, policy, e.rounds, n), e.markAborts)
  {
    hide LoopAfter, MarkPromptedFailed, LoopOk, AfterExecution, MarkingMeetsSettled, Activate, Skips;
    if e.probe.Supported? {
      ActivationKeepsOk(start, e.activationAborts);
      ExecutionRaisesIff(Activate(start, e.activationAborts), policy, e, n);
    } else {
      FreshMarkingIsLegal(start.run, [], e.markAborts, e.probe.error);
      InterfereNothing(start.run);
    }
  }

  /** The only illegal transition that a whole start can issue, from recovery to its last write, is in marking pending
      workers failed after a creation failed: it raises exactly when one of the workers that could run when the loop
      began has since come to where it cannot fail. */
  lemma StartRaisesIff(run: WorkerMap, policy: ExecutionPolicy, e: FlowEnv, n: nat)
    ensures FlowAfter(run, policy, e, n) == Raised <==>
            var x := ExecutionOf(run, policy, e, n);
            x.Some? && MarkingMeetsSettled(x.value.0, x.value.1, e.markAborts)
  {
    hide RecoveredRun, StartLoop, LoopAfter, LoopOk, AfterPlanning, MarkingMeetsSettled, Activate, Skips, Recoveries;
    RecoveredIsSome(run, e.recoveryAborts, e.now);
    var start := StartLoop(RecoveredRun(run, e.recoveryAborts, e.now).value, e.planAborts);
    StartLoopOk(RecoveredRun(run, e.recoveryAborts, e.now).value, e.planAborts);
    PlannedRaisesIff(start, RecoveryError(Recoveries(run, e.now)), policy, e, n);
  }

  // ----- How a start ends -----

  lemma EveryRecoveryTellsAnError(run: WorkerMap, now: Instant)
    ensures RecoveryError(Recoveries(run, now)).Some? <==> exists id :: id in run && Overdue(run[id], now)
    ensures var recoveries := Recoveries(run, now);
            RecoveryError(recoveries) == if recoveries == [] then None else recoveries[0].error
  {
    hide Overdue, RecoveryFor;
    RecoveryIsExact(run, now);
    var recoveries := Recoveries(run, now);
    if recoveries == [] {
      forall id | id in run ensures !Overdue(run[id], now) { assert !Recovers(recoveries, id); }
    } else {
      RecoveryTellsError(run, now);
      assert recoveries[0].workerId in run && Overdue(run[recoveries[0].workerId], now) by {
        assert Recovers(recoveries, recoveries[0].workerId);
      }
    }
  }

  lemma RecoveryTellsError(run: WorkerMap, now: Instant)
    ensures Recoveries(run, now) != [] ==> Recoveries(run, now)[0].error.Some?
  {
  }

  /** Every worker that could run before is failed by the error, or was aborted; the others only gained aborts. */
  ghost predicate AllMarked(before: WorkerMap, latest: WorkerMap, after: WorkerMap, error: string) {
    && after.Keys == latest.Keys
    && forall id :: id in latest ==>
         if CanRun(before, id) then MarkedFailed(after[id], error) else Overlay(latest[id], after[id])
  }

  lemma MarkingMarks(stale: WorkerMap, latest: WorkerMap, foreign: seq<AbortWrite>, error: string)
    requires latest.Keys == stale.Keys
    ensures var end := AfterMarking(stale, latest, foreign, error);
            end == Raised || (end.Marked? && end.error == error && AllMarked(stale, latest, end.run, error))
  {
    hide MarkPromptedFailed, MarkedFailed, Overlay, CanRun, CanFail, AbortsOn;
    MarkPromptedFailedIff(stale, latest, foreign, error);
    forall id | id in latest ensures Overlay(latest[id], Interfere(latest, foreign)[id]) {
      AbortsOverlay(id, latest[id], foreign);
    }
  }

  /** What execution ends in: a failed probe, or a failed creation, marks whoever could run when execution began, by its
      error; else the loop ran. */
  ghost predicate ExecutedAs(start: Loop, policy: ExecutionPolicy, e: FlowEnv, n: nat, end: FlowEnd) {
    if !e.probe.Supported? then
      end.Marked? && end.error == e.probe.error && AllMarked(start.run, start.run, end.run, e.probe.error)
    else
      var active := Activate(start, e.activationAborts);
      var l := LoopAfter(active, policy, e.rounds, n);
      if l.end.CreationFailed? then
        || end == Raised
        || (end.Marked? && end.error == l.end.reason && AllMarked(active.run, l.run, end.run, l.end.reason))
      else end == Executed(l)
  }

  lemma PlannedEnds(start: Loop, recoveryError: Option<string>, policy: ExecutionPolicy, e: FlowEnv, n: nat)
    requires LoopOk(start) && start.end == Open && !Skips(start, recoveryError, policy)
    ensures ExecutedAs(start, policy, e, n, AfterPlanning(start, recoveryError, policy, e, n))
  {
    hide LoopAfter, LoopOk, Activate, AfterMarking, AfterExecution, AllMarked, Skips;
    if e.probe.Supported? {
      ActivationKeepsOk(start, e.activationAborts);
      ExecutionEnds(Activate(start, e.activationAborts), policy, e, n);
    } else {
      MarkingMarks(start.run, start.run, e.markAborts, e.probe.error);
      ProbeMarks(start, e);
    }
  }

  /** Nobody is attempted exactly if nobody is ready, or if an attempt was overdue under fail-fast. */
  ghost predicate Idles(run: WorkerMap, recovered: WorkerMap, policy: ExecutionPolicy, now: Instant) {
    || (policy == FailFast && exists id :: id in run && Overdue(run[id], now))
    || forall id :: !IsReady(recovered, Analyze(recovered).blockers.Keys, id)
  }

  lemma SkipsIff(run: WorkerMap, recovered: WorkerMap, policy: ExecutionPolicy, e: FlowEnv)
    ensures Skips(StartLoop(recovered, e.planAborts), RecoveryError(Recoveries(run, e.now)), policy) <==>
            Idles(run, recovered, policy, e.now)
  {
    hide StartLoop, Recoveries, Overdue, IsReady, Analyze;
    EveryRecoveryTellsAnError(run, e.now);
    StartSelects(recovered, e.planAborts);
  }

  /** A start that attempts nobody leaves the planned run and tells whether an attempt was overdue; any other ends as
      its execution does. */
  lemma StartEnds(run: WorkerMap, policy: ExecutionPolicy, e: FlowEnv, n: nat)
    ensures RecoveredRun(run, e.recoveryAborts, e.now).Some?
    ensures var recovered := RecoveredRun(run, e.recoveryAborts, e.now).value;
            var start := StartLoop(recovered, e.planAborts); var end := FlowAfter(run, policy, e, n);
            if Idles(run, recovered, policy, e.now) then
              && end.NotExecuted? && end.run == start.run
              && end.recoveryError == (var recoveries := Recoveries(run, e.now);
                                       if recoveries == [] then None else recoveries[0].error)
              && (end.recoveryError.Some? <==> exists id :: id in run && Overdue(run[id], e.now))
            else !end.NotExecuted? && ExecutedAs(start, policy, e, n, end)
  {
    hide RecoveredRun, StartLoop, LoopOk, Overdue, Recoveries, ExecutedAs, Idles, Skips;
    RecoveredIsSome(run, e.recoveryAborts, e.now);
    EveryRecoveryTellsAnError(run, e.now);
    var recovered := RecoveredRun(run, e.recoveryAborts, e.now).value;
    var start := StartLoop(recovered, e.planAborts);
    StartLoopOk(recovered, e.planAborts);
    SkipsIff(run, recovered, policy, e);
    var error := RecoveryError(Recoveries(run, e.now));
    FlowPlans(run, policy, e, n);
    if !Skips(start, error, policy) {
      PlannedEnds(start, error, policy, e, n);
      ExecutedIsExecuted(start, policy, e, n, AfterPlanning(start, error, policy, e, n));
    }
  }

  lemma FlowPlans(run: WorkerMap, policy: ExecutionPolicy, e: FlowEnv, n: nat)
    requires RecoveredRun(run, e.recoveryAborts, e.now).Some?
    ensures var start := StartLoop(RecoveredRun(run, e.recoveryAborts, e.now).value, e.planAborts);
            var error := RecoveryError(Recoveries(run, e.now));
            && FlowAfter(run, policy, e, n) == AfterPlanning(start, error, policy, e, n)
            && (start.end == Open && Skips(start, error, policy) ==>
                  AfterPlanning(start, error, policy, e, n) == NotExecuted(start.run, error))
  {
    hide RecoveredRun, StartLoop, Recoveries, Skips;
  }

  lemma ExecutedIsExecuted(start: Loop, policy: ExecutionPolicy, e: FlowEnv, n: nat, end: FlowEnd)
    requires ExecutedAs(start, policy, e, n, end)
    ensures !end.NotExecuted?
  {
    hide LoopAfter, AllMarked, Activate;
  }

  lemma ProbeMarks(start: Loop, e: FlowEnv)
    ensures !e.probe.Supported? ==> AfterMarking(start.run, start.run, e.markAborts, e.probe.error) != Raised
  {
    hide MarkPromptedFailed;
    if !e.probe.Supported? {
      FreshMarkingIsLegal(start.run, [], e.markAborts, e.probe.error);
      InterfereNothing(start.run);
    }
  }

  lemma StartSelects(recovered: WorkerMap, foreign: seq<AbortWrite>)
    ensures StartLoop(recovered, foreign).selected.None? <==>
            forall id :: !IsReady(recovered, Analyze(recovered).blockers.Keys, id)
  {
    hide Analyze, IsReady, PersistPlan;
    StartLoopOk(recovered, foreign);
    SelectedIsFirstReady(recovered);
    forall id ensures id in Analyze(recovered).ready <==> IsReady(recovered, Analyze(recovered).blockers.Keys, id) {
      AnalyzedReadyIff(recovered, id);
    }
    var ready := Analyze(recovered).ready;
    assert StartLoop(recovered, foreign).selected == FirstOf(ready);
    NonEmptyHasFirst(ready);
    if ready != [] { assert IsReady(recovered, Analyze(recovered).blockers.Keys, ready[0]); }
  }

  lemma OkIsLegal(l: Loop)
    requires LoopOk(l)
    ensures l.end != IllegalWrite
  {
  }

  lemma ExecutionEnds(active: Loop, policy: ExecutionPolicy, e: FlowEnv, n: nat)
    requires LoopOk(active) && active.end == Open
    ensures var l := LoopAfter(active, policy, e.rounds, n); var end := AfterExecution(active, l, e.markAborts);
            if l.end.CreationFailed? then
              end == Raised ||
              (end.Marked? && end.error == l.end.reason && AllMarked(active.run, l.run, end.run, l.end.reason))
            else end == Executed(l)
  {
    hide LoopAfter, AfterMarking, LoopOk, AllMarked, MarkingMeetsSettled;
    ExecutionRaisesIff(active, policy, e, n);
    OkLoopStaysOk(active, policy, e.rounds, n);
    OkIsLegal(LoopAfter(active, policy, e.rounds, n));
    var l := LoopAfter(active, policy, e.rounds, n);
    if l.end.CreationFailed? { MarkingMarks(active.run, l.run, e.markAborts, l.end.reason); }
  }

  /** The error with which a start is reported. */
  function StartError(end: FlowEnd, recoveryError: Option<string>): Option<string> {
    match end
    case NotExecuted(_, error) => error
    case Marked(_, error) => Some(error)
    case Executed(l) =>
      if l.end.StoppedFast? then Some(l.end.error)
      else if recoveryError.Some? then recoveryError else l.firstError
    case Raised => None
  }

  /** A start that does not raise reports no error exactly if nothing was overdue, nobody was marked failed, and no
      attempt reported an error. */
  lemma NoErrorMeansClean(run: WorkerMap, policy: ExecutionPolicy, e: FlowEnv, n: nat)
    requires FlowAfter(run, policy, e, n) != Raised && RecoveredRun(run, e.recoveryAborts, e.now).Some?
    ensures var end := FlowAfter(run, policy, e, n);
            var start := StartLoop(RecoveredRun(run, e.recoveryAborts, e.now).value, e.planAborts);
            var active := Activate(start, e.activationAborts);
            StartError(end, RecoveryError(Recoveries(run, e.now))).None? <==>
            && !(exists id :: id in run && Overdue(run[id], e.now))
            && (end.NotExecuted? ||
                (end.Executed? && forall i: nat :: i < n ==> ReportedAt(active, policy, e.rounds, i).None?))
  {
    hide RecoveredRun, LoopAfter, LoopOk, Overdue, Recoveries, Analyze, IsReady, AllMarked, FlowAfter, PersistPlan,
         ReportedAt, Idles;
    StartEnds(run, policy, e, n);
    EveryRecoveryTellsAnError(run, e.now);
    var start := StartLoop(RecoveredRun(run, e.recoveryAborts, e.now).value, e.planAborts);
    StartLoopOk(RecoveredRun(run, e.recoveryAborts, e.now).value, e.planAborts);
    var active := Activate(start, e.activationAborts);
    FirstErrorIsTold(active, policy, e.rounds, n);
  }

  // ----- A start that raises -----

  lemma NothingToRecover(run: WorkerMap, now: Instant)
    requires forall id :: id in run ==> run[id].lifecycle != ActiveWait
    ensures Recoveries(run, now) == []
  {
    hide ExpiredIds, NeedsRecovery, RecoveryFor;
    forall id | id in run ensures !NeedsRecovery(run[id], now) { AbortedNeedsNothing(run[id], now); }
    ExpiredIdsExact(run, now, SortedIds(run.Keys));
    NonEmptyHasFirst(ExpiredIds(run, now, SortedIds(run.Keys)));
  }

  lemma FlowWithoutRecovery(run: WorkerMap, policy: ExecutionPolicy, e: FlowEnv, n: nat)
    requires Recoveries(run, e.now) == [] && StartLoop(run, e.planAborts).end == Open
    requires StartLoop(run, e.planAborts).selected.Some? && e.probe.Supported?
    ensures var active := Activate(StartLoop(run, e.planAborts), e.activationAborts);
            FlowAfter(run, policy, e, n) == AfterExecution(active, LoopAfter(active, policy, e.rounds, n), e.markAborts)
  {
    hide StartLoop, LoopAfter, AfterExecution, Activate, Recoveries;
    assert RecoveryError([]) == None;
  }

  /** Two independent queued workers: the first succeeds, the second one's creation fails, and marking raises. */
  lemma StartThatRaises() returns (e: FlowEnv)
    ensures FlowAfter(TWO_WORKERS, ContinueOnError, e, 2) == Raised
  {
    hide NextLoop, StartLoop, MarkPromptedFailed, Recoveries, FlowAfter, LoopAfter, Calm;
    var rounds := (i: nat) => if i == 0 then CalmEnv(ONE_SUCCESS) else CREATION_DOWN;
    e := FlowEnv([], [], [], [], 0, Supported, rounds);
    NothingToRecover(TWO_WORKERS, 0);
    var start := StartLoop(TWO_WORKERS, []);
    var first, failed := CreationFailureAfterSuccessRaises();
    InterfereNothing(start.run);
    assert Activate(start, []) == start;
    CalmStart(TWO_WORKERS);
    TwoRounds(start, first, failed, rounds);
    SelectedAtStart();
    FlowWithoutRecovery(TWO_WORKERS, ContinueOnError, e, 2);
  }

  lemma TwoRounds(start: Loop, first: Loop, failed: Loop, rounds: nat -> RoundEnv)
    requires first == NextLoop(start, ContinueOnError, rounds(0))
             && failed == NextLoop(first, ContinueOnError, rounds(1))
    requires failed.attempts == [1, 2] && start.attempts == []
    ensures LoopAfter(start, ContinueOnError, rounds, 2) == failed
  {
    hide NextLoop;
    var step := Stepper(ContinueOnError, rounds);
    StoppedLoopStays(start, ContinueOnError, rounds(0));
    StoppedLoopStays(first, ContinueOnError, rounds(1));
    assert Rounds(step, failed, 2, 0) == failed;
    assert step(start, 0) == first && step(first, 1) == failed;
    if Continues(start) {
      assert Rounds(step, start, 0, 2) == Rounds(step, first, 1, 1);
      if Continues(first) { assert Rounds(step, first, 1, 1) == Rounds(step, failed, 2, 0); }
    }
  }

  lemma StoppedLoopStays(l: Loop, policy: ExecutionPolicy, e: RoundEnv)
    ensures !Continues(l) ==> NextLoop(l, policy, e) == l
  {
  }

  lemma SelectedAtStart()
    ensures StartLoop(TWO_WORKERS, []).selected == Some(1) && StartLoop(TWO_WORKERS, []).end == Open
  {
    hide PlanStep, AfterPlan, LoopOk;
    CalmStart(TWO_WORKERS);
    CalmSelection(StartLoop(TWO_WORKERS, []));
    IndependentSelection(TWO_WORKERS, 1);
  }

  // ----- Completion of a start -----

  /** Every prompted worker that waits for an answer has waited longer than its lease. */
  ghost predicate OnlyExpiredWait(run: WorkerMap, now: Instant) {
    forall id :: id in run && run[id].HasPrompt() && run[id].lifecycle == ActiveWait ==> NeedsRecovery(run[id], now)
  }

  lemma RecoveredWaits(run: WorkerMap, foreign: seq<AbortWrite>, now: Instant, id: WorkerId, b: Worker)
    requires id in run
    requires b == if NeedsRecovery(run[id], now)
                  then Offer(AbortsOn(id, run[id], foreign), RecoveryTransition(run, now)(id))
                  else AbortsOn(id, run[id], foreign)
    requires run[id].HasPrompt() && run[id].lifecycle == ActiveWait ==> NeedsRecovery(run[id], now)
    ensures b.HasPrompt() ==> b.lifecycle != ActiveWait
  {
    hide NeedsRecovery, RecoveryTransition, Offer, RecoveryPayload;
    AbortsOverlay(id, run[id], foreign);
    if NeedsRecovery(run[id], now) {
      NeedsRecoveryHas(run[id], now);
      RecoveryShape(run, id, now);
      PayloadIsTimeout(run[id], now);
      RecoveryAfterAborts(run[id], AbortsOn(id, run[id], foreign), RecoveryTransition(run, now)(id));
      TimedOutLeavesWaiting(AbortsOn(id, run[id], foreign), RecoveryTransition(run, now)(id));
    }
  }

  lemma NobodyWaitsAfterRecovery(run: WorkerMap, foreign: seq<AbortWrite>, now: Instant)
    requires OnlyExpiredWait(run, now)
    ensures RecoveredRun(run, foreign, now).Some? && NobodyWaits(RecoveredRun(run, foreign, now).value)
  {
    hide NeedsRecovery, RecoveryTransition, ExpiredIds, Offer, Recovered, RecoveryFor, AbortsOn;
    RecoveryIsLegal(run, foreign, now);
    ExpiredIdsExact(run, now, SortedIds(run.Keys));
    var ids := ExpiredIds(run, now, SortedIds(run.Keys));
    if Recoveries(run, now) == [] {
      assert ids == [];
    } else {
      var after := Recovered(run, foreign, now).value;
      forall id | id in after && after[id].HasPrompt() ensures after[id].lifecycle != ActiveWait {
        RecoveredWaits(run, foreign, now, id, after[id]);
      }
    }
  }

  lemma ActivationKeepsQuiet(l: Loop, foreign: seq<AbortWrite>)
    requires QuietLoop(l) && l.end == Open
    ensures QuietLoop(Activate(l, foreign)) && Activate(l, foreign).end == Open
  {
    hide LoopOk, NobodyWaits, Interfere;
    ActivationKeepsOk(l, foreign);
  }

  /** The run that a start leaves behind when it neither marked anybody failed nor stopped for an error. */
  function LeftBehind(end: FlowEnd, recoveryError: Option<string>, policy: ExecutionPolicy): Option<WorkerMap> {
    match end
    case NotExecuted(run, _) => if recoveryError.Some? && policy == FailFast then None else Some(run)
    case Executed(l) => if l.end == Open && l.selected.None? then Some(l.run) else None
    case Marked(_, _) | Raised => None
  }

  lemma PlannedCompletes(start: Loop, recoveryError: Option<string>, policy: ExecutionPolicy, e: FlowEnv, n: nat)
    requires QuietLoop(start) && start.end == Open
    ensures var left := LeftBehind(AfterPlanning(start, recoveryError, policy, e, n), recoveryError, policy);
            left.Some? ==> NoneLeft(left.value)
  {
    hide LoopAfter, NoneLeft, MarkPromptedFailed, QuietLoop, Activate;
    if start.selected.None? { NothingSelectedMeansNoneLeft(start); }
    ActivationKeepsQuiet(start, e.activationAborts);
    var active := Activate(start, e.activationAborts);
    QuietLoopStaysQuiet(active, policy, e.rounds, n);
    var l := LoopAfter(active, policy, e.rounds, n);
    if l.end == Open && l.selected.None? { NothingSelectedMeansNoneLeft(l); }
  }

  /** A start that stops selecting leaves no prompted worker queued, waiting or to be retried, provided that whoever
      waited before it had outlived its lease. */
  lemma FlowCompletes(run: WorkerMap, policy: ExecutionPolicy, e: FlowEnv, n: nat)
    requires OnlyExpiredWait(run, e.now)
    ensures var left := LeftBehind(FlowAfter(run, policy, e, n), RecoveryError(Recoveries(run, e.now)), policy);
            left.Some? ==> NoneLeft(left.value)
  {
    hide RecoveredRun, StartLoop, OnlyExpiredWait, NobodyWaits, NoneLeft, QuietLoop, LeftBehind, AfterPlanning,
         Recoveries;
    NobodyWaitsAfterRecovery(run, e.recoveryAborts, e.now);
    var recovered := RecoveredRun(run, e.recoveryAborts, e.now).value;
    StartIsQuiet(recovered, e.planAborts);
    StartLoopOk(recovered, e.planAborts);
    PlannedCompletes(StartLoop(recovered, e.planAborts), RecoveryError(Recoveries(run, e.now)), policy, e, n);
  }
}
