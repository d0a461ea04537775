/** One planning step: whom it blocks, whom it selects, and why no worker is starved silently. */
module Planner {
  import opened Common
  import opened Lifecycle
  import opened Workers
  import opened DependencyWalk
  import opened DependencyAnalysis
  import opened BlockerLaws

  // ----- Applying a batch of transitions as one persisted write -----

  function Latest(workers: WorkerMap, id: WorkerId): Worker {
    if id in workers then workers[id] else DefaultWorker(id)
  }

  /** None when a transition is illegal: the error is raised before anything is written. */
  function ApplyBatch(workers: WorkerMap, ts: seq<Transition>): Option<WorkerMap>
    decreases |ts|
  {
    if ts == [] then Some(workers)
    else
      var latest := Latest(workers, ts[0].workerId);
      if Apply(latest, ts[0]) == Skipped(false) then None
      else ApplyBatch(workers[ts[0].workerId := Offer(latest, ts[0])], ts[1..])
  }

  /** The transitions f makes for the listed workers, in order. */
  function BatchOf(f: WorkerId -> Transition, ids: seq<WorkerId>): seq<Transition> {
    seq(|ids|, i requires 0 <= i < |ids| => f(ids[i]))
  }

  function Offered(workers: WorkerMap, f: WorkerId -> Transition, ids: seq<WorkerId>): WorkerMap {
    map id | id in workers :: if id in ids then Offer(workers[id], f(id)) else workers[id]
  }

  predicate Raises(workers: WorkerMap, f: WorkerId -> Transition, id: WorkerId) {
    id in workers && Apply(workers[id], f(id)) == Skipped(false)
  }

  /** A batch over distinct workers is written iff each transition on its own would not raise. */
  lemma {:induction false} BatchIsAllOrNothing(workers: WorkerMap, f: WorkerId -> Transition, ids: seq<WorkerId>)
    requires NoDuplicates(ids)
    requires forall id :: id in ids ==> id in workers && f(id).workerId == id
    ensures ApplyBatch(workers, BatchOf(f, ids)) ==
            if exists id :: id in ids && Raises(workers, f, id) then None else Some(Offered(workers, f, ids))
    decreases |ids|
  {
    var ts := BatchOf(f, ids);
    if ids == [] {
      assert Offered(workers, f, ids) == workers;
    } else {
      var id := ids[0];
      assert ts[0] == f(id) && ts[1..] == BatchOf(f, ids[1..]);
      assert forall x :: x in ids <==> x == id || x in ids[1..];
      if !Raises(workers, f, id) {
        var next := workers[id := Offer(workers[id], f(id))];
        BatchIsAllOrNothing(next, f, ids[1..]);
        assert id !in ids[1..];
        forall x | x in ids[1..] ensures Raises(next, f, x) <==> Raises(workers, f, x) { }
        assert Offered(next, f, ids[1..]) == Offered(workers, f, ids);
      }
    }
  }

  // ----- The planning step -----

  datatype Step = Step(selected: Option<WorkerId>, transitions: seq<Transition>)

  function BlockTransition(blockers: BlockerMap): WorkerId -> Transition {
    (id: WorkerId) => Transition(id, DependencyBlocked(ListOf(blockers, id)), None)
  }

  function FirstOf(ready: seq<WorkerId>): Option<WorkerId> {
    if ready != [] then Some(ready[0]) else None
  }

  function PlanStep(workers: WorkerMap): Step {
    var a := Analyze(workers);
    Step(FirstOf(a.ready),
         BatchOf(BlockTransition(a.blockers), SortedIds(a.blockers.Keys)))
  }

  function AfterBlocking(workers: WorkerMap, blockers: BlockerMap): WorkerMap {
    Offered(workers, BlockTransition(blockers), SortedIds(blockers.Keys))
  }

  /** The run after the plan's own transitions were applied to it. */
  function AfterPlan(workers: WorkerMap): WorkerMap {
    AfterBlocking(workers, Analyze(workers).blockers)
  }

  lemma BlockableStates(workers: WorkerMap, id: WorkerId)
    requires Blockable(workers, id)
    ensures workers[id].lifecycle in {Queued, ActiveWait, ActiveRetry} && !workers[id].AcceptedAbort()
  {
  }

  lemma BlockingBlocks(w: Worker, id: WorkerId, blockers: seq<Blocker>)
    requires w.CanBlock()
    ensures var t := Transition(id, DependencyBlocked(blockers), None);
            Apply(w, t) == Applied(w.(id := id, lifecycle := BlockedDependency, blockers := blockers))
  {
  }

  /** Planning never raises on the run it planned for. */
  lemma PlanIsLegal(workers: WorkerMap)
    ensures ApplyBatch(workers, PlanStep(workers).transitions) == Some(AfterPlan(workers))
  {
    var blockers := Analyze(workers).blockers;
    var ids := SortedIds(blockers.Keys);
    var f := BlockTransition(blockers);
    AscendingDistinct(ids);
    forall id | id in ids ensures id in workers && f(id).workerId == id && !Raises(workers, f, id) {
      BlockedWorkersHaveBlockers(workers, id);
      BlockingBlocks(workers[id], id, ListOf(blockers, id));
    }
    BatchIsAllOrNothing(workers, f, ids);
  }

  lemma OfferedBlocks(workers: WorkerMap, blockers: BlockerMap, id: WorkerId)
    requires id in workers && (id in blockers ==> Blockable(workers, id))
    ensures AfterBlocking(workers, blockers)[id] ==
            if id in blockers
            then workers[id].(id := id, lifecycle := BlockedDependency, blockers := blockers[id]) else workers[id]
  {
    if id in blockers { BlockingBlocks(workers[id], id, blockers[id]); }
  }

  // ----- Progress -----

  lemma {:induction false} ReadyIff(workers: WorkerMap, blocked: set<WorkerId>, ids: seq<WorkerId>, id: WorkerId)
    ensures id in ReadyAmong(workers, blocked, ids) <==> id in ids && IsReady(workers, blocked, id)
  {
    if ids != [] {
      var n := |ids| - 1;
      ReadyIff(workers, blocked, ids[..n], id);
      assert ids == ids[..n] + [ids[n]];
    }
  }

  lemma AnalyzedReadyIff(workers: WorkerMap, id: WorkerId)
    ensures id in Analyze(workers).ready <==> IsReady(workers, Analyze(workers).blockers.Keys, id)
  {
    ReadyIff(workers, Analyze(workers).blockers.Keys, SortedIds(workers.Keys), id);
  }

  predicate Unblocked(workers: WorkerMap, blocked: set<WorkerId>, id: WorkerId) {
    Blockable(workers, id) && id !in blocked
  }

  /** Every prompted runnable worker that the seeds or the propagation reach is blocked. */
  lemma BlockedIff(workers: WorkerMap, id: WorkerId)
    requires Blockable(workers, id)
    ensures var a := Analyze(workers);
            id in a.blockers <==>
            || OnRecordedCycle(WalkOf(GraphOf(workers)).cycles, id)
            || WaitsForNonRunnable(workers, id)
            || WaitsForFailed(workers, id)
            || (exists d :: DependsOn(workers, id, d) && (d in a.invalid || d in a.dependency))
  {
    var cycles := WalkOf(GraphOf(workers)).cycles;
    InvalidSeedIff(workers, cycles, id);
    DependencySeedIff(workers, id);
    BlockedWorkersHaveBlockers(workers, id);
    BlockedByPropagationIff(workers, InvalidSeeds(workers, cycles), id);
    BlockedByPropagationIff(workers, DependencySeeds(workers), id);
  }

  lemma BlockedByPropagationIff(workers: WorkerMap, m: BlockerMap, id: WorkerId)
    requires Blockable(workers, id)
    ensures var p := Propagated(workers, m);
            id in p <==> id in m || exists d :: DependsOn(workers, id, d) && d in p
  {
    PropagatedIsLeastClosed(workers, m);
    var p := Propagated(workers, m);
    if id in p && id !in m {
      BlockersNameEarlierRounds(workers, m, id);
      assert NamesEarlier(workers, m, id, p[id][0]);
    }
  }

  /** What an unblocked worker may depend on: done workers and unblocked ones listed before it. */
  ghost predicate Admits(workers: WorkerMap, order: seq<WorkerId>, blocked: set<WorkerId>) {
    forall id, d :: Unblocked(workers, blocked, id) && DependsOn(workers, id, d) ==>
      IsDone(workers, d) || (Unblocked(workers, blocked, d) && Before(order, d, id))
  }

  lemma AnalysisAdmits(workers: WorkerMap)
    ensures Admits(workers, WalkOf(GraphOf(workers)).ordered, Analyze(workers).blockers.Keys)
  {
    var blocked := Analyze(workers).blockers.Keys;
    forall id, d | Unblocked(workers, blocked, id) && DependsOn(workers, id, d) && !IsDone(workers, d)
      ensures Unblocked(workers, blocked, d) && Before(WalkOf(GraphOf(workers)).ordered, d, id)
    {
      BlockedIff(workers, id);
      BlockedWorkersHaveBlockers(workers, d);
      AdmitsOne(workers, blocked, id, d);
    }
  }

  lemma AdmitsOne(workers: WorkerMap, blocked: set<WorkerId>, id: WorkerId, d: WorkerId)
    requires Unblocked(workers, blocked, id) && DependsOn(workers, id, d) && !IsDone(workers, d) && d !in blocked
    requires !OnRecordedCycle(WalkOf(GraphOf(workers)).cycles, id)
    requires !WaitsForNonRunnable(workers, id) && !WaitsForFailed(workers, id)
    ensures Unblocked(workers, blocked, d) && Before(WalkOf(GraphOf(workers)).ordered, d, id)
  {
    hide WalkOf, Before, EndsWith, OnRecordedCycle;
    assert !MissingOrFailed(workers, d) && !NonRunnable(workers, d);
    DependenciesComeFirst(GraphOf(workers), id, d);
    NotOnClosingEdge(WalkOf(GraphOf(workers)).cycles, id, d);
  }

  lemma NotOnClosingEdge(cycles: seq<seq<WorkerId>>, id: WorkerId, d: WorkerId)
    requires !OnRecordedCycle(cycles, id)
    ensures forall c :: c in cycles ==> !(EndsWith(c, id, d) && id in c[..|c| - 1])
  {
  }

  /** A chain of unblocked workers, each waiting for the next. */
  ghost predicate WaitChain(workers: WorkerMap, blocked: set<WorkerId>, chain: seq<WorkerId>) {
    && chain != []
    && (forall i :: 0 <= i < |chain| ==> Unblocked(workers, blocked, chain[i]))
    && forall i :: 0 <= i < |chain| - 1 ==> DependsOn(workers, chain[i], chain[i + 1])
  }

  lemma WaitChainCons(workers: WorkerMap, blocked: set<WorkerId>, id: WorkerId, rest: seq<WorkerId>)
    requires WaitChain(workers, blocked, rest) && Unblocked(workers, blocked, id) && DependsOn(workers, id, rest[0])
    ensures WaitChain(workers, blocked, [id] + rest)
  {
    var chain := [id] + rest;
    forall i | 0 <= i < |chain| - 1 ensures DependsOn(workers, chain[i], chain[i + 1]) {
      if i > 0 { assert DependsOn(workers, rest[i - 1], rest[i - 1 + 1]); }
    }
  }

  /** Ready to run now, or running already. */
  predicate Moving(workers: WorkerMap, blocked: set<WorkerId>, id: WorkerId) {
    IsReady(workers, blocked, id) || (id in workers && workers[id].lifecycle == ActiveWait)
  }

  lemma {:induction false} ChainToProgress(workers: WorkerMap, order: seq<WorkerId>, blocked: set<WorkerId>,
                                           id: WorkerId)
      returns (chain: seq<WorkerId>)
    requires NoDuplicates(order) && Admits(workers, order, blocked) && Unblocked(workers, blocked, id)
    ensures WaitChain(workers, blocked, chain) && chain[0] == id && Moving(workers, blocked, chain[|chain| - 1])
    decreases if id in order then IndexOf(order, id) + 1 else |order| + 1
  {
    if Moving(workers, blocked, id) {
      chain := [id];
    } else {
      BlockableStates(workers, id);
      var d :| d in Dependencies(workers, id) && !IsDone(workers, d);
      assert DependsOn(workers, id, d);
      var rest := ChainToProgress(workers, order, blocked, d);
      chain := [id] + rest;
      WaitChainCons(workers, blocked, id, rest);
    }
  }

  /** From every unblocked worker, on any graph, dependencies lead to a worker that is ready now or being waited for. */
  lemma UnblockedLeadsToProgress(workers: WorkerMap, id: WorkerId) returns (chain: seq<WorkerId>)
    requires Unblocked(workers, Analyze(workers).blockers.Keys, id)
    ensures WaitChain(workers, Analyze(workers).blockers.Keys, chain) && chain[0] == id
    ensures Moving(workers, Analyze(workers).blockers.Keys, chain[|chain| - 1])
  {
    OrderListsEveryWorkerOnce(GraphOf(workers));
    AnalysisAdmits(workers);
    chain := ChainToProgress(workers, WalkOf(GraphOf(workers)).ordered, Analyze(workers).blockers.Keys, id);
  }

  /** When nothing is ready and nobody is being waited for, every prompted runnable worker shows a blocker. */
  lemma NoSilentStarvation(workers: WorkerMap)
    requires Analyze(workers).ready == []
    requires forall id :: id in workers && workers[id].HasPrompt() ==> workers[id].lifecycle != ActiveWait
    ensures forall id :: Blockable(workers, id) ==>
              id in Analyze(workers).blockers && Analyze(workers).blockers[id] != []
  {
    forall id | Blockable(workers, id) ensures id in Analyze(workers).blockers && Analyze(workers).blockers[id] != [] {
      if id !in Analyze(workers).blockers {
        var chain := UnblockedLeadsToProgress(workers, id);
        AnalyzedReadyIff(workers, chain[|chain| - 1]);
      }
      BlockedWorkersHaveBlockers(workers, id);
    }
  }

  /** The selected worker is executable with every dependency done, and not blocked. */
  lemma SelectedIsReady(workers: WorkerMap)
    requires PlanStep(workers).selected.Some?
    ensures IsReady(workers, Analyze(workers).blockers.Keys, PlanStep(workers).selected.value)
  {
    AnalyzedReadyIff(workers, Analyze(workers).ready[0]);
  }

  // ----- The step in terms of the analysis -----

  lemma AnalyzedReady(workers: WorkerMap)
    ensures Analyze(workers).ready == ReadyAmong(workers, Analyze(workers).blockers.Keys, SortedIds(workers.Keys))
  {
  }

  lemma SelectedIsFirstReady(workers: WorkerMap)
    ensures PlanStep(workers).selected == FirstOf(Analyze(workers).ready)
  {
  }

  lemma {:induction false} ReadyAscends(workers: WorkerMap, blocked: set<WorkerId>, ids: seq<WorkerId>)
    requires Ascending(ids)
    ensures Ascending(ReadyAmong(workers, blocked, ids))
  {
    hide IsReady;
    if ids != [] {
      var n := |ids| - 1;
      ReadyAscends(workers, blocked, ids[..n]);
      var ready := ReadyAmong(workers, blocked, ids[..n]);
      forall j | 0 <= j < |ready| ensures ready[j] < ids[n] {
        ReadyIff(workers, blocked, ids[..n], ready[j]);
        assert ready[j] in ready;
        var i :| 0 <= i < n && ids[i] == ready[j];
      }
    }
  }

  lemma FirstIsLeast(workers: WorkerMap, blocked: set<WorkerId>, ids: seq<WorkerId>, id: WorkerId)
    requires Ascending(ids)
    ensures FirstOf(ReadyAmong(workers, blocked, ids)) == Some(id) <==>
            && id in ids && IsReady(workers, blocked, id)
            && forall x :: x in ids && IsReady(workers, blocked, x) ==> id <= x
  {
    hide IsReady, ReadyAmong;
    var ready := ReadyAmong(workers, blocked, ids);
    ReadyAscends(workers, blocked, ids);
    forall x ensures x in ready <==> x in ids && IsReady(workers, blocked, x) { ReadyIff(workers, blocked, ids, x); }
    if ready != [] { assert ready[0] in ready; }
  }

  lemma SelectedIff(workers: WorkerMap, id: WorkerId)
    ensures PlanStep(workers).selected == Some(id) <==>
            var blocked := Analyze(workers).blockers.Keys;
            IsReady(workers, blocked, id) && forall x :: IsReady(workers, blocked, x) ==> id <= x
  {
    hide IsReady, Analyze;
    SelectedIsFirstReady(workers);
    AnalyzedReady(workers);
    FirstIsLeast(workers, Analyze(workers).blockers.Keys, SortedIds(workers.Keys), id);
    forall x | IsReady(workers, Analyze(workers).blockers.Keys, x) ensures x in workers {
      ReadyIsWorker(workers, Analyze(workers).blockers.Keys, x);
    }
  }

  function Blocking(blockers: BlockerMap, id: WorkerId): Transition
    requires id in blockers
  {
    Transition(id, DependencyBlocked(blockers[id]), None)
  }

  /** The least ready worker is selected, and each blocked worker is blocked once with its blockers, in id order. */
  ghost predicate PlannedFrom(workers: WorkerMap, blockers: BlockerMap, step: Step) {
    && (forall id :: step.selected == Some(id) <==>
          IsReady(workers, blockers.Keys, id) && forall x :: IsReady(workers, blockers.Keys, x) ==> id <= x)
    && BlocksEach(blockers, step.transitions)
  }

  ghost predicate BlocksEach(blockers: BlockerMap, ts: seq<Transition>) {
    && (forall i, j :: 0 <= i < j < |ts| ==> ts[i].workerId < ts[j].workerId)
    && (forall i :: 0 <= i < |ts| ==> ts[i].workerId in blockers && ts[i] == Blocking(blockers, ts[i].workerId))
    && (forall id :: id in blockers ==> Blocking(blockers, id) in ts)
  }

  lemma BlockTransitions(blockers: BlockerMap)
    ensures BlocksEach(blockers, BatchOf(BlockTransition(blockers), SortedIds(blockers.Keys)))
  {
    hide Blocking, BlocksEach, BlockTransition;
    var ids := SortedIds(blockers.Keys);
    var ts := BatchOf(BlockTransition(blockers), ids);
    forall i | 0 <= i < |ids| ensures ids[i] in blockers && ts[i] == Blocking(blockers, ids[i]) {
      assert ids[i] in ids;
      BlockTransitionIs(blockers, ids[i]);
    }
    ListedBlocksEach(blockers, ids, ts);
  }

  lemma ListedBlocksEach(blockers: BlockerMap, ids: seq<WorkerId>, ts: seq<Transition>)
    requires Ascending(ids) && |ts| == |ids| && forall id :: id in blockers ==> id in ids
    requires forall i :: 0 <= i < |ids| ==> ids[i] in blockers && ts[i] == Blocking(blockers, ids[i])
    ensures BlocksEach(blockers, ts)
  {
    hide Blocking;
    forall i | 0 <= i < |ids| ensures ts[i].workerId == ids[i] { BlockTransitionIs(blockers, ids[i]); }
    forall id | id in blockers ensures Blocking(blockers, id) in ts {
      var i :| 0 <= i < |ids| && ids[i] == id;
      assert ts[i] == Blocking(blockers, id);
    }
  }

  lemma BlockTransitionIs(blockers: BlockerMap, id: WorkerId)
    requires id in blockers
    ensures BlockTransition(blockers)(id) == Blocking(blockers, id) && Blocking(blockers, id).workerId == id
  {
  }

  lemma StepIsPlanned(workers: WorkerMap)
    ensures PlannedFrom(workers, Analyze(workers).blockers, PlanStep(workers))
  {
    hide IsReady, Analyze, BatchOf, BlocksEach;
    BlockTransitions(Analyze(workers).blockers);
    forall id
      ensures PlanStep(workers).selected == Some(id) <==>
              var blocked := Analyze(workers).blockers.Keys;
              IsReady(workers, blocked, id) && forall x :: IsReady(workers, blocked, x) ==> id <= x
    {
      SelectedIff(workers, id);
    }
  }

  /** The transition blocks its worker for all of its reasons, each once, and carries nothing else. */
  ghost predicate BlocksForReasons(workers: WorkerMap, t: Transition) {
    && t.payload.DependencyBlocked? && t.finalization.None? && NoDuplicates(t.payload.blockers)
    && forall b :: b in t.payload.blockers <==> Reason(workers, t.workerId, b)
  }

  lemma PlannedForReasons(workers: WorkerMap)
    ensures forall t :: t in PlanStep(workers).transitions ==> BlocksForReasons(workers, t)
  {
    hide Analyze, Reason;
    forall t | t in PlanStep(workers).transitions ensures BlocksForReasons(workers, t) {
      AnalyzedBlockers(workers, t.workerId);
    }
  }

  /** Selects the least ready worker, if any, and blocks each blocked worker once, for exactly its reasons. */
  method PlanDependencyOrderedSerialStep(workers: WorkerMap) returns (step: Step)
    ensures step == PlanStep(workers)
    ensures PlannedFrom(workers, Analyze(workers).blockers, step)
    ensures forall t :: t in step.transitions ==> BlocksForReasons(workers, t)
  {
    hide PlannedFrom, BlocksForReasons;
    PlannedForReasons(workers);
    var a := AnalyzeWorkerDependencies(workers);
    step := Step(FirstOf(a.ready),
                 BatchOf(BlockTransition(a.blockers), SortedIds(a.blockers.Keys)));
    StepIsPlanned(workers);
  }
}
