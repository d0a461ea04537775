/** Planning again after a plan was persisted: nothing new is blocked and the same worker is selected. */
module Replanning {
  import opened Common
  import opened Lifecycle
  import opened Workers
  import opened DependencyWalk
  import opened DependencyAnalysis
  import opened BlockerLaws
  import opened Planner

  predicate SettlesAt(workers: WorkerMap, blocked: set<WorkerId>, after: WorkerMap, id: WorkerId)
    requires id in workers && id in after
  {
    if id in blocked then
      && Blockable(workers, id)
      && after[id] == workers[id].(id := after[id].id, lifecycle := BlockedDependency, blockers := after[id].blockers)
    else after[id] == workers[id]
  }

  /** The run differs from the planned one only in the workers the plan blocked. */
  ghost predicate Settles(workers: WorkerMap, blocked: set<WorkerId>, after: WorkerMap) {
    after.Keys == workers.Keys && forall id :: id in workers ==> SettlesAt(workers, blocked, after, id)
  }

  lemma OfferedSettles(workers: WorkerMap, blockers: BlockerMap)
    requires forall id :: id in blockers ==> Blockable(workers, id)
    ensures Settles(workers, blockers.Keys, AfterBlocking(workers, blockers))
  {
    var after := AfterBlocking(workers, blockers);
    assert after.Keys == workers.Keys;
    forall id | id in workers ensures SettlesAt(workers, blockers.Keys, after, id) {
      OfferedBlocks(workers, blockers, id);
    }
  }

  lemma BlockersAreBlockable(workers: WorkerMap)
    ensures forall id :: id in Analyze(workers).blockers ==> Blockable(workers, id)
  {
    forall id | id in Analyze(workers).blockers ensures Blockable(workers, id) {
      BlockedWorkersHaveBlockers(workers, id);
    }
  }

  lemma AfterPlanSettles(workers: WorkerMap)
    ensures Settles(workers, Analyze(workers).blockers.Keys, AfterPlan(workers))
  {
    BlockersAreBlockable(workers);
    OfferedSettles(workers, Analyze(workers).blockers);
  }

  lemma SettledViews(workers: WorkerMap, blocked: set<WorkerId>, after: WorkerMap, id: WorkerId)
    requires Settles(workers, blocked, after)
    ensures Blockable(after, id) <==> Unblocked(workers, blocked, id)
    ensures CanRun(after, id) <==> CanRun(workers, id) && id !in blocked
    ensures IsDone(after, id) <==> IsDone(workers, id)
    ensures NonRunnable(after, id) ==> NonRunnable(workers, id)
    ensures id !in blocked ==> (MissingOrFailed(after, id) <==> MissingOrFailed(workers, id))
    ensures Dependencies(after, id) == Dependencies(workers, id)
  {
    if id in workers { assert SettlesAt(workers, blocked, after, id); }
  }

  /** What the analysis establishes about unblocked workers. */
  ghost predicate Seedless(workers: WorkerMap, cycles: seq<seq<WorkerId>>, blocked: set<WorkerId>) {
    forall id :: Unblocked(workers, blocked, id) ==>
      && !OnRecordedCycle(cycles, id) && !WaitsForNonRunnable(workers, id)
      && forall d :: DependsOn(workers, id, d) ==> IsDone(workers, d) || Unblocked(workers, blocked, d)
  }

  lemma AnalysisSeedless(workers: WorkerMap)
    ensures Seedless(workers, WalkOf(GraphOf(workers)).cycles, Analyze(workers).blockers.Keys)
  {
    AnalysisAdmits(workers);
    forall id | Unblocked(workers, Analyze(workers).blockers.Keys, id)
      ensures !OnRecordedCycle(WalkOf(GraphOf(workers)).cycles, id) && !WaitsForNonRunnable(workers, id)
    {
      BlockedIff(workers, id);
    }
  }

  lemma NothingToWaitFor(workers: WorkerMap, cycles: seq<seq<WorkerId>>, blocked: set<WorkerId>, after: WorkerMap,
                         id: WorkerId)
    requires Settles(workers, blocked, after) && Seedless(workers, cycles, blocked) && Blockable(after, id)
    ensures !OnRecordedCycle(cycles, id) && !WaitsForNonRunnable(after, id) && !WaitsForFailed(after, id)
  {
    SettledViews(workers, blocked, after, id);
    forall d | DependsOn(after, id, d) ensures !NonRunnable(after, d) && !MissingOrFailed(after, d) {
      assert DependsOn(workers, id, d);
      SettledViews(workers, blocked, after, d);
    }
  }

  lemma NoSeedAt(workers: WorkerMap, cycles: seq<seq<WorkerId>>, blocked: set<WorkerId>, after: WorkerMap, id: WorkerId)
    requires Settles(workers, blocked, after) && Seedless(workers, cycles, blocked)
    ensures id !in InvalidSeeds(after, cycles) && id !in DependencySeeds(after)
  {
    InvalidSeedIff(after, cycles, id);
    DependencySeedIff(after, id);
    if Blockable(after, id) { NothingToWaitFor(workers, cycles, blocked, after, id); }
  }

  lemma NoSeedsLeft(workers: WorkerMap, cycles: seq<seq<WorkerId>>, blocked: set<WorkerId>, after: WorkerMap)
    requires Settles(workers, blocked, after) && Seedless(workers, cycles, blocked)
    ensures InvalidSeeds(after, cycles) == map[] && DependencySeeds(after) == map[]
  {
    forall id ensures id !in InvalidSeeds(after, cycles) && id !in DependencySeeds(after) {
      NoSeedAt(workers, cycles, blocked, after, id);
    }
  }

  lemma SameWalk(workers: WorkerMap, blocked: set<WorkerId>, after: WorkerMap)
    requires Settles(workers, blocked, after)
    ensures GraphOf(after) == GraphOf(workers)
  {
    forall id | id in workers ensures after[id].dependencies == workers[id].dependencies {
      assert SettlesAt(workers, blocked, after, id);
    }
  }

  lemma NoSeedsNoBlockers(workers: WorkerMap)
    requires InvalidSeeds(workers, WalkOf(GraphOf(workers)).cycles) == map[] && DependencySeeds(workers) == map[]
    ensures Analyze(workers).blockers == map[]
  {
    NothingPropagates(workers);
  }

  lemma RoundFromNothing(workers: WorkerMap)
    ensures Round(workers, map[]).Keys == {}
  {
    hide Round, Blockable;
    forall id ensures id !in Round(workers, map[]) { RoundIff(workers, map[], id); }
  }

  lemma MergedNothing()
    ensures MergedBlockers(map[], map[]) == map[]
  {
  }

  lemma NothingPropagates(workers: WorkerMap)
    ensures Propagated(workers, map[]) == map[] && MergedBlockers(map[], map[]) == map[]
  {
    hide Round, MergedBlockers;
    RoundFromNothing(workers);
    MergedNothing();
  }

  lemma IndependentWorkersUnblocked(workers: WorkerMap)
    requires forall id :: id in workers ==> workers[id].dependencies == []
    ensures Analyze(workers).blockers == map[]
  {
    hide WalkOf, Analyze, InvalidSeeds, DependencySeeds;
    var g := GraphOf(workers);
    forall c ensures !ClosedWalk(g, c) { assert |c| >= 2 ==> !Edge(g, c[0], c[1]); }
    CyclesEmptyIffAcyclic(g);
    forall id ensures id !in InvalidSeeds(workers, WalkOf(g).cycles) && id !in DependencySeeds(workers) {
      InvalidSeedIff(workers, WalkOf(g).cycles, id);
      DependencySeedIff(workers, id);
    }
    assert InvalidSeeds(workers, WalkOf(g).cycles) == map[] && DependencySeeds(workers) == map[];
    NoSeedsNoBlockers(workers);
  }

  lemma {:induction false} SameReady(a: WorkerMap, blockedA: set<WorkerId>, b: WorkerMap, blockedB: set<WorkerId>,
                                     ids: seq<WorkerId>)
    requires forall id :: id in ids ==> (IsReady(a, blockedA, id) <==> IsReady(b, blockedB, id))
    ensures ReadyAmong(a, blockedA, ids) == ReadyAmong(b, blockedB, ids)
  {
    if ids != [] { SameReady(a, blockedA, b, blockedB, ids[..|ids| - 1]); }
  }

  lemma SettledReady(workers: WorkerMap, blocked: set<WorkerId>, after: WorkerMap, none: set<WorkerId>)
    requires Settles(workers, blocked, after) && none == {}
    ensures ReadyAmong(after, none, SortedIds(after.Keys)) == ReadyAmong(workers, blocked, SortedIds(workers.Keys))
  {
    forall id ensures IsReady(after, {}, id) <==> IsReady(workers, blocked, id) {
      SettledViews(workers, blocked, after, id);
      forall d ensures IsDone(after, d) <==> IsDone(workers, d) { SettledViews(workers, blocked, after, d); }
    }
    SameReady(after, {}, workers, blocked, SortedIds(workers.Keys));
  }

  lemma SettledBlocksNobody(workers: WorkerMap, after: WorkerMap)
    requires Settles(workers, Analyze(workers).blockers.Keys, after)
    ensures Analyze(after).blockers == map[]
  {
    AnalysisSeedless(workers);
    SameWalk(workers, Analyze(workers).blockers.Keys, after);
    NoSeedsLeft(workers, WalkOf(GraphOf(workers)).cycles, Analyze(workers).blockers.Keys, after);
    NoSeedsNoBlockers(after);
  }

  lemma SettledReplan(workers: WorkerMap, after: WorkerMap)
    requires Settles(workers, Analyze(workers).blockers.Keys, after)
    ensures Analyze(after).blockers == map[] && Analyze(after).ready == Analyze(workers).ready
  {
    SettledBlocksNobody(workers, after);
    AnalyzedReady(workers);
    AnalyzedReady(after);
    SettledReady(workers, Analyze(workers).blockers.Keys, after, Analyze(after).blockers.Keys);
  }

  lemma OfferedToNobody(workers: WorkerMap, f: WorkerId -> Transition)
    ensures Offered(workers, f, SortedIds({})) == workers && BatchOf(f, SortedIds({})) == []
  {
    assert SortedIds({}) == [];
  }

  lemma EmptyPlan(workers: WorkerMap)
    requires Analyze(workers).blockers == map[]
    ensures PlanStep(workers).transitions == [] && AfterPlan(workers) == workers
  {
    OfferedToNobody(workers, BlockTransition(map[]));
  }

  /** A plan settles the run: planning what it persisted blocks nobody and selects the same worker. */
  lemma PlanningIsIdempotent(workers: WorkerMap)
    ensures PlanStep(AfterPlan(workers)) == Step(PlanStep(workers).selected, [])
    ensures AfterPlan(AfterPlan(workers)) == AfterPlan(workers)
  {
    AfterPlanSettles(workers);
    SettledPlan(workers, AfterPlan(workers));
  }

  lemma SettledPlan(workers: WorkerMap, after: WorkerMap)
    requires Settles(workers, Analyze(workers).blockers.Keys, after)
    ensures PlanStep(after) == Step(PlanStep(workers).selected, []) && AfterPlan(after) == after
  {
    SettledReplan(workers, after);
    SelectedIsFirstReady(workers);
    SelectedIsFirstReady(after);
    EmptyPlan(after);
  }

  // ----- When a plan blocks nobody -----

  /** A prompted worker that is queued, waits for an answer, or waits to retry. */
  predicate InPlay(w: Worker) {
    w.HasPrompt() && w.lifecycle in {Queued, ActiveWait, ActiveRetry}
  }

  /** No recorded cycle holds the worker, and each of its dependencies is there and done, or in play. */
  ghost predicate HasWay(workers: WorkerMap, id: WorkerId) {
    && !OnRecordedCycle(WalkOf(GraphOf(workers)).cycles, id)
    && forall d :: DependsOn(workers, id, d) ==>
         d in workers && (workers[d].lifecycle == DoneCollect || InPlay(workers[d]))
  }

  lemma InPlayIsBlockable(workers: WorkerMap, id: WorkerId)
    ensures Blockable(workers, id) <==> id in workers && InPlay(workers[id])
    ensures !NonRunnable(workers, id) && !MissingOrFailed(workers, id) <==>
            id in workers && (workers[id].lifecycle == DoneCollect || InPlay(workers[id]))
  {
  }

  lemma SeedlessIff(workers: WorkerMap, id: WorkerId)
    requires Blockable(workers, id)
    ensures HasWay(workers, id) <==>
            && !OnRecordedCycle(WalkOf(GraphOf(workers)).cycles, id)
            && !WaitsForNonRunnable(workers, id) && !WaitsForFailed(workers, id)
  {
    hide Blockable, NonRunnable, MissingOrFailed, WalkOf, OnRecordedCycle, InPlay;
    forall d { InPlayIsBlockable(workers, d); }
  }

  /** A plan blocks nobody exactly if every prompted worker in play has a way: the states of its dependencies and the
      recorded cycles decide. */
  lemma BlocksNobodyIff(workers: WorkerMap)
    ensures Analyze(workers).blockers == map[] <==>
            forall id :: id in workers && InPlay(workers[id]) ==> HasWay(workers, id)
  {
    hide Blockable, Analyze, WalkOf, OnRecordedCycle, WaitsForNonRunnable, WaitsForFailed, InPlay, HasWay,
         InvalidSeeds, DependencySeeds;
    var cycles := WalkOf(GraphOf(workers)).cycles;
    forall id { InPlayIsBlockable(workers, id); }
    forall id | Blockable(workers, id)
      ensures if HasWay(workers, id) then id !in InvalidSeeds(workers, cycles) && id !in DependencySeeds(workers)
              else id in Analyze(workers).blockers
    {
      SeedlessIff(workers, id);
      BlockedIff(workers, id);
      InvalidSeedIff(workers, cycles, id);
      DependencySeedIff(workers, id);
    }
    if forall id :: Blockable(workers, id) ==> HasWay(workers, id) {
      forall id ensures id !in InvalidSeeds(workers, cycles) && id !in DependencySeeds(workers) {
        InvalidSeedIff(workers, cycles, id);
        DependencySeedIff(workers, id);
      }
      assert InvalidSeeds(workers, cycles) == map[] && DependencySeeds(workers) == map[];
      NoSeedsNoBlockers(workers);
    }
  }
}
