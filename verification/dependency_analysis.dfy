/** Blocker seeds, their propagation to a fixed point, and the ready list. */
module DependencyAnalysis {
  import opened Common
  import opened Lifecycle
  import opened Workers
  import opened DependencyWalk

  /** The workers of a run; each key is its worker's id. */
  type WorkerMap = map<WorkerId, Worker>

  type BlockerMap = map<WorkerId, seq<Blocker>>

  function GraphOf(workers: WorkerMap): Graph {
    map id | id in workers :: workers[id].dependencies
  }

  function Dependencies(workers: WorkerMap, id: WorkerId): seq<WorkerId> {
    if id in workers then workers[id].dependencies else []
  }

  predicate Blockable(workers: WorkerMap, id: WorkerId) {
    id in workers && workers[id].CanBlock()
  }

  predicate CanRun(workers: WorkerMap, id: WorkerId) {
    id in workers && workers[id].CanExecute()
  }

  predicate IsDone(workers: WorkerMap, id: WorkerId) {
    id in workers && workers[id].Status() == Done
  }

  /** A runnable worker that nobody will start, because it has no prompt. */
  predicate NonRunnable(workers: WorkerMap, id: WorkerId) {
    id in workers && RunnableStatus(workers[id].Status()) && !workers[id].HasPrompt()
  }

  predicate MissingOrFailed(workers: WorkerMap, id: WorkerId) {
    id !in workers || FailedDependencyStatus(workers[id].Status())
  }

  predicate DependenciesDone(workers: WorkerMap, id: WorkerId) {
    forall d :: d in Dependencies(workers, id) ==> IsDone(workers, d)
  }

  // ----- Specification of the seeds -----

  predicate OnCycle(cycle: seq<WorkerId>, id: WorkerId) {
    cycle != [] && id in cycle[..|cycle| - 1]
  }

  function CycleBlockers(cycles: seq<seq<WorkerId>>, id: WorkerId): seq<Blocker> {
    if cycles == [] then []
    else
      var n := |cycles| - 1;
      CycleBlockers(cycles[..n], id) + if OnCycle(cycles[n], id) then [CycleBlocker(cycles[n])] else []
  }

  function NotRunnableBlockers(workers: WorkerMap, ids: seq<WorkerId>): seq<Blocker> {
    if ids == [] then []
    else
      var n := |ids| - 1;
      NotRunnableBlockers(workers, ids[..n]) + if NonRunnable(workers, ids[n]) then [NotRunnableBlocker(ids[n])] else []
  }

  function FailedBlockers(workers: WorkerMap, ids: seq<WorkerId>): seq<Blocker> {
    if ids == [] then []
    else
      var n := |ids| - 1;
      FailedBlockers(workers, ids[..n]) + if MissingOrFailed(workers, ids[n]) then [DependencyBlocker(ids[n])] else []
  }

  /** The dependencies among ids that are blocked already, in the order listed. */
  function BlockedBlockers(blocked: set<WorkerId>, ids: seq<WorkerId>): seq<Blocker> {
    if ids == [] then []
    else
      var n := |ids| - 1;
      BlockedBlockers(blocked, ids[..n]) + if ids[n] in blocked then [DependencyBlocker(ids[n])] else []
  }

  /** The map of the listed ids to their blockers, leaving out ids without any. */
  function Collect(f: WorkerId -> seq<Blocker>, ids: seq<WorkerId>): BlockerMap {
    map id | id in ids && f(id) != [] :: f(id)
  }

  /** blockers[id] = found, when there is anything to record. */
  function Put(m: BlockerMap, id: WorkerId, found: seq<Blocker>): BlockerMap {
    if found != [] then m[id := found] else m
  }

  lemma CollectNext(base: BlockerMap, f: WorkerId -> seq<Blocker>, ids: seq<WorkerId>, i: nat)
    requires i < |ids|
    ensures base + Collect(f, ids[..i + 1]) == Put(base + Collect(f, ids[..i]), ids[i], f(ids[i]))
  {
    assert ids[..i + 1] == ids[..i] + [ids[i]];
    assert forall d :: d in ids[..i + 1] <==> d in ids[..i] || d == ids[i];
  }

  lemma CollectEnds(base: BlockerMap, f: WorkerId -> seq<Blocker>, ids: seq<WorkerId>)
    ensures base + Collect(f, ids[..0]) == base
    ensures ids[..|ids|] == ids
    ensures map[] + Collect(f, ids) == Collect(f, ids)
  {
  }

  function CycleSeed(workers: WorkerMap, cycles: seq<seq<WorkerId>>): WorkerId -> seq<Blocker> {
    (id: WorkerId) => if Blockable(workers, id) then CycleBlockers(cycles, id) else []
  }

  /** Dependencies that nobody will start count only for a worker that is on no recorded cycle. */
  function NotRunnableSeed(workers: WorkerMap, cycles: seq<seq<WorkerId>>): WorkerId -> seq<Blocker> {
    (id: WorkerId) => if Blockable(workers, id) && CycleBlockers(cycles, id) == []
          then NotRunnableBlockers(workers, Dependencies(workers, id)) else []
  }

  function FailedSeed(workers: WorkerMap): WorkerId -> seq<Blocker> {
    (id: WorkerId) => if Blockable(workers, id) then FailedBlockers(workers, Dependencies(workers, id)) else []
  }

  function InvalidSeeds(workers: WorkerMap, cycles: seq<seq<WorkerId>>): BlockerMap {
    var sorted := SortedIds(workers.Keys);
    Collect(CycleSeed(workers, cycles), sorted) + Collect(NotRunnableSeed(workers, cycles), sorted)
  }

  function DependencySeeds(workers: WorkerMap): BlockerMap {
    Collect(FailedSeed(workers), SortedIds(workers.Keys))
  }

  // ----- Specification of the propagation -----

  function RoundSeed(workers: WorkerMap, blocked: set<WorkerId>): WorkerId -> seq<Blocker> {
    (id: WorkerId) =>
      if id !in blocked && Blockable(workers, id) then BlockedBlockers(blocked, Dependencies(workers, id)) else []
  }

  /** One round: workers that depend on a worker blocked before the round. */
  function Round(workers: WorkerMap, m: BlockerMap): BlockerMap {
    Collect(RoundSeed(workers, m.Keys), SortedIds(workers.Keys))
  }

  function Propagated(workers: WorkerMap, m: BlockerMap): BlockerMap
    decreases workers.Keys - m.Keys
  {
    var next := Round(workers, m);
    if next.Keys == {} then m
    else
      assert next.Keys <= workers.Keys - m.Keys;
      Propagated(workers, m + next)
  }

  function ListOf(m: BlockerMap, id: WorkerId): seq<Blocker> {
    if id in m then m[id] else []
  }

  function MergeOf(known: BlockerMap, m: BlockerMap): BlockerMap {
    map id | id in known.Keys + m.Keys :: AppendAllUnique(ListOf(known, id), ListOf(m, id))
  }

  function MergedBlockers(a: BlockerMap, b: BlockerMap): BlockerMap {
    MergeOf(MergeOf(map[], a), b)
  }

  /** The ids among the listed ones that are unblocked, executable and have every dependency done. */
  function ReadyAmong(workers: WorkerMap, blocked: set<WorkerId>, ids: seq<WorkerId>): seq<WorkerId> {
    if ids == [] then []
    else
      var n := |ids| - 1;
      ReadyAmong(workers, blocked, ids[..n]) + if IsReady(workers, blocked, ids[n]) then [ids[n]] else []
  }

  predicate IsReady(workers: WorkerMap, blocked: set<WorkerId>, id: WorkerId) {
    id !in blocked && CanRun(workers, id) && DependenciesDone(workers, id)
  }

  datatype Analysis = Analysis(
    order: seq<WorkerId>,
    ready: seq<WorkerId>,
    blockers: BlockerMap,
    invalid: BlockerMap,
    dependency: BlockerMap)

  function Analyze(workers: WorkerMap): Analysis {
    var walk := WalkOf(GraphOf(workers));
    var invalid := Propagated(workers, InvalidSeeds(workers, walk.cycles));
    var dependency := Propagated(workers, DependencySeeds(workers));
    var blockers := MergedBlockers(invalid, dependency);
    Analysis(walk.ordered, ReadyAmong(workers, blockers.Keys, SortedIds(workers.Keys)), blockers, invalid, dependency)
  }

  // ----- The loops -----

  method InvalidGraphBlockerSeeds(workers: WorkerMap, cycles: seq<seq<WorkerId>>) returns (blockers: BlockerMap)
    ensures blockers == InvalidSeeds(workers, cycles)
  {
    hide Collect, CycleSeed, NotRunnableSeed;
    blockers := map[];
    NothingCollected(workers, SortedIds(workers.Keys), cycles[..0]);
    ghost var sorted := SortedIds(workers.Keys);
    for i := 0 to |cycles|
      invariant blockers == Collect(CycleSeed(workers, cycles[..i]), sorted)
    {
      blockers := AddCycleBlocker(workers, blockers, cycles, i);
    }
    assert cycles[..|cycles|] == cycles;
    blockers := AddNotRunnableBlockers(workers, cycles, blockers);
  }

  lemma NothingCollected(workers: WorkerMap, ids: seq<WorkerId>, cycles: seq<seq<WorkerId>>)
    requires cycles == []
    ensures Collect(CycleSeed(workers, cycles), ids) == map[]
  {
  }

  /** Adds the blocker of one recorded cycle to each of its members that may be blocked. */
  method AddCycleBlocker(workers: WorkerMap, m: BlockerMap, cycles: seq<seq<WorkerId>>, i: nat) returns (r: BlockerMap)
    requires i < |cycles| && m == Collect(CycleSeed(workers, cycles[..i]), SortedIds(workers.Keys))
    ensures r == Collect(CycleSeed(workers, cycles[..i + 1]), SortedIds(workers.Keys))
  {
    hide Collect, CycleSeed, CycleBlockers;
    var cycle := cycles[i];
    var members := SortedIds(if cycle == [] then {} else Elements(cycle[..|cycle| - 1]));
    AscendingDistinct(members);
    ghost var added := BlockableAmong(workers, members);
    r := AddToMembers(workers, m, members, CycleBlocker(cycle));
    CycleSeedNext(workers, cycles, i);
    CollectExtended(CycleSeed(workers, cycles[..i]), CycleSeed(workers, cycles[..i + 1]), SortedIds(workers.Keys),
                    added, CycleBlocker(cycle), m, r);
  }

  function AppendedTo(m: BlockerMap, id: WorkerId, b: Blocker): seq<Blocker> {
    (if id in m then m[id] else []) + [b]
  }

  function BlockableAmong(workers: WorkerMap, ids: seq<WorkerId>): (r: set<WorkerId>)
    ensures forall id :: id in r <==> id in ids && Blockable(workers, id)
  {
    set id | id in ids && Blockable(workers, id)
  }

  method AddToMembers(workers: WorkerMap, m: BlockerMap, members: seq<WorkerId>, b: Blocker) returns (r: BlockerMap)
    requires NoDuplicates(members)
    ensures forall id :: id in r <==> id in m || id in BlockableAmong(workers, members)
    ensures forall id :: id in r ==>
              r[id] == if id in BlockableAmong(workers, members) then AppendedTo(m, id, b) else m[id]
  {
    hide Blockable;
    r := m;
    for j := 0 to |members|
      invariant forall id :: id in r <==> id in m || id in BlockableAmong(workers, members[..j])
      invariant forall id :: id in r ==>
                  r[id] == if id in BlockableAmong(workers, members[..j]) then AppendedTo(m, id, b) else m[id]
    {
      var id := members[j];
      assert id !in members[..j];
      assert members[..j + 1] == members[..j] + [id];
      if Blockable(workers, id) {
        var known := if id in r then r[id] else [];
        r := r[id := known + [b]];
      }
    }
    assert members[..|members|] == members;
  }

  lemma CycleSeedNext(workers: WorkerMap, cycles: seq<seq<WorkerId>>, i: nat)
    requires i < |cycles|
    ensures forall id :: CycleSeed(workers, cycles[..i + 1])(id) == CycleSeed(workers, cycles[..i])(id) +
              if OnCycle(cycles[i], id) && Blockable(workers, id) then [CycleBlocker(cycles[i])] else []
  {
    assert cycles[..i + 1][..i] == cycles[..i];
  }

  lemma CollectExtended(f: WorkerId -> seq<Blocker>, g: WorkerId -> seq<Blocker>, ids: seq<WorkerId>,
                        added: set<WorkerId>, b: Blocker, m: BlockerMap, r: BlockerMap)
    requires m == Collect(f, ids)
    requires forall id :: g(id) == f(id) + if id in added then [b] else []
    requires forall id :: id in added ==> id in ids
    requires forall id :: id in r <==> id in m || id in added
    requires forall id :: id in r ==> r[id] == if id in added then AppendedTo(m, id, b) else m[id]
    ensures r == Collect(g, ids)
  {
    var next := Collect(g, ids);
    forall id: WorkerId
      ensures id in r <==> id in next
      ensures id in next ==> r[id] == next[id]
    {
      assert g(id) == f(id) + if id in added then [b] else [];
      if id in ids && id !in m { assert f(id) == []; }
    }
  }

  /** Adds the blockers for dependencies that nobody will start. */
  method AddNotRunnableBlockers(workers: WorkerMap, cycles: seq<seq<WorkerId>>, m: BlockerMap) returns (r: BlockerMap)
    requires m == Collect(CycleSeed(workers, cycles), SortedIds(workers.Keys))
    ensures r == m + Collect(NotRunnableSeed(workers, cycles), SortedIds(workers.Keys))
  {
    r := m;
    var sorted := SortedIds(workers.Keys);
    var f := NotRunnableSeed(workers, cycles);
    CollectEnds(m, f, sorted);
    for i := 0 to |sorted|
      invariant r == m + Collect(f, sorted[..i])
    {
      CollectNext(m, f, sorted, i);
      var id := sorted[i];
      UnseenId(m, f, sorted, i);
      if id !in r && Blockable(workers, id) {
        var found := NotRunnableDependencies(workers, workers[id].dependencies);
        r := Put(r, id, found);
      }
    }
  }

  lemma UnseenId(m: BlockerMap, f: WorkerId -> seq<Blocker>, sorted: seq<WorkerId>, i: nat)
    requires Ascending(sorted) && i < |sorted|
    ensures sorted[i] in m + Collect(f, sorted[..i]) <==> sorted[i] in m
  {
  }

  method NotRunnableDependencies(workers: WorkerMap, ids: seq<WorkerId>) returns (r: seq<Blocker>)
    ensures r == NotRunnableBlockers(workers, ids)
  {
    r := [];
    for i := 0 to |ids|
      invariant r == NotRunnableBlockers(workers, ids[..i])
    {
      assert ids[..i + 1][..i] == ids[..i];
      if NonRunnable(workers, ids[i]) { r := r + [NotRunnableBlocker(ids[i])]; }
    }
    assert ids[..|ids|] == ids;
  }

  method DependencyBlockerSeeds(workers: WorkerMap) returns (blockers: BlockerMap)
    ensures blockers == DependencySeeds(workers)
  {
    blockers := map[];
    var sorted := SortedIds(workers.Keys);
    var f := FailedSeed(workers);
    CollectEnds(map[], f, sorted);
    for i := 0 to |sorted|
      invariant blockers == map[] + Collect(f, sorted[..i])
    {
      CollectNext(map[], f, sorted, i);
      var id := sorted[i];
      if Blockable(workers, id) {
        var found := FailedDependencies(workers, workers[id].dependencies);
        blockers := Put(blockers, id, found);
      }
    }
  }

  method FailedDependencies(workers: WorkerMap, ids: seq<WorkerId>) returns (r: seq<Blocker>)
    ensures r == FailedBlockers(workers, ids)
  {
    r := [];
    for i := 0 to |ids|
      invariant r == FailedBlockers(workers, ids[..i])
    {
      assert ids[..i + 1][..i] == ids[..i];
      if MissingOrFailed(workers, ids[i]) { r := r + [DependencyBlocker(ids[i])]; }
    }
    assert ids[..|ids|] == ids;
  }

  method BlockedDependencies(blocked: set<WorkerId>, ids: seq<WorkerId>) returns (r: seq<Blocker>)
    ensures r == BlockedBlockers(blocked, ids)
  {
    r := [];
    for i := 0 to |ids|
      invariant r == BlockedBlockers(blocked, ids[..i])
    {
      assert ids[..i + 1][..i] == ids[..i];
      if ids[i] in blocked { r := r + [DependencyBlocker(ids[i])]; }
    }
    assert ids[..|ids|] == ids;
  }

  /** The inner loop over workers, for one kind of blocker; blocked is fixed during the round. */
  method PropagateOnce(workers: WorkerMap, m: BlockerMap, blocked: set<WorkerId>, sorted: seq<WorkerId>)
      returns (r: BlockerMap, newly: set<WorkerId>)
    requires blocked == m.Keys && sorted == SortedIds(workers.Keys)
    ensures r == m + Round(workers, m) && newly == Round(workers, m).Keys
  {
    r, newly := m, {};
    var f := RoundSeed(workers, blocked);
    CollectEnds(m, f, sorted);
    for i := 0 to |sorted|
      invariant r == m + Collect(f, sorted[..i])
      invariant newly == r.Keys - m.Keys
    {
      CollectNext(m, f, sorted, i);
      var id := sorted[i];
      var found := [];
      if id !in blocked && Blockable(workers, id) {
        found := BlockedDependencies(blocked, workers[id].dependencies);
      }
      assert found == f(id) && (found != [] ==> id !in m);
      PutKeys(r, m, id, found);
      r, newly := Put(r, id, found), if found != [] then newly + {id} else newly;
    }
    RoundKeys(workers, m);
  }

  lemma PutKeys(r: BlockerMap, m: BlockerMap, id: WorkerId, found: seq<Blocker>)
    requires found != [] ==> id !in m
    ensures Put(r, id, found).Keys - m.Keys == r.Keys - m.Keys + if found != [] then {id} else {}
  {
  }

  lemma RoundKeys(workers: WorkerMap, m: BlockerMap)
    ensures (m + Round(workers, m)).Keys - m.Keys == Round(workers, m).Keys
  {
  }

  /** Runs the rounds of both kinds side by side until neither blocks a new worker. */
  method PropagateBlockerMaps(workers: WorkerMap, invalidSeeds: BlockerMap, dependencySeeds: BlockerMap)
      returns (invalid: BlockerMap, dependency: BlockerMap, ghost rounds: nat)
    requires invalidSeeds.Keys <= workers.Keys && dependencySeeds.Keys <= workers.Keys
    ensures invalid == Propagated(workers, invalidSeeds) && dependency == Propagated(workers, dependencySeeds)
    ensures rounds <= |workers| + 1
  {
    invalid, dependency, rounds := invalidSeeds, dependencySeeds, 0;
    var invalidIds, dependencyIds := invalid.Keys, dependency.Keys;
    var sorted := SortedIds(workers.Keys);
    while true
      invariant invalidIds == invalid.Keys <= workers.Keys && dependencyIds == dependency.Keys <= workers.Keys
      invariant Propagated(workers, invalid) == Propagated(workers, invalidSeeds)
      invariant Propagated(workers, dependency) == Propagated(workers, dependencySeeds)
      invariant Round(workers, invalid) == map[] || rounds <= |invalid|
      invariant Round(workers, dependency) == map[] || rounds <= |dependency|
      invariant rounds <= |workers|
      decreases workers.Keys - invalidIds, workers.Keys - dependencyIds
    {
      ghost var i0, d0 := invalid, dependency;
      var newInvalid, newDependency;
      invalid, newInvalid := PropagateOnce(workers, invalid, invalidIds, sorted);
      dependency, newDependency := PropagateOnce(workers, dependency, dependencyIds, sorted);
      if newInvalid == {} && newDependency == {} {
        RoundIsEmpty(workers, i0);
        RoundIsEmpty(workers, d0);
        rounds := rounds + 1;
        break;
      }
      RoundStep(workers, i0, invalid);
      RoundStep(workers, d0, dependency);
      rounds := rounds + 1;
      invalidIds, dependencyIds := invalidIds + newInvalid, dependencyIds + newDependency;
    }
  }

  lemma RoundIsEmpty(workers: WorkerMap, m: BlockerMap)
    ensures Round(workers, m).Keys == {} <==> Round(workers, m) == map[]
    ensures Round(workers, m) == map[] ==> m + Round(workers, m) == m
  {
  }

  lemma RoundStep(workers: WorkerMap, m: BlockerMap, next: BlockerMap)
    requires next == m + Round(workers, m) && m.Keys <= workers.Keys
    ensures Propagated(workers, next) == Propagated(workers, m)
    ensures next.Keys <= workers.Keys
    ensures Round(workers, m) == map[] ==> next == m
    ensures Round(workers, m) != map[] ==> |m| < |next| <= |workers|
    ensures Round(workers, m) != map[] ==> workers.Keys - next.Keys < workers.Keys - m.Keys
  {
    var round := Round(workers, m);
    RoundIsEmpty(workers, m);
    if round != map[] {
      var id :| id in round;
      assert id in next && id !in m;
      SubsetSize(m.Keys, next.Keys);
      SubsetSize(next.Keys, workers.Keys);
    }
  }

  lemma MergedLists(a: BlockerMap, b: BlockerMap, id: WorkerId)
    ensures id in MergedBlockers(a, b) <==> id in a || id in b
    ensures MergedOf(ListOf(MergedBlockers(a, b), id), ListOf(a, id), ListOf(b, id))
  {
    AppendedMerge(ListOf(a, id), ListOf(b, id));
    var first := MergeOf(map[], a);
    assert ListOf(first, id) == AppendAllUnique([], ListOf(a, id));
  }

  /** Each worker of either map shows the first map's blockers and then the second one's, each once and in order. */
  method MergeBlockerMaps(a: BlockerMap, b: BlockerMap) returns (merged: BlockerMap)
    ensures merged == MergedBlockers(a, b)
    ensures forall id :: id in merged <==> id in a || id in b
    ensures forall id :: id in merged ==> MergedOf(merged[id], ListOf(a, id), ListOf(b, id))
  {
    hide MergedBlockers, MergedOf;
    forall id { MergedLists(a, b, id); }
    merged := MergeInto(map[], a, SortedIds(a.Keys));
    merged := MergeInto(merged, b, SortedIds(b.Keys));
    assert merged == MergedBlockers(a, b) by { MergedTwice(a, b); }
  }

  lemma MergedTwice(a: BlockerMap, b: BlockerMap)
    ensures MergedBlockers(a, b) == MergeOf(MergeOf(map[], a), b)
  {
  }

  method MergeInto(known: BlockerMap, m: BlockerMap, ids: seq<WorkerId>) returns (merged: BlockerMap)
    requires NoDuplicates(ids) && forall id :: id in ids <==> id in m
    ensures merged == MergeOf(known, m)
  {
    hide AppendAllUnique;
    merged := known;
    for j := 0 to |ids|
      invariant forall id :: id in merged <==> id in known || id in ids[..j]
      invariant forall id :: id in ids[..j] ==> merged[id] == AppendAllUnique(ListOf(known, id), ListOf(m, id))
      invariant forall id :: id in merged && id !in ids[..j] ==> merged[id] == known[id]
    {
      var id := ids[j];
      assert id !in ids[..j] && id in m;
      var found := MergeLists(ListOf(merged, id), m[id]);
      merged := merged[id := found];
    }
    assert ids[..|ids|] == ids;
    forall id | id in merged ensures merged[id] == AppendAllUnique(ListOf(known, id), ListOf(m, id)) {
      if id !in ids { NothingAppended(ListOf(known, id)); }
    }
    MergedIs(known, m, merged);
  }

  lemma NothingAppended(known: seq<Blocker>)
    ensures AppendAllUnique(known, []) == known
  {
  }

  lemma MergedIs(known: BlockerMap, m: BlockerMap, merged: BlockerMap)
    requires forall id :: id in merged <==> id in known || id in m
    requires forall id :: id in merged ==> merged[id] == AppendAllUnique(ListOf(known, id), ListOf(m, id))
    ensures merged == MergeOf(known, m)
  {
    hide AppendAllUnique;
  }

  method MergeLists(known: seq<Blocker>, more: seq<Blocker>) returns (own: seq<Blocker>)
    ensures own == AppendAllUnique(known, more)
  {
    own := known;
    for i := 0 to |more|
      invariant AppendAllUnique(own, more[i..]) == AppendAllUnique(known, more)
    {
      assert more[i..][1..] == more[i + 1..];
      own := AppendUnique(own, more[i]);
    }
  }

  /** Keeps the order of the ids and drops exactly those that are blocked, cannot be executed, or wait. */
  method ReadyWorkerIds(workers: WorkerMap, blocked: set<WorkerId>, sorted: seq<WorkerId>)
      returns (ready: seq<WorkerId>)
    requires Ascending(sorted)
    ensures ready == ReadyAmong(workers, blocked, sorted)
    ensures Ascending(ready)
    ensures forall id :: id in ready <==> id in sorted && IsReady(workers, blocked, id)
  {
    ready := [];
    for i := 0 to |sorted|
      invariant ready == ReadyAmong(workers, blocked, sorted[..i])
      invariant Ascending(ready)
      invariant forall id :: id in ready <==> id in sorted[..i] && IsReady(workers, blocked, id)
    {
      assert sorted[..i + 1][..i] == sorted[..i];
      var id := sorted[i];
      forall x | x in ready ensures x < id { var k :| 0 <= k < i && sorted[..i][k] == x; }
      assert forall k :: 0 <= k < |ready| ==> ready[k] in ready;
      if id !in blocked && CanRun(workers, id) {
        var done := AllDependenciesDone(workers, id);
        if done { ready := ready + [id]; }
      }
    }
    assert sorted[..|sorted|] == sorted;
  }

  lemma ReadyAreWorkers(workers: WorkerMap, blocked: set<WorkerId>)
    ensures forall id :: IsReady(workers, blocked, id) ==> id in SortedIds(workers.Keys)
  {
  }

  lemma SeedsAreWorkers(workers: WorkerMap, cycles: seq<seq<WorkerId>>)
    ensures InvalidSeeds(workers, cycles).Keys <= workers.Keys && DependencySeeds(workers).Keys <= workers.Keys
  {
  }

  lemma ReadyIsWorker(workers: WorkerMap, blocked: set<WorkerId>, id: WorkerId)
    requires IsReady(workers, blocked, id)
    ensures id in workers
  {
  }

  method AllDependenciesDone(workers: WorkerMap, id: WorkerId) returns (done: bool)
    ensures done == DependenciesDone(workers, id)
  {
    var ids := Dependencies(workers, id);
    for i := 0 to |ids|
      invariant forall j :: 0 <= j < i ==> IsDone(workers, ids[j])
    {
      if !IsDone(workers, ids[i]) { return false; }
    }
    return true;
  }

  /** In the order the dependency stands before the worker, unless the edge closes a recorded cycle through both. */
  ghost predicate Ordered(workers: WorkerMap, order: seq<WorkerId>, id: WorkerId, d: WorkerId) {
    || Before(order, d, id)
    || exists c :: c in WalkOf(GraphOf(workers)).cycles && EndsWith(c, id, d) && id in c[..|c| - 1] && d in c[..|c| - 1]
  }

  ghost predicate OrderOk(workers: WorkerMap, order: seq<WorkerId>) {
    && NoDuplicates(order) && (forall id :: id in order <==> id in workers)
    && forall id, d :: id in workers && d in workers[id].dependencies && d in workers ==> Ordered(workers, order, id, d)
  }

  lemma AnalyzedOrder(workers: WorkerMap)
    ensures OrderOk(workers, WalkOf(GraphOf(workers)).ordered)
  {
    hide WalkOf, Ordered;
    var g := GraphOf(workers);
    OrderListsEveryWorkerOnce(g);
    forall id, d | id in workers && d in workers[id].dependencies && d in workers
      ensures Ordered(workers, WalkOf(g).ordered, id, d)
    {
      EdgeOrdered(workers, id, d);
    }
  }

  lemma EdgeOrdered(workers: WorkerMap, id: WorkerId, d: WorkerId)
    requires id in workers && d in workers[id].dependencies && d in workers
    ensures Ordered(workers, WalkOf(GraphOf(workers)).ordered, id, d)
  {
    hide WalkOf, Before, EndsWith;
    var g := GraphOf(workers);
    assert Edge(g, id, d);
    DependenciesComeFirst(g, id, d);
  }

  /** Orders the workers by their dependencies, lists the ready ones in id order, and merges the blockers of both
      kinds. */
  method AnalyzeWorkerDependencies(workers: WorkerMap) returns (a: Analysis)
    ensures a == Analyze(workers)
    ensures OrderOk(workers, a.order)
    ensures Ascending(a.ready) && forall id :: id in a.ready <==> IsReady(workers, a.blockers.Keys, id)
    ensures forall id :: id in a.blockers <==> id in a.invalid || id in a.dependency
    ensures forall id :: id in a.blockers ==>
              MergedOf(a.blockers[id], ListOf(a.invalid, id), ListOf(a.dependency, id))
  {
    hide MergedOf, OrderOk, IsReady, WalkOf, InvalidSeeds, DependencySeeds, Propagated, MergedBlockers, ReadyAmong;
    AnalyzedOrder(workers);
    SeedsAreWorkers(workers, WalkOf(GraphOf(workers)).cycles);
    var order, cycles := DependencyOrderAndCycles(GraphOf(workers));
    var invalidSeeds := InvalidGraphBlockerSeeds(workers, cycles);
    var dependencySeeds := DependencyBlockerSeeds(workers);
    var invalid, dependency, _ := PropagateBlockerMaps(workers, invalidSeeds, dependencySeeds);
    var blockers := MergeBlockerMaps(invalid, dependency);
    var ready := ReadyWorkerIds(workers, blockers.Keys, SortedIds(workers.Keys));
    a := Analysis(order, ready, blockers, invalid, dependency);
    ReadyAreWorkers(workers, blockers.Keys);
  }
}
