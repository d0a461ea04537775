/** What the blocker maps mean: seeds, the least closed set around them, and explanations that end at a seed. */
module BlockerLaws {
  import opened Common
  import opened Workers
  import opened DependencyWalk
  import opened DependencyAnalysis

  // ----- When a list of seed blockers is empty -----

  lemma {:induction false} CycleBlockersFound(cycles: seq<seq<WorkerId>>, id: WorkerId)
    ensures forall b :: b in CycleBlockers(cycles, id) <==>
              exists i :: 0 <= i < |cycles| && OnCycle(cycles[i], id) && b == CycleBlocker(cycles[i])
  {
    hide OnCycle;
    if cycles != [] {
      var n := |cycles| - 1;
      CycleBlockersFound(cycles[..n], id);
      forall b
        ensures b in CycleBlockers(cycles, id) <==>
                exists i :: 0 <= i < |cycles| && OnCycle(cycles[i], id) && b == CycleBlocker(cycles[i])
      {
        if b in CycleBlockers(cycles[..n], id) {
          var i :| 0 <= i < n && OnCycle(cycles[..n][i], id) && b == CycleBlocker(cycles[..n][i]);
          assert OnCycle(cycles[i], id) && b == CycleBlocker(cycles[i]);
        }
        if i :| 0 <= i < |cycles| && OnCycle(cycles[i], id) && b == CycleBlocker(cycles[i]) && i < n {
          assert OnCycle(cycles[..n][i], id);
        }
      }
    }
  }

  lemma {:induction false} NotRunnableBlockersFound(workers: WorkerMap, ids: seq<WorkerId>)
    ensures forall b :: b in NotRunnableBlockers(workers, ids) <==>
              exists i :: 0 <= i < |ids| && NonRunnable(workers, ids[i]) && b == NotRunnableBlocker(ids[i])
  {
    hide NonRunnable;
    if ids != [] {
      var n := |ids| - 1;
      NotRunnableBlockersFound(workers, ids[..n]);
      forall b
        ensures b in NotRunnableBlockers(workers, ids) <==>
                exists i :: 0 <= i < |ids| && NonRunnable(workers, ids[i]) && b == NotRunnableBlocker(ids[i])
      {
        if b in NotRunnableBlockers(workers, ids[..n]) {
          var i :| 0 <= i < n && NonRunnable(workers, ids[..n][i]) && b == NotRunnableBlocker(ids[..n][i]);
          assert NonRunnable(workers, ids[i]) && b == NotRunnableBlocker(ids[i]);
        }
        if i :| 0 <= i < |ids| && NonRunnable(workers, ids[i]) && b == NotRunnableBlocker(ids[i]) && i < n {
          assert NonRunnable(workers, ids[..n][i]);
        }
      }
    }
  }

  lemma {:induction false} FailedBlockersFound(workers: WorkerMap, ids: seq<WorkerId>)
    ensures forall b :: b in FailedBlockers(workers, ids) <==>
              exists i :: 0 <= i < |ids| && MissingOrFailed(workers, ids[i]) && b == DependencyBlocker(ids[i])
  {
    hide MissingOrFailed;
    if ids != [] {
      var n := |ids| - 1;
      FailedBlockersFound(workers, ids[..n]);
      forall b
        ensures b in FailedBlockers(workers, ids) <==>
                exists i :: 0 <= i < |ids| && MissingOrFailed(workers, ids[i]) && b == DependencyBlocker(ids[i])
      {
        if b in FailedBlockers(workers, ids[..n]) {
          var i :| 0 <= i < n && MissingOrFailed(workers, ids[..n][i]) && b == DependencyBlocker(ids[..n][i]);
          assert MissingOrFailed(workers, ids[i]) && b == DependencyBlocker(ids[i]);
        }
        if i :| 0 <= i < |ids| && MissingOrFailed(workers, ids[i]) && b == DependencyBlocker(ids[i]) && i < n {
          assert MissingOrFailed(workers, ids[..n][i]);
        }
      }
    }
  }

  lemma {:induction false} BlockedBlockersFound(blocked: set<WorkerId>, ids: seq<WorkerId>)
    ensures forall b :: b in BlockedBlockers(blocked, ids) <==>
              exists i :: 0 <= i < |ids| && ids[i] in blocked && b == DependencyBlocker(ids[i])
  {
    if ids != [] {
      var n := |ids| - 1;
      BlockedBlockersFound(blocked, ids[..n]);
      forall b
        ensures b in BlockedBlockers(blocked, ids) <==>
                exists i :: 0 <= i < |ids| && ids[i] in blocked && b == DependencyBlocker(ids[i])
      {
        if b in BlockedBlockers(blocked, ids[..n]) {
          var i :| 0 <= i < n && ids[..n][i] in blocked && b == DependencyBlocker(ids[..n][i]);
          assert ids[i] in blocked && b == DependencyBlocker(ids[i]);
        }
        if i :| 0 <= i < |ids| && ids[i] in blocked && b == DependencyBlocker(ids[i]) && i < n {
          assert ids[..n][i] in blocked;
        }
      }
    }
  }

  ghost predicate DependsOn(workers: WorkerMap, id: WorkerId, d: WorkerId) {
    id in workers && d in workers[id].dependencies
  }

  ghost predicate OnRecordedCycle(cycles: seq<seq<WorkerId>>, id: WorkerId) {
    exists i :: 0 <= i < |cycles| && OnCycle(cycles[i], id)
  }

  ghost predicate WaitsForNonRunnable(workers: WorkerMap, id: WorkerId) {
    exists d :: DependsOn(workers, id, d) && NonRunnable(workers, d)
  }

  ghost predicate WaitsForFailed(workers: WorkerMap, id: WorkerId) {
    exists d :: DependsOn(workers, id, d) && MissingOrFailed(workers, d)
  }

  ghost predicate NamesCycle(cycles: seq<seq<WorkerId>>, id: WorkerId, b: Blocker) {
    exists i :: 0 <= i < |cycles| && OnCycle(cycles[i], id) && b == CycleBlocker(cycles[i])
  }

  ghost predicate NamesNonRunnable(workers: WorkerMap, id: WorkerId, b: Blocker) {
    exists d :: DependsOn(workers, id, d) && NonRunnable(workers, d) && b == NotRunnableBlocker(d)
  }

  lemma NotRunnableSeedIff(workers: WorkerMap, id: WorkerId)
    ensures var found := NotRunnableBlockers(workers, Dependencies(workers, id));
            && (found != [] <==> WaitsForNonRunnable(workers, id))
            && forall b :: b in found <==> NamesNonRunnable(workers, id, b)
  {
    hide NotRunnableBlockers, NonRunnable;
    var ids := Dependencies(workers, id);
    var found := NotRunnableBlockers(workers, ids);
    NotRunnableBlockersFound(workers, ids);
    forall b ensures b in found <==> NamesNonRunnable(workers, id, b) {
      if b in found {
        var i :| 0 <= i < |ids| && NonRunnable(workers, ids[i]) && b == NotRunnableBlocker(ids[i]);
        assert DependsOn(workers, id, ids[i]);
      }
      if d :| DependsOn(workers, id, d) && NonRunnable(workers, d) && b == NotRunnableBlocker(d) {
        var i :| 0 <= i < |ids| && ids[i] == d;
        assert NonRunnable(workers, ids[i]);
      }
    }
    if d :| DependsOn(workers, id, d) && NonRunnable(workers, d) {
      assert NamesNonRunnable(workers, id, NotRunnableBlocker(d));
    }
    NonEmptyHasFirst(found);
    if found != [] {
      var d :| DependsOn(workers, id, d) && NonRunnable(workers, d) && found[0] == NotRunnableBlocker(d);
    }
  }

  /** A prompted runnable worker is invalid from the start iff it is on a recorded cycle or waits for a worker that
      nobody will start; it then lists exactly its recorded cycles, or, without any, exactly those workers. */
  lemma InvalidSeedIff(workers: WorkerMap, cycles: seq<seq<WorkerId>>, id: WorkerId)
    ensures id in InvalidSeeds(workers, cycles) <==>
            Blockable(workers, id) && (OnRecordedCycle(cycles, id) || WaitsForNonRunnable(workers, id))
    ensures id in InvalidSeeds(workers, cycles) ==>
              && InvalidSeeds(workers, cycles)[id] != []
              && forall b :: b in InvalidSeeds(workers, cycles)[id] <==>
                   if OnRecordedCycle(cycles, id) then NamesCycle(cycles, id, b) else NamesNonRunnable(workers, id, b)
  {
    hide CycleSeed, NotRunnableSeed, Collect, Blockable, NamesCycle, NamesNonRunnable, OnRecordedCycle,
         WaitsForNonRunnable, CycleBlockers;
    CycleSeedAt(workers, cycles, id);
    NotRunnableSeedAt(workers, cycles, id);
    CycleBlockersName(cycles, id);
    CollectAt(CycleSeed(workers, cycles), SortedIds(workers.Keys), id);
    CollectAt(NotRunnableSeed(workers, cycles), SortedIds(workers.Keys), id);
    BlockableIsListed(workers, id);
  }

  lemma CollectAt(f: WorkerId -> seq<Blocker>, ids: seq<WorkerId>, id: WorkerId)
    ensures id in Collect(f, ids) <==> id in ids && f(id) != []
    ensures id in Collect(f, ids) ==> Collect(f, ids)[id] == f(id)
  {
  }

  lemma BlockableIsListed(workers: WorkerMap, id: WorkerId)
    ensures Blockable(workers, id) ==> id in SortedIds(workers.Keys)
  {
  }

  lemma CycleBlockersName(cycles: seq<seq<WorkerId>>, id: WorkerId)
    ensures CycleBlockers(cycles, id) != [] <==> OnRecordedCycle(cycles, id)
    ensures forall b :: b in CycleBlockers(cycles, id) <==> NamesCycle(cycles, id, b)
  {
    hide CycleBlockers, OnCycle;
    var found := CycleBlockers(cycles, id);
    CycleBlockersFound(cycles, id);
    NonEmptyHasFirst(found);
    if i :| 0 <= i < |cycles| && OnCycle(cycles[i], id) { assert CycleBlocker(cycles[i]) in found; }
    if found != [] { assert NamesCycle(cycles, id, found[0]); }
  }

  lemma CycleSeedAt(workers: WorkerMap, cycles: seq<seq<WorkerId>>, id: WorkerId)
    ensures CycleSeed(workers, cycles)(id) == if Blockable(workers, id) then CycleBlockers(cycles, id) else []
  {
  }

  lemma NotRunnableSeedAt(workers: WorkerMap, cycles: seq<seq<WorkerId>>, id: WorkerId)
    ensures var f := NotRunnableSeed(workers, cycles);
            && (f(id) != [] <==> Blockable(workers, id) && !OnRecordedCycle(cycles, id)
                                 && WaitsForNonRunnable(workers, id))
            && (f(id) != [] ==> forall b :: b in f(id) <==> NamesNonRunnable(workers, id, b))
  {
    hide Blockable, CycleBlockers, NotRunnableBlockers, WaitsForNonRunnable, NamesNonRunnable;
    CycleBlockersName(cycles, id);
    NotRunnableSeedIff(workers, id);
  }

  ghost predicate NamesFailed(workers: WorkerMap, id: WorkerId, b: Blocker) {
    exists d :: DependsOn(workers, id, d) && MissingOrFailed(workers, d) && b == DependencyBlocker(d)
  }

  /** It is blocked on a dependency from the start iff one is missing, failed, blocked, aborted or timed out, and then
      lists exactly those. */
  lemma DependencySeedIff(workers: WorkerMap, id: WorkerId)
    ensures id in DependencySeeds(workers) <==> Blockable(workers, id) && WaitsForFailed(workers, id)
    ensures id in DependencySeeds(workers) ==>
              && DependencySeeds(workers)[id] != []
              && forall b :: b in DependencySeeds(workers)[id] <==> NamesFailed(workers, id, b)
  {
    hide FailedSeed, Collect, Blockable, FailedBlockers, NamesFailed, WaitsForFailed;
    FailedSeedAt(workers, id);
    FailedBlockersName(workers, id);
    CollectAt(FailedSeed(workers), SortedIds(workers.Keys), id);
    BlockableIsListed(workers, id);
  }

  lemma FailedSeedAt(workers: WorkerMap, id: WorkerId)
    ensures FailedSeed(workers)(id) ==
            if Blockable(workers, id) then FailedBlockers(workers, Dependencies(workers, id)) else []
  {
  }

  lemma FailedBlockersName(workers: WorkerMap, id: WorkerId)
    ensures var found := FailedBlockers(workers, Dependencies(workers, id));
            && (found != [] <==> WaitsForFailed(workers, id))
            && forall b :: b in found <==> NamesFailed(workers, id, b)
  {
    hide FailedBlockers, MissingOrFailed;
    var ids := Dependencies(workers, id);
    var found := FailedBlockers(workers, ids);
    FailedBlockersFound(workers, ids);
    forall b ensures b in found <==> NamesFailed(workers, id, b) {
      if b in found {
        var i :| 0 <= i < |ids| && MissingOrFailed(workers, ids[i]) && b == DependencyBlocker(ids[i]);
        assert DependsOn(workers, id, ids[i]);
      }
      if d :| DependsOn(workers, id, d) && MissingOrFailed(workers, d) && b == DependencyBlocker(d) {
        var i :| 0 <= i < |ids| && ids[i] == d;
        assert MissingOrFailed(workers, ids[i]);
      }
    }
    if d :| DependsOn(workers, id, d) && MissingOrFailed(workers, d) {
      assert NamesFailed(workers, id, DependencyBlocker(d));
    }
    NonEmptyHasFirst(found);
    if found != [] {
      var d :| DependsOn(workers, id, d) && MissingOrFailed(workers, d) && found[0] == DependencyBlocker(d);
    }
  }

  ghost predicate NamesBlocked(workers: WorkerMap, m: BlockerMap, id: WorkerId, b: Blocker) {
    exists d :: DependsOn(workers, id, d) && d in m && b == DependencyBlocker(d)
  }

  lemma RoundIff(workers: WorkerMap, m: BlockerMap, id: WorkerId)
    ensures id in Round(workers, m) <==>
            id !in m && Blockable(workers, id) && exists d :: DependsOn(workers, id, d) && d in m
    ensures id in Round(workers, m) ==> forall b :: b in Round(workers, m)[id] <==> NamesBlocked(workers, m, id, b)
  {
    var ids := Dependencies(workers, id);
    BlockedBlockersFound(m.Keys, ids);
    var found := BlockedBlockers(m.Keys, ids);
    if d :| DependsOn(workers, id, d) && d in m {
      var i :| 0 <= i < |ids| && ids[i] == d;
      assert DependencyBlocker(d) in found;
    }
    if found != [] { assert found[0] in found; }
    forall b ensures b in found <==> NamesBlocked(workers, m, id, b) {
      if d :| DependsOn(workers, id, d) && d in m && b == DependencyBlocker(d) {
        var i :| 0 <= i < |ids| && ids[i] == d;
        assert ids[i] in m.Keys;
      }
    }
  }

  // ----- The propagated map is the least closed one -----

  /** Closed under: a blockable worker with a dependency in the set is in the set. */
  ghost predicate Closed(workers: WorkerMap, s: set<WorkerId>) {
    forall id, d :: Blockable(workers, id) && DependsOn(workers, id, d) && d in s ==> id in s
  }

  lemma {:induction false} PropagatedIsLeastClosed(workers: WorkerMap, m: BlockerMap)
    ensures var p := Propagated(workers, m);
            && m.Keys <= p.Keys && Closed(workers, p.Keys)
            && (forall s :: m.Keys <= s && Closed(workers, s) ==> p.Keys <= s)
            && (forall id :: id in m ==> p[id] == m[id])
    decreases workers.Keys - m.Keys
  {
    var next := Round(workers, m);
    if next.Keys == {} {
      forall id, d | Blockable(workers, id) && DependsOn(workers, id, d) && d in m.Keys ensures id in m.Keys {
        RoundIff(workers, m, id);
      }
    } else {
      assert next.Keys <= workers.Keys - m.Keys;
      PropagatedIsLeastClosed(workers, m + next);
      forall s | m.Keys <= s && Closed(workers, s) ensures (m + next).Keys <= s {
        forall id | id in next ensures id in s { RoundIff(workers, m, id); }
      }
      forall id | id in m ensures id !in next { RoundIff(workers, m, id); }
    }
  }

  lemma PropagatedUnfolds(workers: WorkerMap, m: BlockerMap)
    ensures Round(workers, m).Keys == {} ==> Propagated(workers, m) == m
    ensures Round(workers, m).Keys != {} ==> Propagated(workers, m) == Propagated(workers, m + Round(workers, m))
  {
  }

  /** The round in which a worker of the propagated map was blocked; seeds count as round 0. */
  ghost function RoundOf(workers: WorkerMap, m: BlockerMap, id: WorkerId): nat
    requires id in Propagated(workers, m)
    decreases workers.Keys - m.Keys
  {
    if id in m then 0
    else
      PropagatedUnfolds(workers, m);
      assert Round(workers, m).Keys <= workers.Keys - m.Keys;
      1 + RoundOf(workers, m + Round(workers, m), id)
  }

  lemma RoundShift(workers: WorkerMap, m: BlockerMap, id: WorkerId)
    requires id in Propagated(workers, m) && Round(workers, m).Keys != {}
    ensures var next := m + Round(workers, m);
            && id in Propagated(workers, next)
            && RoundOf(workers, m, id) == (if id in m then 0 else 1 + RoundOf(workers, next, id))
            && (id in next <==> RoundOf(workers, next, id) == 0)
  {
    PropagatedUnfolds(workers, m);
  }

  /** The blocker names a dependency of the worker that was blocked in an earlier round. */
  ghost predicate NamesEarlier(workers: WorkerMap, m: BlockerMap, id: WorkerId, b: Blocker)
    requires id in Propagated(workers, m)
  {
    exists d :: DependsOn(workers, id, d) && d in Propagated(workers, m) && b == DependencyBlocker(d)
                && RoundOf(workers, m, d) < RoundOf(workers, m, id)
  }

  /** A propagated worker lists exactly its dependencies blocked in earlier rounds, and has at least one. */
  lemma {:induction false} BlockersNameEarlierRounds(workers: WorkerMap, m: BlockerMap, id: WorkerId)
    requires id in Propagated(workers, m) && id !in m
    ensures Propagated(workers, m)[id] != [] && Blockable(workers, id)
    ensures forall b :: b in Propagated(workers, m)[id] <==> NamesEarlier(workers, m, id, b)
    ensures exists blocked :: Propagated(workers, m)[id] == BlockedBlockers(blocked, Dependencies(workers, id))
    decreases workers.Keys - m.Keys
  {
    var p := Propagated(workers, m);
    var next := Round(workers, m);
    assert next.Keys <= workers.Keys - m.Keys;
    PropagatedIsLeastClosed(workers, m + next);
    RoundIff(workers, m, id);
    RoundShift(workers, m, id);
    if id in next {
      assert p[id] == next[id] && next[id] == BlockedBlockers(m.Keys, Dependencies(workers, id));
      forall b ensures NamesBlocked(workers, m, id, b) <==> NamesEarlier(workers, m, id, b) {
        FirstRoundNames(workers, m, id, b);
      }
    } else {
      BlockersNameEarlierRounds(workers, m + next, id);
      forall b ensures NamesEarlier(workers, m + next, id, b) <==> NamesEarlier(workers, m, id, b) {
        LaterRoundNames(workers, m, id, b);
      }
    }
  }

  lemma FirstRoundNames(workers: WorkerMap, m: BlockerMap, id: WorkerId, b: Blocker)
    requires id in Round(workers, m) && id in Propagated(workers, m) && m.Keys <= Propagated(workers, m).Keys
    requires id !in m && RoundOf(workers, m, id) == 1
    ensures NamesBlocked(workers, m, id, b) <==> NamesEarlier(workers, m, id, b)
  {
    if d :| DependsOn(workers, id, d) && d in m && b == DependencyBlocker(d) {
      assert RoundOf(workers, m, d) == 0;
    }
    if d :| DependsOn(workers, id, d) && d in Propagated(workers, m) && b == DependencyBlocker(d)
            && RoundOf(workers, m, d) < RoundOf(workers, m, id) {
      RoundShift(workers, m, d);
    }
  }

  lemma LaterRoundNames(workers: WorkerMap, m: BlockerMap, id: WorkerId, b: Blocker)
    requires Round(workers, m).Keys != {} && id in Propagated(workers, m)
    requires id !in m + Round(workers, m)
    ensures id in Propagated(workers, m + Round(workers, m))
    ensures NamesEarlier(workers, m + Round(workers, m), id, b) <==> NamesEarlier(workers, m, id, b)
  {
    RoundShift(workers, m, id);
    if d :| DependsOn(workers, id, d) && d in Propagated(workers, m) && b == DependencyBlocker(d) {
      RoundShift(workers, m, d);
    }
  }

  /** Why a worker is blocked: from each worker to one its blockers name, ending at a seed. */
  ghost predicate Explains(p: BlockerMap, seeds: BlockerMap, chain: seq<WorkerId>) {
    && chain != [] && chain[|chain| - 1] in seeds
    && (forall i :: 0 <= i < |chain| ==> chain[i] in p)
    && forall i :: 0 <= i < |chain| - 1 ==> DependencyBlocker(chain[i + 1]) in p[chain[i]]
  }

  lemma {:induction false} ExplanationEndsAtSeed(workers: WorkerMap, m: BlockerMap, id: WorkerId)
      returns (chain: seq<WorkerId>)
    requires id in Propagated(workers, m)
    ensures Explains(Propagated(workers, m), m, chain) && chain[0] == id
    decreases RoundOf(workers, m, id)
  {
    var p := Propagated(workers, m);
    if id in m {
      chain := [id];
    } else {
      BlockersNameEarlierRounds(workers, m, id);
      assert NamesEarlier(workers, m, id, p[id][0]);
      var d :| DependsOn(workers, id, d) && d in p && p[id][0] == DependencyBlocker(d)
               && RoundOf(workers, m, d) < RoundOf(workers, m, id);
      var rest := ExplanationEndsAtSeed(workers, m, d);
      chain := [id] + rest;
      ExplainsCons(p, m, id, rest);
    }
  }

  lemma ExplainsCons(p: BlockerMap, seeds: BlockerMap, id: WorkerId, rest: seq<WorkerId>)
    requires Explains(p, seeds, rest) && id in p && DependencyBlocker(rest[0]) in p[id]
    ensures Explains(p, seeds, [id] + rest)
  {
    var chain := [id] + rest;
    forall i | 0 <= i < |chain| - 1 ensures DependencyBlocker(chain[i + 1]) in p[chain[i]] {
      if i > 0 { assert DependencyBlocker(rest[i - 1 + 1]) in p[rest[i - 1]]; }
    }
  }

  /** No worker is blocked without at least one blocker to show, and only prompted runnable workers are. */
  lemma BlockedWorkersHaveBlockers(workers: WorkerMap, id: WorkerId)
    ensures var a := Analyze(workers);
            && (id in a.blockers <==> id in a.invalid || id in a.dependency)
            && (id in a.blockers ==> a.blockers[id] != [] && Blockable(workers, id))
  {
    var cycles := WalkOf(GraphOf(workers)).cycles;
    InvalidSeedIff(workers, cycles, id);
    DependencySeedIff(workers, id);
    SeededBlockers(workers, InvalidSeeds(workers, cycles), DependencySeeds(workers), id);
  }

  lemma SeededBlockers(workers: WorkerMap, invalid: BlockerMap, dependency: BlockerMap, id: WorkerId)
    requires id in invalid ==> invalid[id] != [] && Blockable(workers, id)
    requires id in dependency ==> dependency[id] != [] && Blockable(workers, id)
    ensures var blockers := MergedBlockers(Propagated(workers, invalid), Propagated(workers, dependency));
            && (id in blockers <==> id in Propagated(workers, invalid) || id in Propagated(workers, dependency))
            && (id in blockers ==> blockers[id] != [] && Blockable(workers, id))
  {
    SeededHasBlockers(workers, invalid, id);
    SeededHasBlockers(workers, dependency, id);
    MergedHasBlockers(Propagated(workers, invalid), Propagated(workers, dependency), id);
  }

  lemma MergedHasBlockers(a: BlockerMap, b: BlockerMap, id: WorkerId)
    requires id in a ==> a[id] != []
    requires id in b ==> b[id] != []
    ensures id in MergedBlockers(a, b) <==> id in a || id in b
    ensures id in MergedBlockers(a, b) ==> MergedBlockers(a, b)[id] != []
  {
    hide MergedBlockers, MergedOf;
    MergedLists(a, b, id);
    MergedMembers(ListOf(MergedBlockers(a, b), id), ListOf(a, id), ListOf(b, id));
    if id in a { assert a[id][0] in a[id]; }
    if id in b { assert b[id][0] in b[id]; }
  }

  lemma SeededHasBlockers(workers: WorkerMap, m: BlockerMap, id: WorkerId)
    requires id in m ==> m[id] != [] && Blockable(workers, id)
    ensures id in Propagated(workers, m) ==> Propagated(workers, m)[id] != [] && Blockable(workers, id)
  {
    if id in Propagated(workers, m) {
      PropagatedIsLeastClosed(workers, m);
      if id !in m { BlockersNameEarlierRounds(workers, m, id); }
    }
  }

  // ----- What the analysis lists -----

  /** The lists of a worker keep the order of its dependencies, or of the recorded cycles. */
  lemma ListsKeepOrder(workers: WorkerMap, blocked: set<WorkerId>, a: seq<WorkerId>, b: seq<WorkerId>)
    ensures FailedBlockers(workers, a + b) == FailedBlockers(workers, a) + FailedBlockers(workers, b)
    ensures NotRunnableBlockers(workers, a + b) == NotRunnableBlockers(workers, a) + NotRunnableBlockers(workers, b)
    ensures BlockedBlockers(blocked, a + b) == BlockedBlockers(blocked, a) + BlockedBlockers(blocked, b)
    decreases |b|
  {
    if b == [] {
      assert a + b == a;
    } else {
      var n := |b| - 1;
      assert (a + b)[..|a + b| - 1] == a + b[..n];
      ListsKeepOrder(workers, blocked, a, b[..n]);
    }
  }

  lemma CyclesKeepOrder(a: seq<seq<WorkerId>>, b: seq<seq<WorkerId>>, id: WorkerId)
    ensures CycleBlockers(a + b, id) == CycleBlockers(a, id) + CycleBlockers(b, id)
    decreases |b|
  {
    if b == [] {
      assert a + b == a;
    } else {
      var n := |b| - 1;
      assert (a + b)[..|a + b| - 1] == a + b[..n];
      CyclesKeepOrder(a, b[..n], id);
    }
  }

  /** Seed lists are lists over all recorded cycles, or all dependencies, of the worker. */
  lemma SeedLists(workers: WorkerMap, cycles: seq<seq<WorkerId>>, id: WorkerId)
    ensures id in InvalidSeeds(workers, cycles) ==>
              InvalidSeeds(workers, cycles)[id] ==
              if OnRecordedCycle(cycles, id) then CycleBlockers(cycles, id)
              else NotRunnableBlockers(workers, Dependencies(workers, id))
    ensures id in DependencySeeds(workers) ==>
              DependencySeeds(workers)[id] == FailedBlockers(workers, Dependencies(workers, id))
  {
    hide Collect, CycleSeed, NotRunnableSeed, FailedSeed, CycleBlockers, NotRunnableBlockers, FailedBlockers, Blockable,
         OnRecordedCycle;
    var ids := SortedIds(workers.Keys);
    CycleSeedAt(workers, cycles, id);
    NotRunnableList(workers, cycles, id);
    FailedSeedAt(workers, id);
    CycleBlockersName(cycles, id);
    CollectAt(CycleSeed(workers, cycles), ids, id);
    CollectAt(NotRunnableSeed(workers, cycles), ids, id);
    CollectAt(FailedSeed(workers), ids, id);
  }

  lemma NotRunnableList(workers: WorkerMap, cycles: seq<seq<WorkerId>>, id: WorkerId)
    ensures NotRunnableSeed(workers, cycles)(id) ==
            if Blockable(workers, id) && CycleBlockers(cycles, id) == []
            then NotRunnableBlockers(workers, Dependencies(workers, id)) else []
  {
  }

  /** Every reason for which the analysis may block a worker, with the blocker that names it. */
  ghost predicate Reason(workers: WorkerMap, id: WorkerId, b: Blocker) {
    var cycles := WalkOf(GraphOf(workers)).cycles;
    var invalid, dependency := InvalidSeeds(workers, cycles), DependencySeeds(workers);
    || (id in invalid && if OnRecordedCycle(cycles, id) then NamesCycle(cycles, id, b)
                         else NamesNonRunnable(workers, id, b))
    || (id in dependency && NamesFailed(workers, id, b))
    || (id !in invalid && id in Propagated(workers, invalid) && NamesEarlier(workers, invalid, id, b))
    || (id !in dependency && id in Propagated(workers, dependency) && NamesEarlier(workers, dependency, id, b))
  }

  lemma PropagatedNames(workers: WorkerMap, m: BlockerMap, id: WorkerId, b: Blocker)
    ensures b in ListOf(Propagated(workers, m), id) <==>
            || (id in m && b in m[id])
            || (id !in m && id in Propagated(workers, m) && NamesEarlier(workers, m, id, b))
  {
    hide NamesEarlier;
    PropagatedIsLeastClosed(workers, m);
    if id !in m && id in Propagated(workers, m) { BlockersNameEarlierRounds(workers, m, id); }
  }

  /** A blocked worker shows the blockers of the invalid kind and then those of the dependency kind, each once; together
      they are exactly its reasons. */
  lemma AnalyzedBlockers(workers: WorkerMap, id: WorkerId)
    ensures var a := Analyze(workers); var shown := ListOf(a.blockers, id);
            && MergedOf(shown, ListOf(a.invalid, id), ListOf(a.dependency, id))
            && NoDuplicates(shown) && forall b :: b in shown <==> Reason(workers, id, b)
  {
    hide MergedOf, MergedBlockers, Propagated, InvalidSeeds, DependencySeeds, NamesEarlier, NamesFailed, NamesCycle,
         NamesNonRunnable, OnRecordedCycle;
    var a := Analyze(workers);
    var cycles := WalkOf(GraphOf(workers)).cycles;
    MergedLists(a.invalid, a.dependency, id);
    MergedMembers(ListOf(a.blockers, id), ListOf(a.invalid, id), ListOf(a.dependency, id));
    InvalidSeedIff(workers, cycles, id);
    DependencySeedIff(workers, id);
    forall b ensures b in ListOf(a.blockers, id) <==> Reason(workers, id, b) {
      PropagatedNames(workers, InvalidSeeds(workers, cycles), id, b);
      PropagatedNames(workers, DependencySeeds(workers), id, b);
    }
  }
}
