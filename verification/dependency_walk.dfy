/** The depth-first walk over worker dependencies: the order it lists and the cycles it records. */
module DependencyWalk {
  import opened Common

  /** The dependencies of every worker; a dependency need not be a worker, nor be listed once. */
  type Graph = map<WorkerId, seq<WorkerId>>

  datatype Walk = Walk(
    ordered: seq<WorkerId>,
    cycles: seq<seq<WorkerId>>,
    visited: set<WorkerId>,
    visiting: seq<WorkerId>)

  const UNVISITED := Walk([], [], {}, [])

  function AfterVisit(g: Graph, id: WorkerId, s: Walk): (r: Walk)
    ensures r.visiting == s.visiting
    decreases g.Keys - Elements(s.visiting), 0
  {
    if id in s.visited then s
    else if id in s.visiting then s.(cycles := s.cycles + [s.visiting[IndexOf(s.visiting, id)..] + [id]])
    else if id !in g then s
    else
      ElementsAppend(s.visiting, id);
      var r := AfterVisits(g, g[id], s.(visiting := s.visiting + [id]));
      Walk(r.ordered + [id], r.cycles, r.visited + {id}, s.visiting)
  }

  function AfterVisits(g: Graph, ids: seq<WorkerId>, s: Walk): (r: Walk)
    ensures r.visiting == s.visiting
    decreases g.Keys - Elements(s.visiting), |ids|
  {
    if ids == [] then s else AfterVisits(g, ids[1..], AfterVisit(g, ids[0], s))
  }

  function WalkOf(g: Graph): Walk {
    AfterVisits(g, SortedIds(g.Keys), UNVISITED)
  }

  // ----- Paths, cycles and what the walk keeps -----

  predicate Edge(g: Graph, u: WorkerId, d: WorkerId) {
    u in g && d in g[u]
  }

  predicate IsPath(g: Graph, p: seq<WorkerId>) {
    forall i :: 0 <= i < |p| - 1 ==> Edge(g, p[i], p[i + 1])
  }

  predicate ClosedWalk(g: Graph, c: seq<WorkerId>) {
    |c| >= 2 && c[0] == c[|c| - 1] && IsPath(g, c)
  }

  ghost predicate SimpleCycle(g: Graph, c: seq<WorkerId>) {
    ClosedWalk(g, c) && NoDuplicates(c[..|c| - 1])
  }

  ghost predicate Acyclic(g: Graph) {
    forall c :: !ClosedWalk(g, c)
  }

  /** Some recorded cycle ends with the edge from u to d. */
  predicate ClosingEdge(cycles: seq<seq<WorkerId>>, u: WorkerId, d: WorkerId) {
    exists i :: 0 <= i < |cycles| && EndsWith(cycles[i], u, d)
  }

  predicate EndsWith(c: seq<WorkerId>, u: WorkerId, d: WorkerId) {
    |c| >= 2 && c[|c| - 2] == u && c[|c| - 1] == d
  }

  predicate Before(ordered: seq<WorkerId>, d: WorkerId, u: WorkerId) {
    exists i, j :: 0 <= i < j < |ordered| && ordered[i] == d && ordered[j] == u
  }

  /** The dependency is listed first, or the edge to it closes a recorded cycle. */
  predicate Settled(s: Walk, u: WorkerId, d: WorkerId) {
    Before(s.ordered, d, u) || ClosingEdge(s.cycles, u, d)
  }

  ghost predicate WellFormed(g: Graph, s: Walk) {
    && NoDuplicates(s.ordered) && NoDuplicates(s.visiting)
    && (forall x :: x in s.visited <==> x in s.ordered)
    && (forall x :: x in s.visited ==> x in g && x !in s.visiting)
    && (forall x :: x in s.visiting ==> x in g)
    && IsPath(g, s.visiting)
    && (forall c :: c in s.cycles ==> SimpleCycle(g, c))
    && (forall u, d :: u in s.visited && Edge(g, u, d) && d in g ==> Settled(s, u, d))
  }

  /** The walk only ever adds to what it has. */
  predicate Extends(s: Walk, r: Walk) {
    s.ordered <= r.ordered && s.cycles <= r.cycles && r.visiting == s.visiting
  }

  lemma SettledPersists(s: Walk, r: Walk, u: WorkerId, d: WorkerId)
    requires s.ordered <= r.ordered && s.cycles <= r.cycles && Settled(s, u, d)
    ensures Settled(r, u, d)
  {
    if Before(s.ordered, d, u) {
      var i, j :| 0 <= i < j < |s.ordered| && s.ordered[i] == d && s.ordered[j] == u;
      assert r.ordered[i] == d && r.ordered[j] == u;
    } else {
      var i :| 0 <= i < |s.cycles| && EndsWith(s.cycles[i], u, d);
      assert EndsWith(r.cycles[i], u, d);
    }
  }

  /** What one visit leaves behind for the worker that asked for it, the last of visiting. */
  predicate Handled(g: Graph, s: Walk, id: WorkerId) {
    id !in g || id in s.visited || (s.visiting != [] && ClosingEdge(s.cycles, s.visiting[|s.visiting| - 1], id))
  }

  lemma HandledPersists(g: Graph, s: Walk, r: Walk, id: WorkerId)
    requires Extends(s, r) && s.visited <= r.visited && Handled(g, s, id)
    ensures Handled(g, r, id)
  {
    if id in g && id !in s.visited {
      var u := s.visiting[|s.visiting| - 1];
      var i :| 0 <= i < |s.cycles| && EndsWith(s.cycles[i], u, id);
      assert EndsWith(r.cycles[i], u, id);
    }
  }

  predicate CanFollow(g: Graph, visiting: seq<WorkerId>, id: WorkerId) {
    visiting == [] || Edge(g, visiting[|visiting| - 1], id)
  }

  lemma {:induction false} VisitKeeps(g: Graph, id: WorkerId, s: Walk)
    requires WellFormed(g, s) && CanFollow(g, s.visiting, id)
    ensures var r := AfterVisit(g, id, s);
            WellFormed(g, r) && Extends(s, r) && s.visited <= r.visited && Handled(g, r, id)
    decreases g.Keys - Elements(s.visiting), 0
  {
    if id in s.visited || (id !in s.visiting && id !in g) {
    } else if id in s.visiting {
      RecordCycleKeeps(g, id, s);
    } else {
      ElementsAppend(s.visiting, id);
      var inner := s.(visiting := s.visiting + [id]);
      forall u, d | u in s.visited && Edge(g, u, d) && d in g ensures Settled(inner, u, d) {
        SettledPersists(s, inner, u, d);
      }
      assert WellFormed(g, inner);
      VisitEachKeeps(g, g[id], inner);
      FinishKeeps(g, id, s, AfterVisits(g, g[id], inner));
    }
  }

  /** The visiting stack from an earlier visit of id onwards, closed by id. */
  lemma StackCycleIsSimple(g: Graph, id: WorkerId, visiting: seq<WorkerId>)
    requires IsPath(g, visiting) && NoDuplicates(visiting) && id in visiting && CanFollow(g, visiting, id)
    ensures var c := visiting[IndexOf(visiting, id)..] + [id];
            SimpleCycle(g, c) && EndsWith(c, visiting[|visiting| - 1], id)
  {
    hide Edge;
    var k := IndexOf(visiting, id);
    ClosedSuffix(g, visiting, k, id);
    SuffixDistinct(visiting, k);
    var c := visiting[k..] + [id];
    assert c[..|c| - 1] == visiting[k..];
  }

  lemma ClosedSuffix(g: Graph, visiting: seq<WorkerId>, k: nat, id: WorkerId)
    requires IsPath(g, visiting) && k < |visiting| && visiting[k] == id && Edge(g, visiting[|visiting| - 1], id)
    ensures ClosedWalk(g, visiting[k..] + [id])
    ensures EndsWith(visiting[k..] + [id], visiting[|visiting| - 1], id)
  {
    hide Edge;
    var c := visiting[k..] + [id];
    forall i | 0 <= i < |c| - 1 ensures Edge(g, c[i], c[i + 1]) {
      if i < |c| - 2 { assert Edge(g, visiting[k + i], visiting[k + i + 1]); }
    }
  }

  lemma SuffixDistinct(s: seq<WorkerId>, k: nat)
    requires NoDuplicates(s) && k <= |s|
    ensures NoDuplicates(s[k..])
  {
  }

  lemma RecordCycleKeeps(g: Graph, id: WorkerId, s: Walk)
    requires WellFormed(g, s) && CanFollow(g, s.visiting, id) && id in s.visiting && id !in s.visited
    ensures var r := AfterVisit(g, id, s);
            WellFormed(g, r) && Extends(s, r) && Handled(g, r, id)
  {
    StackCycleIsSimple(g, id, s.visiting);
    var c := s.visiting[IndexOf(s.visiting, id)..] + [id];
    var r := s.(cycles := s.cycles + [c]);
    assert r.cycles[|s.cycles|] == c;
    assert ClosingEdge(r.cycles, s.visiting[|s.visiting| - 1], id);
    forall u, d | u in s.visited && Edge(g, u, d) && d in g ensures Settled(r, u, d) {
      SettledPersists(s, r, u, d);
    }
  }

  /** Popping a worker whose dependencies were all handled. */
  lemma FinishKeeps(g: Graph, id: WorkerId, s: Walk, r: Walk)
    requires id in g && id !in s.visiting && WellFormed(g, s) && WellFormed(g, r)
    requires r.visiting == s.visiting + [id] && s.ordered <= r.ordered && s.cycles <= r.cycles && s.visited <= r.visited
    requires forall d :: d in g[id] ==> Handled(g, r, d)
    ensures var f := Walk(r.ordered + [id], r.cycles, r.visited + {id}, s.visiting);
            WellFormed(g, f) && Extends(s, f) && Handled(g, f, id)
  {
    var f := Walk(r.ordered + [id], r.cycles, r.visited + {id}, s.visiting);
    assert id in r.visiting;
    forall u, d | u in f.visited && Edge(g, u, d) && d in g ensures Settled(f, u, d) {
      if u in r.visited {
        SettledPersists(r, f, u, d);
      } else {
        assert u == id && Handled(g, r, d);
        if d in r.visited {
          var i :| 0 <= i < |r.ordered| && r.ordered[i] == d;
          assert f.ordered[i] == d && f.ordered[|r.ordered|] == id;
        }
      }
    }
    forall x | x in s.visiting ensures x in g && x !in f.visited {
      assert x in r.visiting;
    }
  }

  lemma {:induction false} VisitEachKeeps(g: Graph, ids: seq<WorkerId>, s: Walk)
    requires WellFormed(g, s) && forall id :: id in ids ==> CanFollow(g, s.visiting, id)
    ensures var r := AfterVisits(g, ids, s);
            WellFormed(g, r) && Extends(s, r) && s.visited <= r.visited && forall id :: id in ids ==> Handled(g, r, id)
    decreases g.Keys - Elements(s.visiting), |ids|
  {
    if ids != [] {
      var next := AfterVisit(g, ids[0], s);
      VisitKeeps(g, ids[0], s);
      VisitEachKeeps(g, ids[1..], next);
      HandledPersists(g, next, AfterVisits(g, ids[1..], next), ids[0]);
    }
  }

  // ----- The results of the whole walk -----

  lemma WalkIsWellFormed(g: Graph)
    ensures WellFormed(g, WalkOf(g)) && WalkOf(g).visiting == []
    ensures forall id :: id in WalkOf(g).ordered <==> id in g
  {
    VisitEachKeeps(g, SortedIds(g.Keys), UNVISITED);
    forall id | id in g ensures id in WalkOf(g).ordered {
      assert id in SortedIds(g.Keys) && Handled(g, WalkOf(g), id);
    }
  }

  /** Every worker is listed exactly once. */
  lemma OrderListsEveryWorkerOnce(g: Graph)
    ensures NoDuplicates(WalkOf(g).ordered)
    ensures forall id :: id in WalkOf(g).ordered <==> id in g
    ensures |WalkOf(g).ordered| == |g|
  {
    WalkIsWellFormed(g);
    var ordered := WalkOf(g).ordered;
    DistinctLength(ordered, g.Keys);
    var sorted := SortedIds(g.Keys);
    AscendingDistinct(sorted);
    DistinctLength(sorted, Elements(ordered));
    ElementsSize(ordered);
  }

  lemma {:induction false} ElementsSize(s: seq<WorkerId>)
    ensures |Elements(s)| <= |s|
  {
    if s != [] {
      var n := |s| - 1;
      assert s == s[..n] + [s[n]];
      ElementsAppend(s[..n], s[n]);
      ElementsSize(s[..n]);
    }
  }

  // ----- Smaller ids first -----

  ghost predicate Reaches(g: Graph, a: WorkerId, b: WorkerId) {
    exists p: seq<WorkerId> :: p != [] && p[0] == a && p[|p| - 1] == b && IsPath(g, p)
  }

  ghost predicate ReachedFrom(g: Graph, ids: seq<WorkerId>, y: WorkerId) {
    exists d :: d in ids && Reaches(g, d, y)
  }

  lemma ReachesOn(g: Graph, id: WorkerId, d: WorkerId, y: WorkerId)
    requires Edge(g, id, d) && Reaches(g, d, y)
    ensures Reaches(g, id, y)
  {
    var p: seq<WorkerId> :| p != [] && p[0] == d && p[|p| - 1] == y && IsPath(g, p);
    var q := [id] + p;
    assert q[0] == id && q[|q| - 1] == y;
    forall i | 0 <= i < |q| - 1 ensures Edge(g, q[i], q[i + 1]) {
      if i > 0 { assert Edge(g, p[i - 1], p[i]); }
    }
  }

  lemma {:induction false} VisitReaches(g: Graph, id: WorkerId, s: Walk)
    ensures forall y :: y in AfterVisit(g, id, s).visited ==> y in s.visited || Reaches(g, id, y)
    decreases g.Keys - Elements(s.visiting), 0
  {
    hide Reaches;
    SelfReaches(g, id);
    if id !in s.visited && id !in s.visiting && id in g {
      ElementsAppend(s.visiting, id);
      var inner := s.(visiting := s.visiting + [id]);
      VisitsReach(g, g[id], inner);
      forall y | y in AfterVisits(g, g[id], inner).visited && y !in s.visited ensures Reaches(g, id, y) {
        var d :| d in g[id] && Reaches(g, d, y);
        ReachesOn(g, id, d, y);
      }
    }
  }

  lemma SelfReaches(g: Graph, id: WorkerId)
    ensures Reaches(g, id, id)
  {
    assert IsPath(g, [id]) && [id][0] == id;
  }

  lemma {:induction false} VisitsReach(g: Graph, ids: seq<WorkerId>, s: Walk)
    ensures forall y :: y in AfterVisits(g, ids, s).visited ==> y in s.visited || ReachedFrom(g, ids, y)
    decreases g.Keys - Elements(s.visiting), |ids|
  {
    hide Reaches;
    if ids != [] {
      var next := AfterVisit(g, ids[0], s);
      VisitReaches(g, ids[0], s);
      VisitsReach(g, ids[1..], next);
      assert ids[0] in ids;
    }
  }

  lemma {:induction false} VisitsConcat(g: Graph, a: seq<WorkerId>, b: seq<WorkerId>, s: Walk)
    ensures AfterVisits(g, a + b, s) == AfterVisits(g, b, AfterVisits(g, a, s))
    decreases |a|
  {
    if a == [] {
      assert a + b == b;
    } else {
      assert (a + b)[0] == a[0] && (a + b)[1..] == a[1..] + b;
      VisitsConcat(g, a[1..], b, AfterVisit(g, a[0], s));
    }
  }

  /** A worker stands before a smaller one only if it is reached from that one or from one that is smaller still. */
  lemma SmallerWorkersFirst(g: Graph, x: WorkerId, y: WorkerId)
    requires x in g && x < y && Before(WalkOf(g).ordered, y, x)
    ensures exists r :: r in g && r <= x && Reaches(g, r, y)
  {
    hide Reaches, Before, AfterVisits, WalkOf;
    var sorted := SortedIds(g.Keys);
    var k :| 0 <= k < |sorted| && sorted[k] == x;
    HalfWalk(g, k);
    OrderListsEveryWorkerOnce(g);
    var half := AfterVisits(g, sorted[..k + 1], UNVISITED);
    PrefixBefore(half.ordered, WalkOf(g).ordered, y, x);
    var r :| r in sorted[..k + 1] && Reaches(g, r, y);
    var i :| 0 <= i <= k && sorted[..k + 1][i] == r;
    assert sorted[i] == r && r in sorted;
  }

  /** The walk after its first roots. */
  lemma HalfWalk(g: Graph, k: nat)
    requires k < |SortedIds(g.Keys)|
    ensures var sorted := SortedIds(g.Keys); var half := AfterVisits(g, sorted[..k + 1], UNVISITED);
            && half.ordered <= WalkOf(g).ordered && sorted[k] in half.ordered
            && forall y :: y in half.ordered ==> ReachedFrom(g, sorted[..k + 1], y)
  {
    hide ReachedFrom, AfterVisits, Settled, Edge, IsPath, SimpleCycle, SortedIds;
    var sorted := SortedIds(g.Keys);
    var a, b := sorted[..k + 1], sorted[k + 1..];
    var half := AfterVisits(g, a, UNVISITED);
    assert a + b == sorted;
    VisitsConcat(g, a, b, UNVISITED);
    assert WellFormed(g, UNVISITED) by { NothingIsWellFormed(g); }
    VisitEachKeeps(g, a, UNVISITED);
    VisitEachKeeps(g, b, half);
    VisitsReach(g, a, UNVISITED);
    assert a[k] in a && sorted[k] in sorted && Handled(g, half, sorted[k]);
  }

  lemma NothingIsWellFormed(g: Graph)
    ensures WellFormed(g, UNVISITED)
  {
  }

  /** What stands before a member of a prefix is in the prefix. */
  lemma PrefixBefore(half: seq<WorkerId>, all: seq<WorkerId>, y: WorkerId, x: WorkerId)
    requires half <= all && NoDuplicates(all) && x in half && Before(all, y, x)
    ensures y in half
  {
    var n :| 0 <= n < |half| && half[n] == x;
    var i, j :| 0 <= i < j < |all| && all[i] == y && all[j] == x;
    assert all[n] == x && n == j;
    assert half[i] == y;
  }

  /** A dependency is listed before its dependent unless that edge closes a recorded cycle through both. */
  lemma DependenciesComeFirst(g: Graph, u: WorkerId, d: WorkerId)
    requires Edge(g, u, d) && d in g
    ensures Before(WalkOf(g).ordered, d, u) ||
            exists c :: c in WalkOf(g).cycles && EndsWith(c, u, d) && u in c[..|c| - 1] && d in c[..|c| - 1]
  {
    hide WalkOf, Before, EndsWith, SimpleCycle, Edge;
    WalkSettles(g, u, d);
    RecordedCyclesAreSimple(g);
    var s := WalkOf(g);
    if !Before(s.ordered, d, u) {
      var i :| 0 <= i < |s.cycles| && EndsWith(s.cycles[i], u, d);
      EndsAreMembers(g, s.cycles[i], u, d);
    }
  }

  lemma WalkSettles(g: Graph, u: WorkerId, d: WorkerId)
    requires Edge(g, u, d) && d in g
    ensures Settled(WalkOf(g), u, d)
  {
    hide WalkOf, Settled, SimpleCycle, Edge;
    WalkIsWellFormed(g);
    EdgeFromGraph(g, u, d);
  }

  lemma EdgeFromGraph(g: Graph, u: WorkerId, d: WorkerId)
    requires Edge(g, u, d)
    ensures u in g
  {
  }

  lemma EndsAreMembers(g: Graph, c: seq<WorkerId>, u: WorkerId, d: WorkerId)
    requires SimpleCycle(g, c) && EndsWith(c, u, d)
    ensures u in c[..|c| - 1] && d in c[..|c| - 1]
  {
    assert c[..|c| - 1][|c| - 2] == u && c[..|c| - 1][0] == d;
  }

  lemma RecordedCyclesAreSimple(g: Graph)
    ensures forall c :: c in WalkOf(g).cycles ==> SimpleCycle(g, c)
  {
    WalkIsWellFormed(g);
  }

  /** The closing edges of the recorded cycles meet every closed walk, also the ones not recorded. */
  lemma EveryClosedWalkIsCut(g: Graph, c: seq<WorkerId>)
    requires ClosedWalk(g, c)
    ensures exists i :: 0 <= i < |c| - 1 && ClosingEdge(WalkOf(g).cycles, c[i], c[i + 1])
  {
    WalkIsWellFormed(g);
    var s := WalkOf(g);
    if forall i :: 0 <= i < |c| - 1 ==> !ClosingEdge(s.cycles, c[i], c[i + 1]) {
      forall i | 0 <= i < |c| - 1 ensures Before(s.ordered, c[i + 1], c[i]) {
        assert Edge(g, c[i], c[i + 1]);
        assert c[i + 1] in g by {
          if i + 1 < |c| - 1 { assert Edge(g, c[i + 1], c[i + 2]); } else { assert Edge(g, c[0], c[1]); }
        }
        assert Settled(s, c[i], c[i + 1]);
      }
      PositionsFall(s.ordered, c, |c| - 1);
    }
  }

  /** Along edges that all go backwards in the order, the last element lies before the first. */
  lemma {:induction false} PositionsFall(ordered: seq<WorkerId>, c: seq<WorkerId>, n: nat)
    requires NoDuplicates(ordered) && 1 <= n < |c|
    requires forall i :: 0 <= i < |c| - 1 ==> Before(ordered, c[i + 1], c[i])
    ensures Before(ordered, c[n], c[0]) && c[n] != c[0]
  {
    assert Before(ordered, c[n - 1 + 1], c[n - 1]);
    if n > 1 {
      PositionsFall(ordered, c, n - 1);
      var i, j :| 0 <= i < j < |ordered| && ordered[i] == c[n - 1] && ordered[j] == c[0];
      var k, l :| 0 <= k < l < |ordered| && ordered[k] == c[n] && ordered[l] == c[n - 1];
      assert l == i;
    }
  }

  lemma CyclesEmptyIffAcyclic(g: Graph)
    ensures WalkOf(g).cycles == [] <==> Acyclic(g)
  {
    WalkIsWellFormed(g);
    var cycles := WalkOf(g).cycles;
    if cycles != [] {
      assert cycles[0] in cycles && SimpleCycle(g, cycles[0]);
    } else {
      forall c ensures !ClosedWalk(g, c) {
        if ClosedWalk(g, c) { EveryClosedWalkIsCut(g, c); }
      }
    }
  }

  // ----- The walk in place -----

  /** The locals that the nested visit function updates. */
  class Walker {
    const graph: Graph
    var ordered: seq<WorkerId>
    var cycles: seq<seq<WorkerId>>
    var visited: set<WorkerId>
    var visiting: seq<WorkerId>

    constructor (graph: Graph)
      ensures this.graph == graph && State() == UNVISITED
    {
      this.graph := graph;
      ordered, cycles, visited, visiting := [], [], {}, [];
    }

    ghost function State(): Walk
      reads this
    {
      Walk(ordered, cycles, visited, visiting)
    }

    method Visit(id: WorkerId)
      modifies this
      ensures State() == AfterVisit(graph, id, old(State()))
      decreases graph.Keys - Elements(visiting), 0
    {
      if id in visited { return; }
      if id in visiting {
        cycles := cycles + [visiting[IndexOf(visiting, id)..] + [id]];
        return;
      }
      if id !in graph { return; }
      ElementsAppend(visiting, id);
      visiting := visiting + [id];
      VisitAll(graph[id]);
      visiting := visiting[..|visiting| - 1];
      visited := visited + {id};
      ordered := ordered + [id];
    }

    method VisitAll(ids: seq<WorkerId>)
      modifies this
      ensures State() == AfterVisits(graph, ids, old(State()))
      decreases graph.Keys - Elements(visiting), |ids| + 1
    {
      for i := 0 to |ids|
        invariant visiting == old(visiting)
        invariant AfterVisits(graph, ids[i..], State()) == AfterVisits(graph, ids, old(State()))
      {
        assert ids[i..][1..] == ids[i + 1..];
        Visit(ids[i]);
      }
    }
  }

  method DependencyOrderAndCycles(graph: Graph) returns (ordered: seq<WorkerId>, cycles: seq<seq<WorkerId>>)
    ensures ordered == WalkOf(graph).ordered && cycles == WalkOf(graph).cycles
  {
    var walker := new Walker(graph);
    walker.VisitAll(SortedIds(graph.Keys));
    ordered, cycles := walker.ordered, walker.cycles;
  }
}
