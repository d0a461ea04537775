/** Vocabulary shared by every other module: identifiers, leaf values and sequence helpers. */
module Common {

  datatype Option<+T> = None | Some(value: T)

  function GetOr<T>(o: Option<T>, default: T): T {
    if o.Some? then o.value else default
  }

  /** Worker ids matter only through equality and the order that sorting uses. */
  type WorkerId = int

  /** An instant on the run clock; only comparison and adding seconds are used. */
  type Instant = int

  type SessionId = string

  ghost predicate NoDuplicates<T(!new)>(s: seq<T>) {
    forall i, j :: 0 <= i < j < |s| ==> s[i] != s[j]
  }

  ghost predicate Ascending(s: seq<WorkerId>) {
    forall i, j :: 0 <= i < j < |s| ==> s[i] < s[j]
  }

  function Elements<T(!new)>(s: seq<T>): (r: set<T>)
    ensures forall x :: x in r <==> x in s
  {
    set x | x in s
  }

  lemma ElementsAppend<T(!new)>(s: seq<T>, x: T)
    ensures Elements(s + [x]) == Elements(s) + {x}
  {
  }

  /** The value of list.index: the first position that holds x. */
  function IndexOf<T(==)>(s: seq<T>, x: T): (i: nat)
    requires x in s
    ensures i < |s| && s[i] == x
    ensures forall j :: 0 <= j < i ==> s[j] != x
  {
    if s[0] == x then 0 else 1 + IndexOf(s[1..], x)
  }

  /** list.append guarded by a membership test. */
  function AppendUnique<T(==, !new)>(s: seq<T>, x: T): (r: seq<T>)
    ensures forall y :: y in r <==> y in s || y == x
  {
    if x in s then s else s + [x]
  }

  function AppendAllUnique<T(==, !new)>(s: seq<T>, xs: seq<T>): (r: seq<T>)
    ensures forall y :: y in r <==> y in s || y in xs
    decreases |xs|
  {
    if xs == [] then s else AppendAllUnique(AppendUnique(s, xs[0]), xs[1..])
  }

  lemma NonEmptyHasFirst<T(!new)>(s: seq<T>)
    ensures s != [] ==> s[0] in s
  {
  }

  ghost function AnyOf<T>(s: set<T>): (x: T)
    requires s != {}
    ensures x in s
  {
    var x :| x in s; x
  }

  lemma Least(s: set<WorkerId>) returns (m: WorkerId)
    requires s != {}
    ensures m in s
    ensures forall x :: x in s ==> m <= x
  {
    var first := AnyOf(s);
    m := first;
    if s != {first} {
      var other := Least(s - {first});
      m := if other < first then other else first;
      forall x | x in s ensures m <= x {
        if x != first { assert x in s - {first}; }
      }
    }
  }

  function Min(s: set<WorkerId>): (m: WorkerId)
    requires s != {}
    ensures m in s && forall x :: x in s ==> m <= x
  {
    assert exists m :: m in s && forall x :: x in s ==> m <= x by { var m := Least(s); }
    var m :| m in s && forall x :: x in s ==> m <= x;
    m
  }

  /** sorted(ids): the ids in ascending order, each once. */
  function SortedIds(s: set<WorkerId>): (r: seq<WorkerId>)
    ensures Ascending(r)
    ensures forall x :: x in r <==> x in s
    ensures |r| == |s|
  {
    if s == {} then []
    else
      var m := Min(s);
      var rest := SortedIds(s - {m});
      assert forall i :: 0 <= i < |rest| ==> rest[i] in s - {m};
      [m] + rest
  }

  lemma AscendingDistinct(s: seq<WorkerId>)
    requires Ascending(s)
    ensures NoDuplicates(s)
  {
  }

  /** A list without duplicates over a finite set is no longer than the set. */
  lemma DistinctLength(s: seq<WorkerId>, all: set<WorkerId>)
    requires NoDuplicates(s)
    requires forall x :: x in s ==> x in all
    ensures |s| <= |all|
  {
    if s != [] {
      var x := s[0];
      assert forall y :: y in s[1..] ==> y in all - {x};
      DistinctLength(s[1..], all - {x});
    }
  }

  lemma SubsetSize<T>(a: set<T>, b: set<T>)
    requires a <= b
    ensures |a| <= |b|
    ensures a != b ==> |a| < |b|
  {
    assert b == a + (b - a);
    assert |b| == |a| + |b - a|;
    if a != b { assert b - a != {}; }
  }

  /** The members of xs that are not known, each once, in the order of their first places in xs. */
  ghost predicate FirstsOf<T(!new)>(r: seq<T>, xs: seq<T>, known: seq<T>) {
    && NoDuplicates(r)
    && (forall x :: x in r <==> x in xs && x !in known)
    && forall i, j :: 0 <= i < j < |r| ==> r[i] in xs && r[j] in xs && IndexOf(xs, r[i]) < IndexOf(xs, r[j])
  }

  /** r is the members of xs and then those of ys, each once and in their order. */
  ghost predicate MergedOf<T(!new)>(r: seq<T>, xs: seq<T>, ys: seq<T>) {
    exists k: nat :: k <= |r| && FirstsOf(r[..k], xs, []) && FirstsOf(r[k..], ys, xs)
  }

  lemma IndexShifts<T(!new)>(xs: seq<T>, y: T)
    requires xs != [] && y in xs[1..] && y != xs[0]
    ensures y in xs && IndexOf(xs, y) == 1 + IndexOf(xs[1..], y) && IndexOf(xs, xs[0]) == 0
  {
  }

  lemma FirstsCons<T(!new)>(r: seq<T>, xs: seq<T>, known: seq<T>)
    requires xs != [] && FirstsOf(r, xs[1..], if xs[0] in known then known else known + [xs[0]])
    ensures FirstsOf(if xs[0] in known then r else [xs[0]] + r, xs, known)
  {
    hide IndexOf;
    var x := xs[0];
    assert forall y :: y in xs <==> y == x || y in xs[1..];
    forall i | 0 <= i < |r| ensures r[i] in xs && r[i] != x && IndexOf(xs, r[i]) == 1 + IndexOf(xs[1..], r[i]) {
      assert r[i] in r;
      IndexShifts(xs, r[i]);
    }
    if x !in known { FirstsPrepend(r, xs, known); }
  }

  lemma FirstsPrepend<T(!new)>(r: seq<T>, xs: seq<T>, known: seq<T>)
    requires xs != [] && xs[0] !in known && xs[0] !in r && FirstsOf(r, xs[1..], known + [xs[0]])
    ensures FirstsOf([xs[0]] + r, xs, known)
  {
    hide IndexOf;
    var x, all := xs[0], [xs[0]] + r;
    assert forall y :: y in xs <==> y == x || y in xs[1..];
    forall i | 0 <= i < |all|
      ensures all[i] in xs && IndexOf(xs, all[i]) == if i == 0 then 0 else 1 + IndexOf(xs[1..], r[i - 1])
    {
      if i > 0 { assert all[i] == r[i - 1] && r[i - 1] in r; IndexShifts(xs, r[i - 1]); } else { FirstIndex(xs); }
    }
  }

  lemma FirstIndex<T(!new)>(xs: seq<T>)
    requires xs != []
    ensures IndexOf(xs, xs[0]) == 0
  {
  }

  lemma NoFirsts<T(!new)>(s: seq<T>)
    ensures FirstsOf(s[|s|..], [], s)
  {
  }

  /** Appending what is new keeps the list and adds exactly the new members, in order. */
  lemma {:induction false} AppendedFirsts<T(!new)>(s: seq<T>, xs: seq<T>)
    ensures s <= AppendAllUnique(s, xs) && FirstsOf(AppendAllUnique(s, xs)[|s|..], xs, s)
    decreases |xs|
  {
    hide FirstsOf;
    if xs == [] {
      NoFirsts(s);
    } else if xs[0] in s {
      AppendedFirsts(s, xs[1..]);
      FirstsCons(AppendAllUnique(s, xs)[|s|..], xs, s);
    } else {
      var next, r := s + [xs[0]], AppendAllUnique(s, xs);
      AppendedFirsts(next, xs[1..]);
      FirstsCons(r[|next|..], xs, s);
      assert r[|s|..] == [xs[0]] + r[|next|..];
    }
  }

  lemma SameKnown<T(!new)>(r: seq<T>, xs: seq<T>, a: seq<T>, b: seq<T>)
    requires FirstsOf(r, xs, a) && forall x :: x in a <==> x in b
    ensures FirstsOf(r, xs, b)
  {
  }

  /** Collecting xs and then ys merges them. */
  lemma AppendedMerge<T(!new)>(xs: seq<T>, ys: seq<T>)
    ensures MergedOf(AppendAllUnique(AppendAllUnique([], xs), ys), xs, ys)
  {
    var first := AppendAllUnique([], xs);
    var r := AppendAllUnique(first, ys);
    AppendedFirsts([], xs);
    AppendedFirsts(first, ys);
    assert r[..|first|] == first && first[0..] == first;
    SameKnown(r[|first|..], ys, first, xs);
  }

  lemma MergedMembers<T(!new)>(r: seq<T>, xs: seq<T>, ys: seq<T>)
    requires MergedOf(r, xs, ys)
    ensures NoDuplicates(r) && forall x :: x in r <==> x in xs || x in ys
  {
    var k: nat :| k <= |r| && FirstsOf(r[..k], xs, []) && FirstsOf(r[k..], ys, xs);
    assert r == r[..k] + r[k..];
    forall i, j | 0 <= i < j < |r| ensures r[i] != r[j] {
      if i < k { assert r[i] in r[..k]; assert r[..k][i] == r[i]; }
      if j >= k { assert r[j] in r[k..]; assert r[k..][j - k] == r[j]; }
      if j < k { assert r[..k][j] == r[j]; }
      if i >= k { assert r[k..][i - k] == r[i]; }
    }
  }
}
