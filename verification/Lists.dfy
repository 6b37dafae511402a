/** List helpers the engine is written with: uniqueness, order-preserving removal and merging,
    and the ordering used wherever the engine calls `sorted`. */
module Lists {

  predicate Unique<T(==)>(xs: seq<T>) {
    forall i, j :: 0 <= i < j < |xs| ==> xs[i] != xs[j]
  }

  /** `[x for x in xs if x not in drop]`. */
  function Without<T(==,!new)>(xs: seq<T>, drop: set<T>): (r: seq<T>)
    ensures forall x :: x in r <==> x in xs && x !in drop
    ensures Unique(xs) ==> Unique(r)
  {
    if xs == [] then []
    else
      var rest := Without(xs[1..], drop);
      if xs[0] in drop then rest else [xs[0]] + rest
  }

  /** Appends the items of `incoming` that are not there yet, in order. */
  function MergeUnique<T(==,!new)>(base: seq<T>, incoming: seq<T>): (r: seq<T>)
    ensures forall x :: x in r <==> x in base || x in incoming
    ensures Unique(base) ==> Unique(r)
    ensures base <= r
    decreases |incoming|
  {
    if incoming == [] then base
    else MergeUnique(if incoming[0] in base then base else base + [incoming[0]], incoming[1..])
  }

  lemma {:induction false} MergeUniqueOfFresh<T(!new)>(base: seq<T>, incoming: seq<T>)
    requires Unique(base + incoming)
    ensures MergeUnique(base, incoming) == base + incoming
    decreases |incoming|
  {
    if incoming == [] {
      assert base + incoming == base;
    } else {
      assert (base + incoming)[|base|] == incoming[0];
      assert forall i :: 0 <= i < |base| ==> (base + incoming)[i] == base[i];
      assert incoming[0] !in base;
      assert (base + [incoming[0]]) + incoming[1..] == base + incoming;
      MergeUniqueOfFresh(base + [incoming[0]], incoming[1..]);
    }
  }

  /** Merging in two rounds is merging once. */
  lemma {:induction false} MergeUniqueAppend<T(!new)>(base: seq<T>, a: seq<T>, b: seq<T>)
    ensures MergeUnique(base, a + b) == MergeUnique(MergeUnique(base, a), b)
    decreases |a|
  {
    if a == [] {
      assert a + b == b;
    } else {
      assert (a + b)[1..] == a[1..] + b;
      MergeUniqueAppend(if a[0] in base then base else base + [a[0]], a[1..], b);
    }
  }

  /** Keeps first occurrences. */
  function Dedupe<T(==,!new)>(xs: seq<T>): seq<T> {
    MergeUnique([], xs)
  }

  lemma DedupeOfUnique<T(!new)>(xs: seq<T>)
    requires Unique(xs)
    ensures Dedupe(xs) == xs
  {
    assert [] + xs == xs;
    MergeUniqueOfFresh([], xs);
  }

  lemma {:induction false} WithoutTwice<T(!new)>(xs: seq<T>, a: set<T>, b: set<T>)
    ensures Without(Without(xs, a), b) == Without(xs, a + b)
  {
    if xs != [] {
      WithoutTwice(xs[1..], a, b);
      if xs[0] !in a {
        assert Without(xs, a)[1..] == Without(xs[1..], a);
      }
    }
  }

  lemma {:induction false} WithoutNothing<T(!new)>(xs: seq<T>, drop: set<T>)
    requires forall x :: x in xs ==> x !in drop
    ensures Without(xs, drop) == xs
  {
    if xs != [] {
      WithoutNothing(xs[1..], drop);
      assert xs == [xs[0]] + xs[1..];
    }
  }

  /* ---- Filtering ---- */

  /** `places` are the places of `all` whose items are kept, in order, and `sub` lists those items. */
  ghost predicate Picks<T>(sub: seq<T>, all: seq<T>, keep: T -> bool, places: seq<int>) {
    && |places| == |sub|
    && (forall i, j :: 0 <= i < j < |places| ==> places[i] < places[j])
    && (forall i :: 0 <= i < |places| ==> 0 <= places[i] < |all| && keep(sub[i]) && all[places[i]] == sub[i])
    && (forall k {:trigger k in places} :: 0 <= k < |all| && keep(all[k]) ==> k in places)
  }

  /** `sub` is what remains of `all` when only the kept items stay, each as often and in the same order. */
  ghost predicate Filters<T>(sub: seq<T>, all: seq<T>, keep: T -> bool) {
    exists places :: Picks(sub, all, keep, places)
  }

  lemma FiltersNothing<T>(keep: T -> bool)
    ensures Filters([], [], keep)
  {
    assert Picks([], [], keep, []);
  }

  lemma FiltersSnoc<T>(sub: seq<T>, all: seq<T>, keep: T -> bool, x: T)
    requires Filters(sub, all, keep)
    ensures Filters(if keep(x) then sub + [x] else sub, all + [x], keep)
  {
    var places :| Picks(sub, all, keep, places);
    if keep(x) {
      PicksOneMore(sub, all, keep, places, x);
      assert Picks(sub + [x], all + [x], keep, places + [|all|]);
    } else {
      assert Picks(sub, all + [x], keep, places);
    }
  }

  lemma PicksOneMore<T>(sub: seq<T>, all: seq<T>, keep: T -> bool, places: seq<int>, x: T)
    requires Picks(sub, all, keep, places) && keep(x)
    ensures Picks(sub + [x], all + [x], keep, places + [|all|])
  {
    var more := places + [|all|];
    assert more[|places|] == |all|;
    forall k | 0 <= k < |all + [x]| && keep((all + [x])[k]) ensures k in more {
      if k < |all| {
        assert all[k] == (all + [x])[k] && k in places;
      }
    }
  }

  function AllLater(places: seq<int>): (r: seq<int>)
    ensures |r| == |places| && forall i :: 0 <= i < |r| ==> r[i] == places[i] + 1
  {
    seq(|places|, i requires 0 <= i < |places| => places[i] + 1)
  }

  lemma AllLaterMembers(places: seq<int>, k: int)
    requires k in places
    ensures k + 1 in AllLater(places)
  {
    var i :| 0 <= i < |places| && places[i] == k;
    assert AllLater(places)[i] == k + 1;
  }

  /** The picks after one more item in front, that item aside. */
  ghost predicate PicksRest<T>(sub: seq<T>, longer: seq<T>, keep: T -> bool, later: seq<int>) {
    && |later| == |sub|
    && (forall i, j :: 0 <= i < j < |later| ==> later[i] < later[j])
    && (forall i :: 0 <= i < |later| ==> 0 < later[i] < |longer| && keep(sub[i]) && longer[later[i]] == sub[i])
    && (forall k {:trigger k in later} :: 0 < k < |longer| && keep(longer[k]) ==> k in later)
  }

  lemma PicksLater<T>(sub: seq<T>, all: seq<T>, keep: T -> bool, places: seq<int>, x: T)
    requires Picks(sub, all, keep, places)
    ensures PicksRest(sub, [x] + all, keep, AllLater(places))
  {
    var longer, later := [x] + all, AllLater(places);
    forall i | 0 <= i < |later| ensures 0 < later[i] < |longer| && keep(sub[i]) && longer[later[i]] == sub[i] {
      assert longer[places[i] + 1] == all[places[i]];
    }
    forall k | 0 < k < |longer| && keep(longer[k]) ensures k in later {
      assert longer[k] == all[k - 1] && k - 1 in places;
      AllLaterMembers(places, k - 1);
    }
  }

  lemma PicksWithout<T>(sub: seq<T>, longer: seq<T>, keep: T -> bool, later: seq<int>)
    requires longer != [] && !keep(longer[0]) && PicksRest(sub, longer, keep, later)
    ensures Picks(sub, longer, keep, later)
  {
  }

  lemma PicksWith<T>(sub: seq<T>, longer: seq<T>, keep: T -> bool, later: seq<int>)
    requires longer != [] && keep(longer[0]) && PicksRest(sub, longer, keep, later)
    ensures Picks([longer[0]] + sub, longer, keep, [0] + later)
  {
    var more, subs := [0] + later, [longer[0]] + sub;
    assert more[0] == 0;
    forall i | 0 <= i < |more| ensures 0 <= more[i] < |longer| && keep(subs[i]) && longer[more[i]] == subs[i] {
      assert i > 0 ==> more[i] == later[i - 1] && subs[i] == sub[i - 1];
    }
    forall i, j | 0 <= i < j < |more| ensures more[i] < more[j] {
      assert i > 0 ==> more[i] == later[i - 1];
      assert more[j] == later[j - 1];
    }
    forall k | 0 <= k < |longer| && keep(longer[k]) ensures k in more {
      assert k > 0 ==> k in later;
    }
  }

  lemma FiltersCons<T>(sub: seq<T>, all: seq<T>, keep: T -> bool, x: T)
    requires Filters(sub, all, keep)
    ensures Filters(if keep(x) then [x] + sub else sub, [x] + all, keep)
  {
    hide Picks, PicksRest;
    var places :| Picks(sub, all, keep, places);
    PicksLater(sub, all, keep, places, x);
    if keep(x) {
      PicksWith(sub, [x] + all, keep, AllLater(places));
    } else {
      PicksWithout(sub, [x] + all, keep, AllLater(places));
    }
  }

  lemma FiltersSame<T(!new)>(sub: seq<T>, all: seq<T>, keep: T -> bool, other: T -> bool)
    requires Filters(sub, all, keep) && forall x :: keep(x) == other(x)
    ensures Filters(sub, all, other)
  {
    var places :| Picks(sub, all, keep, places);
    assert Picks(sub, all, other, places);
  }

  lemma {:induction false} WithoutFilters<T(!new)>(xs: seq<T>, drop: set<T>)
    ensures Filters(Without(xs, drop), xs, x => x !in drop)
  {
    hide Filters;
    var keep := (x: T) => x !in drop;
    if xs == [] {
      FiltersNothing(keep);
    } else {
      WithoutFilters(xs[1..], drop);
      FiltersCons(Without(xs[1..], drop), xs[1..], keep, xs[0]);
      assert [xs[0]] + xs[1..] == xs;
    }
  }

  /* ---- Ordering ---- */

  /** A total preorder in the shape `sorted` needs. */
  ghost predicate TotalPreorder<T(!new)>(le: (T, T) -> bool) {
    && (forall a, b :: le(a, b) || le(b, a))
    && (forall a, b, c :: le(a, b) && le(b, c) ==> le(a, c))
  }

  ghost predicate SortedBy<T>(le: (T, T) -> bool, xs: seq<T>) {
    forall i, j :: 0 <= i < j < |xs| ==> le(xs[i], xs[j])
  }

  function Insert<T>(le: (T, T) -> bool, x: T, xs: seq<T>): (r: seq<T>)
    ensures multiset(r) == multiset{x} + multiset(xs)
  {
    if xs == [] then [x]
    else if le(x, xs[0]) then
      assert [x] + xs == [x] + xs;
      [x] + xs
    else
      assert xs == [xs[0]] + xs[1..];
      [xs[0]] + Insert(le, x, xs[1..])
  }

  /** Stable sort: an element stays before the equal ones that follow it. */
  function Sort<T>(le: (T, T) -> bool, xs: seq<T>): (r: seq<T>)
    ensures multiset(r) == multiset(xs)
  {
    if xs == [] then []
    else
      assert xs == [xs[0]] + xs[1..];
      Insert(le, xs[0], Sort(le, xs[1..]))
  }

  lemma {:induction false} InsertSorted<T(!new)>(le: (T, T) -> bool, x: T, xs: seq<T>)
    requires TotalPreorder(le) && SortedBy(le, xs)
    ensures SortedBy(le, Insert(le, x, xs))
  {
    if xs != [] && !le(x, xs[0]) {
      var tail := Insert(le, x, xs[1..]);
      InsertSorted(le, x, xs[1..]);
      forall k | 0 <= k < |tail| ensures le(xs[0], tail[k]) {
        assert tail[k] in multiset(tail);
        assert tail[k] == x || tail[k] in xs[1..];
      }
    }
  }

  lemma {:induction false} SortSorted<T(!new)>(le: (T, T) -> bool, xs: seq<T>)
    requires TotalPreorder(le)
    ensures SortedBy(le, Sort(le, xs))
  {
    if xs != [] {
      SortSorted(le, xs[1..]);
      InsertSorted(le, xs[0], Sort(le, xs[1..]));
    }
  }

  /** A list that is already in order is left alone. */
  lemma {:induction false} SortOfSorted<T(!new)>(le: (T, T) -> bool, xs: seq<T>)
    requires SortedBy(le, xs)
    ensures Sort(le, xs) == xs
  {
    if xs != [] {
      SortOfSorted(le, xs[1..]);
      if |xs| > 1 {
        assert le(xs[0], xs[1]);
      }
      assert xs == [xs[0]] + xs[1..];
    }
  }

  lemma SortMembers<T(!new)>(le: (T, T) -> bool, xs: seq<T>)
    ensures |Sort(le, xs)| == |xs|
    ensures forall x :: x in Sort(le, xs) <==> x in xs
    ensures Unique(xs) ==> Unique(Sort(le, xs))
  {
    var r := Sort(le, xs);
    assert |multiset(r)| == |multiset(xs)|;
    forall x ensures x in r <==> x in xs {
      assert x in r <==> x in multiset(r);
      assert x in xs <==> x in multiset(xs);
    }
    if Unique(xs) {
      UniqueCounts(xs);
      CountsUnique(r);
    }
  }

  lemma {:induction false} CountsUnique<T(!new)>(xs: seq<T>)
    requires forall x :: multiset(xs)[x] <= 1
    ensures Unique(xs)
  {
    if xs != [] {
      assert xs == [xs[0]] + xs[1..];
      assert multiset(xs) == multiset{xs[0]} + multiset(xs[1..]);
      forall x ensures multiset(xs[1..])[x] <= 1 && multiset(xs[1..])[xs[0]] == 0 {
        assert multiset(xs)[x] == multiset{xs[0]}[x] + multiset(xs[1..])[x];
        assert multiset(xs)[xs[0]] == 1 + multiset(xs[1..])[xs[0]];
      }
      CountsUnique(xs[1..]);
      forall j | 0 < j < |xs| ensures xs[0] != xs[j] {
        assert xs[1..][j - 1] in multiset(xs[1..]);
      }
    }
  }

  lemma {:induction false} UniqueCounts<T(!new)>(xs: seq<T>)
    requires Unique(xs)
    ensures forall x :: multiset(xs)[x] <= 1
  {
    if xs != [] {
      UniqueCounts(xs[1..]);
      assert xs == [xs[0]] + xs[1..];
    }
  }

  function ToSet<T(==)>(xs: seq<T>): (r: set<T>) {
    set x | x in xs
  }
}
