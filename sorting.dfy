/** The `order_by(...)[:n]` of the back end's list endpoints: a stable sort in
    descending order of a lexicographic key, then a prefix. Django leaves the
    order of rows with equal keys to the database; the model keeps input order. */
module Sorting {
  import opened Common

  /** A sort key of up to three descending components (unused ones are 0). */
  datatype Rank = Rank(primary: real, secondary: real, tertiary: real)

  /** `a` sorts no later than `b` under `order_by('-primary', '-secondary', '-tertiary')`. */
  predicate AtLeast(a: Rank, b: Rank) {
    || a.primary > b.primary
    || (a.primary == b.primary && a.secondary > b.secondary)
    || (a.primary == b.primary && a.secondary == b.secondary && a.tertiary >= b.tertiary)
  }

  lemma AtLeastTotal(a: Rank, b: Rank)
    ensures AtLeast(a, b) || AtLeast(b, a)
  {
  }

  lemma AtLeastTransitive(a: Rank, b: Rank, c: Rank)
    requires AtLeast(a, b) && AtLeast(b, c)
    ensures AtLeast(a, c)
  {
  }

  ghost predicate SortedDesc<T>(s: seq<T>, key: T -> Rank) {
    forall i, j :: 0 <= i < j < |s| ==> AtLeast(key(s[i]), key(s[j]))
  }

  /** Inserts `x` in front of the first element it does not rank below. */
  function Insert<T>(x: T, s: seq<T>, key: T -> Rank): (r: seq<T>)
    requires SortedDesc(s, key)
    ensures |r| == |s| + 1
    ensures multiset(r) == multiset(s) + multiset{x}
    ensures SortedDesc(r, key)
  {
    if s == [] || AtLeast(key(x), key(s[0])) then
      AboveHeadAboveAll(x, s, key);
      ConsSorted(x, s, key);
      [x] + s
    else
      SortedTail(s, key);
      var rest := Insert(x, s[1..], key);
      HeadAboveInsert(x, s, rest, key);
      ConsSorted(s[0], rest, key);
      assert s == [s[0]] + s[1..];
      [s[0]] + rest
  }

  /** The tail of a sorted sequence is sorted. */
  lemma SortedTail<T>(s: seq<T>, key: T -> Rank)
    requires s != [] && SortedDesc(s, key)
    ensures SortedDesc(s[1..], key)
  {
    forall i, j | 0 <= i < j < |s[1..]| ensures AtLeast(key(s[1..][i]), key(s[1..][j])) {
      assert s[1..][i] == s[i + 1] && s[1..][j] == s[j + 1];
    }
  }

  /** What ranks at least the head of a sorted sequence ranks at least all of it. */
  lemma AboveHeadAboveAll<T>(x: T, s: seq<T>, key: T -> Rank)
    requires SortedDesc(s, key) && (s == [] || AtLeast(key(x), key(s[0])))
    ensures forall j :: 0 <= j < |s| ==> AtLeast(key(x), key(s[j]))
  {
    forall j | 0 < j < |s| ensures AtLeast(key(x), key(s[j])) {
      AtLeastTransitive(key(x), key(s[0]), key(s[j]));
    }
  }

  /** Putting in front of a sorted sequence an element that ranks at least its
      head keeps it sorted. */
  lemma ConsSorted<T>(y: T, s: seq<T>, key: T -> Rank)
    requires SortedDesc(s, key)
    requires forall j :: 0 <= j < |s| ==> AtLeast(key(y), key(s[j]))
    ensures SortedDesc([y] + s, key)
  {
    var r := [y] + s;
    forall i, j | 0 <= i < j < |r| ensures AtLeast(key(r[i]), key(r[j])) {
      assert r[j] == s[j - 1];
      if i > 0 {
        assert r[i] == s[i - 1];
      }
    }
  }

  /** When `x` ranks below the head, the head still ranks at least everything
      in the tail with `x` inserted. */
  lemma HeadAboveInsert<T>(x: T, s: seq<T>, rest: seq<T>, key: T -> Rank)
    requires s != [] && SortedDesc(s, key) && !AtLeast(key(x), key(s[0]))
    requires multiset(rest) == multiset(s[1..]) + multiset{x}
    ensures forall j :: 0 <= j < |rest| ==> AtLeast(key(s[0]), key(rest[j]))
  {
    forall j | 0 <= j < |rest| ensures AtLeast(key(s[0]), key(rest[j])) {
      assert rest[j] in multiset(rest);
      if rest[j] == x {
        AtLeastTotal(key(x), key(s[0]));
      } else {
        assert rest[j] in multiset(s[1..]);
        var k :| 0 <= k < |s[1..]| && s[1..][k] == rest[j];
        assert s[k + 1] == rest[j];
      }
    }
  }

  /** Stable insertion sort, descending by `key`. */
  function SortDesc<T>(s: seq<T>, key: T -> Rank): (r: seq<T>)
    ensures |r| == |s|
    ensures multiset(r) == multiset(s)
    ensures SortedDesc(r, key)
  {
    if s == [] then []
    else
      assert s == [s[0]] + s[1..];
      Insert(s[0], SortDesc(s[1..], key), key)
  }

  /** `order_by(...)[:n]`: the first `n` rows of the sorted input. */
  function TopN<T>(s: seq<T>, key: T -> Rank, n: nat): seq<T>
  {
    var sorted := SortDesc(s, key);
    if |sorted| <= n then sorted else sorted[..n]
  }

  /** The result of `TopN` is a sorted selection of at most `n` input rows, and no
      row that was left out ranks strictly above a row that was kept. */
  lemma TopNSpec<T>(s: seq<T>, key: T -> Rank, n: nat)
    ensures var r := TopN(s, key, n);
      && |r| == (if |s| <= n then |s| else n)
      && SortedDesc(r, key)
      && multiset(r) <= multiset(s)
      && forall i, x :: 0 <= i < |r| && x in multiset(s) - multiset(r) ==> AtLeast(key(r[i]), key(x))
  {
    var sorted := SortDesc(s, key);
    var r := TopN(s, key, n);
    if |sorted| > n {
      assert sorted == sorted[..n] + sorted[n..];
      assert multiset(sorted) == multiset(sorted[..n]) + multiset(sorted[n..]);
      forall i, x | 0 <= i < |r| && x in multiset(s) - multiset(r)
        ensures AtLeast(key(r[i]), key(x))
      {
        assert x in multiset(sorted[n..]);
        var k :| 0 <= k < |sorted[n..]| && sorted[n..][k] == x;
        assert sorted[n + k] == x;
        assert r[i] == sorted[i];
      }
    }
  }

  /** Every row of the result is a row of the input. */
  lemma TopNMembers<T>(s: seq<T>, key: T -> Rank, n: nat, x: T)
    requires x in TopN(s, key, n)
    ensures x in s
  {
    TopNSpec(s, key, n);
    assert x in multiset(TopN(s, key, n));
  }

  /** `filter(...).order_by(...)`: the rows of `s` satisfying `keep`, sorted by `key`. */
  function SelectSorted<T(!new)>(s: seq<T>, keep: T -> bool, key: T -> Rank): (r: seq<T>)
    ensures SortedDesc(r, key)
    ensures forall x :: x in r <==> x in s && keep(x)
    ensures multiset(r) == multiset(Filter(s, keep))
  {
    var f := Filter(s, keep);
    var r := SortDesc(f, key);
    forall x ensures x in r <==> x in s && keep(x) {
      FilterMembership(s, keep, x);
      assert x in r <==> x in multiset(r);
      assert x in f <==> x in multiset(f);
    }
    r
  }
}
