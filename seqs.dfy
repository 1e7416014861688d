/**
 * The two array operations the pages build their lists with: `Array.prototype.filter`
 * and a stable `Array.prototype.sort` under a comparator, as functions on sequences.
 */
module Seqs {

  /** `a` is `b` with some elements dropped, the others kept in their order. */
  ghost predicate IsSubsequence<T>(a: seq<T>, b: seq<T>)
    decreases |b|
  {
    a == [] || (b != [] && ((a[0] == b[0] && IsSubsequence(a[1..], b[1..])) || IsSubsequence(a, b[1..])))
  }

  /** No element occurs twice. */
  ghost predicate NoDup<T>(s: seq<T>) {
    forall i, j :: 0 <= i < j < |s| ==> s[i] != s[j]
  }

  /**
   * `s.filter(p)`: the elements satisfying `p`, in their order, each as often as in `s`.
   */
  function Filter<T(!new)>(s: seq<T>, p: T -> bool): (r: seq<T>)
    ensures IsSubsequence(r, s)
    ensures forall x :: x in r <==> x in s && p(x)
    ensures |r| <= |s|
  {
    if s == [] then []
    else
      var rest := Filter(s[1..], p);
      if p(s[0]) then
        assert ([s[0]] + rest)[1..] == rest;
        [s[0]] + rest
      else rest
  }

  /** The filter keeps each passing element exactly as often as it occurs and drops every failing one. */
  lemma {:induction false} FilterMultiset<T(!new)>(s: seq<T>, p: T -> bool)
    ensures forall x :: multiset(Filter(s, p))[x] == if p(x) then multiset(s)[x] else 0
    decreases |s|
  {
    if s != [] {
      FilterMultiset(s[1..], p);
      var rest := Filter(s[1..], p);
      assert s == [s[0]] + s[1..];
      assert multiset(s) == multiset{s[0]} + multiset(s[1..]);
      if p(s[0]) {
        assert Filter(s, p) == [s[0]] + rest;
        assert multiset(Filter(s, p)) == multiset{s[0]} + multiset(rest);
      } else {
        assert Filter(s, p) == rest;
      }
    }
  }

  /** The filter shortens the list exactly when some element fails. */
  lemma {:induction false} FilterShortens<T(!new)>(s: seq<T>, p: T -> bool)
    ensures |Filter(s, p)| < |s| <==> exists x :: x in s && !p(x)
    decreases |s|
  {
    if s != [] {
      FilterShortens(s[1..], p);
      var rest := Filter(s[1..], p);
      assert s == [s[0]] + s[1..];
      if p(s[0]) {
        assert Filter(s, p) == [s[0]] + rest;
        assert forall x :: x in s && !p(x) <==> x in s[1..] && !p(x);
      } else {
        assert Filter(s, p) == rest;
        assert s[0] in s;
      }
    }
  }

  /** Filtering distributes over concatenation. */
  lemma {:induction false} FilterAppend<T(!new)>(s: seq<T>, t: seq<T>, p: T -> bool)
    ensures Filter(s + t, p) == Filter(s, p) + Filter(t, p)
    decreases |s|
  {
    if s != [] {
      assert (s + t)[0] == s[0] && (s + t)[1..] == s[1..] + t;
      FilterAppend(s[1..], t, p);
      var rest := Filter(s[1..], p);
      if p(s[0]) {
        assert Filter(s + t, p) == [s[0]] + (rest + Filter(t, p));
        assert Filter(s, p) == [s[0]] + rest;
        assert [s[0]] + (rest + Filter(t, p)) == ([s[0]] + rest) + Filter(t, p);
      } else {
        assert Filter(s + t, p) == rest + Filter(t, p);
        assert Filter(s, p) == rest;
      }
    } else {
      assert s + t == t;
    }
  }

  /** A filter that every element passes gives back the sequence itself. */
  lemma {:induction false} FilterKeepsAll<T(!new)>(s: seq<T>, p: T -> bool)
    requires forall x :: x in s ==> p(x)
    ensures Filter(s, p) == s
    decreases |s|
  {
    if s != [] {
      FilterKeepsAll(s[1..], p);
      assert s == [s[0]] + s[1..];
    }
  }

  /** A sequence without duplicates keeps that property through a filter. */
  lemma {:induction false} FilterNoDup<T(!new)>(s: seq<T>, p: T -> bool)
    requires NoDup(s)
    ensures NoDup(Filter(s, p))
    decreases |s|
  {
    if s != [] {
      var rest := Filter(s[1..], p);
      assert NoDup(s[1..]) by {
        forall i, j | 0 <= i < j < |s[1..]| ensures s[1..][i] != s[1..][j] {
          assert s[1..][i] == s[i + 1] && s[1..][j] == s[j + 1];
        }
      }
      FilterNoDup(s[1..], p);
      if p(s[0]) {
        assert s[0] !in s[1..] by {
          forall k | 0 <= k < |s[1..]| ensures s[1..][k] != s[0] {
            assert s[1..][k] == s[k + 1];
          }
        }
        FilterMultiset(s[1..], p);
        assert multiset(rest)[s[0]] == 0;
        var r := [s[0]] + rest;
        forall i, j | 0 <= i < j < |r| ensures r[i] != r[j] {
          if i == 0 {
            assert r[j] == rest[j - 1];
          } else {
            assert r[i] == rest[i - 1] && r[j] == rest[j - 1];
          }
        }
      }
    }
  }

  /** Filters by predicates that agree on the elements give the same list. */
  lemma {:induction false} FilterCongruent<T(!new)>(s: seq<T>, p: T -> bool, q: T -> bool)
    requires forall x :: x in s ==> p(x) == q(x)
    ensures Filter(s, p) == Filter(s, q)
    decreases |s|
  {
    if s != [] {
      FilterCongruent(s[1..], p, q);
    }
  }

  /** Two successive filters are one filter by the conjunction, so the pipeline order is immaterial. */
  lemma {:induction false} FilterFuse<T(!new)>(s: seq<T>, p: T -> bool, q: T -> bool, pq: T -> bool)
    requires forall x :: pq(x) == (p(x) && q(x))
    ensures Filter(Filter(s, p), q) == Filter(s, pq)
    decreases |s|
  {
    if s != [] {
      FilterFuse(s[1..], p, q, pq);
      var rest := Filter(s[1..], p);
      if p(s[0]) {
        assert ([s[0]] + rest)[1..] == rest;
      }
    }
  }

  /** The comparator orders `a` no later than `b` (`compare(a, b) <= 0`). */
  predicate NotAfter<T>(compare: (T, T) -> int, a: T, b: T) {
    compare(a, b) <= 0
  }

  /** The comparator orders every pair one way or the other. */
  ghost predicate Total<T(!new)>(compare: (T, T) -> int) {
    forall a, b :: NotAfter(compare, a, b) || NotAfter(compare, b, a)
  }

  /** The ordering chains: no later than no later than is no later than. */
  ghost predicate Transitive<T(!new)>(compare: (T, T) -> int) {
    forall a, b, c :: NotAfter(compare, a, b) && NotAfter(compare, b, c) ==> NotAfter(compare, a, c)
  }

  /** The comparator is a total preorder. */
  ghost predicate TotalPreorder<T(!new)>(compare: (T, T) -> int) {
    Total(compare) && Transitive(compare)
  }

  /** Every element is ordered no later than every element that follows it. */
  ghost predicate SortedBy<T>(compare: (T, T) -> int, s: seq<T>) {
    forall i, j :: 0 <= i < j < |s| ==> NotAfter(compare, s[i], s[j])
  }

  /** Insert `x` before the first element it is not after, so elements equal to `x` stay behind it. */
  function Insert<T>(compare: (T, T) -> int, x: T, s: seq<T>): (r: seq<T>)
    ensures multiset(r) == multiset(s) + multiset{x}
    ensures |r| == |s| + 1
  {
    if s == [] then [x]
    else if NotAfter(compare, x, s[0]) then [x] + s
    else
      assert s == [s[0]] + s[1..];
      [s[0]] + Insert(compare, x, s[1..])
  }

  /**
   * `[...s].sort(compare)` as a stable insertion sort: elements the comparator ties keep
   * their input order (`SortKeepsTiedOrder`), and under a total preorder the result is
   * sorted (`SortSorted`).
   */
  function Sort<T>(compare: (T, T) -> int, s: seq<T>): (r: seq<T>)
    ensures multiset(r) == multiset(s)
    ensures |r| == |s|
  {
    if s == [] then []
    else
      assert s == [s[0]] + s[1..];
      Insert(compare, s[0], Sort(compare, s[1..]))
  }

  /** The inserted list holds the new element and the old ones, and nothing else. */
  lemma InsertMembers<T>(compare: (T, T) -> int, x: T, s: seq<T>, y: T)
    ensures y in Insert(compare, x, s) <==> y == x || y in s
  {
    assert y in Insert(compare, x, s) <==> y in multiset(Insert(compare, x, s));
    assert y in s <==> y in multiset(s);
  }

  /** No element of `s` is ordered before `y`. */
  ghost predicate NoneBefore<T>(compare: (T, T) -> int, y: T, s: seq<T>) {
    forall k :: 0 <= k < |s| ==> NotAfter(compare, y, s[k])
  }

  /** Inserting an element no earlier than `y` keeps every element no earlier than `y`. */
  lemma InsertKeepsNoneBefore<T>(compare: (T, T) -> int, y: T, x: T, s: seq<T>)
    requires NotAfter(compare, y, x) && NoneBefore(compare, y, s)
    ensures NoneBefore(compare, y, Insert(compare, x, s))
  {
    var ins := Insert(compare, x, s);
    forall j | 0 <= j < |ins| ensures NotAfter(compare, y, ins[j]) {
      InsertMembers(compare, x, s, ins[j]);
      if ins[j] != x {
        var k :| 0 <= k < |s| && s[k] == ins[j];
      }
    }
  }

  /** Putting an element no later than all of a sorted list in front of it keeps it sorted. */
  lemma PrependSorted<T>(compare: (T, T) -> int, y: T, s: seq<T>)
    requires NoneBefore(compare, y, s) && SortedBy(compare, s)
    ensures SortedBy(compare, [y] + s)
  {
    var r := [y] + s;
    forall i, j | 0 <= i < j < |r| ensures NotAfter(compare, r[i], r[j]) {
      assert r[j] == s[j - 1];
      if i > 0 {
        assert r[i] == s[i - 1];
      }
    }
  }

  /** Inserting into a list sorted by a total preorder keeps it sorted. */
  lemma {:induction false} InsertSorted<T(!new)>(compare: (T, T) -> int, x: T, s: seq<T>)
    requires TotalPreorder(compare)
    requires SortedBy(compare, s)
    ensures SortedBy(compare, Insert(compare, x, s))
    decreases |s|
  {
    if s == [] {
    } else if NotAfter(compare, x, s[0]) {
      assert NoneBefore(compare, x, s) by {
        forall k | 0 <= k < |s| ensures NotAfter(compare, x, s[k]) {
          if k > 0 {
            assert NotAfter(compare, x, s[0]) && NotAfter(compare, s[0], s[k]);
          }
        }
      }
      PrependSorted(compare, x, s);
    } else {
      var tail := s[1..];
      assert SortedBy(compare, tail) by {
        forall i, j | 0 <= i < j < |tail| ensures NotAfter(compare, tail[i], tail[j]) {
          assert tail[i] == s[i + 1] && tail[j] == s[j + 1];
        }
      }
      assert NoneBefore(compare, s[0], tail) by {
        forall k | 0 <= k < |tail| ensures NotAfter(compare, s[0], tail[k]) {
          assert tail[k] == s[k + 1];
        }
      }
      InsertSorted(compare, x, tail);
      assert NotAfter(compare, s[0], x);
      InsertKeepsNoneBefore(compare, s[0], x, tail);
      PrependSorted(compare, s[0], Insert(compare, x, tail));
    }
  }

  /** Under a total preorder the sorted list is ordered by the comparator. */
  lemma {:induction false} SortSorted<T(!new)>(compare: (T, T) -> int, s: seq<T>)
    requires TotalPreorder(compare)
    ensures SortedBy(compare, Sort(compare, s))
    decreases |s|
  {
    if s != [] {
      SortSorted(compare, s[1..]);
      InsertSorted(compare, s[0], Sort(compare, s[1..]));
    }
  }

  /** A comparator that calls every pair equal (`return 0`) leaves the order untouched: the sort is stable. */
  lemma {:induction false} SortStable<T>(compare: (T, T) -> int, s: seq<T>)
    requires forall a, b :: compare(a, b) == 0
    ensures Sort(compare, s) == s
    decreases |s|
  {
    if s != [] {
      SortStable(compare, s[1..]);
      assert s == [s[0]] + s[1..];
    }
  }

  /** `y` is tied with `k`: the comparator places neither before the other. */
  predicate Tied<T>(compare: (T, T) -> int, k: T, y: T) {
    compare(y, k) == 0 && compare(k, y) == 0
  }

  /** The elements tied with `k`, as a filter predicate. */
  function TieClass<T>(compare: (T, T) -> int, k: T): T -> bool {
    y => Tied(compare, k, y)
  }

  /** Inserting an element that `p` rejects leaves the `p`-elements as they were. */
  lemma {:induction false} InsertPassesOthers<T(!new)>(compare: (T, T) -> int, x: T, s: seq<T>, p: T -> bool)
    requires !p(x)
    ensures Filter(Insert(compare, x, s), p) == Filter(s, p)
    decreases |s|
  {
    if s != [] && !NotAfter(compare, x, s[0]) {
      InsertPassesOthers(compare, x, s[1..], p);
      assert ([s[0]] + Insert(compare, x, s[1..]))[1..] == Insert(compare, x, s[1..]);
    }
  }

  /** An element no later than every `p`-element of the list lands before all of them. */
  lemma {:induction false} InsertBeforeTied<T(!new)>(compare: (T, T) -> int, x: T, s: seq<T>, p: T -> bool)
    requires p(x)
    requires forall y :: y in s && p(y) ==> NotAfter(compare, x, y)
    ensures Filter(Insert(compare, x, s), p) == [x] + Filter(s, p)
    decreases |s|
  {
    if s == [] {
    } else if NotAfter(compare, x, s[0]) {
      assert ([x] + s)[1..] == s;
    } else {
      InsertBeforeTied(compare, x, s[1..], p);
      assert ([s[0]] + Insert(compare, x, s[1..]))[1..] == Insert(compare, x, s[1..]);
    }
  }

  /** The ordering chains among the elements of `s`, whatever it does elsewhere. */
  ghost predicate TransitiveOn<T>(compare: (T, T) -> int, s: seq<T>) {
    forall a, b, c :: a in s && b in s && c in s && NotAfter(compare, a, b) && NotAfter(compare, b, c)
      ==> NotAfter(compare, a, c)
  }

  /**
   * Stability: the elements tied with any `k` appear in the sorted list in their input order.
   * The comparator need only chain among `k` and the list's own elements.
   */
  lemma {:induction false} SortKeepsTiedOrder<T(!new)>(compare: (T, T) -> int, s: seq<T>, k: T)
    requires TransitiveOn(compare, [k] + s)
    ensures Filter(Sort(compare, s), TieClass(compare, k)) == Filter(s, TieClass(compare, k))
    decreases |s|
  {
    if s != [] {
      var p := TieClass(compare, k);
      var x := s[0];
      var t := Sort(compare, s[1..]);
      assert forall a :: a in [k] + s[1..] ==> a in [k] + s;
      SortKeepsTiedOrder(compare, s[1..], k);
      if p(x) {
        forall y | y in t && p(y) ensures NotAfter(compare, x, y) {
          assert y in multiset(t);
          assert y in s[1..];
          assert x in [k] + s && k in [k] + s && y in [k] + s;
          assert NotAfter(compare, x, k) && NotAfter(compare, k, y);
        }
        InsertBeforeTied(compare, x, t, p);
      } else {
        InsertPassesOthers(compare, x, t, p);
      }
    }
  }

  /** Insertion consults the comparator only on the new element against the list's elements. */
  lemma {:induction false} InsertCongruent<T>(c1: (T, T) -> int, c2: (T, T) -> int, x: T, s: seq<T>)
    requires forall b :: b in s ==> c1(x, b) == c2(x, b)
    ensures Insert(c1, x, s) == Insert(c2, x, s)
    decreases |s|
  {
    if s != [] {
      assert s[0] in s;
      InsertCongruent(c1, c2, x, s[1..]);
    }
  }

  /** The sorted list depends only on the comparator's values on the list's own elements. */
  lemma {:induction false} SortCongruent<T>(c1: (T, T) -> int, c2: (T, T) -> int, s: seq<T>)
    requires forall a, b :: a in s && b in s ==> c1(a, b) == c2(a, b)
    ensures Sort(c1, s) == Sort(c2, s)
    decreases |s|
  {
    if s != [] {
      SortCongruent(c1, c2, s[1..]);
      var t := Sort(c1, s[1..]);
      forall b | b in t ensures c1(s[0], b) == c2(s[0], b) {
        assert b in multiset(t);
        assert b in multiset(s[1..]);
      }
      InsertCongruent(c1, c2, s[0], t);
    }
  }
}
