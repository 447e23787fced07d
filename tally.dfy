/**
 * The Python collection behaviour the statistics rely on: a dict of counts built by
 * `d[k] = d.get(k, 0) + 1` (equivalently `Counter(xs)`), which keeps keys in first-appearance
 * order, and the stable descending sort of `sorted(…, reverse=True)`, `list.sort(reverse=True)`
 * and `Counter.most_common()`.  Ordered dicts are sequences of key/value pairs.
 */
module Tally {
  import opened Wrappers

  // ---------------------------------------------------------------------------------------
  // Counting

  function Keys<K, V>(c: seq<(K, V)>): (r: seq<K>)
    ensures |r| == |c| && forall i :: 0 <= i < |c| ==> r[i] == c[i].0
  {
    if c == [] then [] else [c[0].0] + Keys(c[1..])
  }

  function SumCounts<K>(c: seq<(K, nat)>): nat {
    if c == [] then 0 else c[0].1 + SumCounts(c[1..])
  }

  /** The position of the first `k` in `xs`, or `|xs|` when there is none. */
  function IndexOf<K(==,!new)>(xs: seq<K>, k: K): (r: nat)
    ensures r <= |xs| && (r < |xs| <==> k in xs)
    ensures r < |xs| ==> xs[r] == k
  {
    if xs == [] then 0 else if xs[0] == k then 0 else 1 + IndexOf(xs[1..], k)
  }

  /** The keys of `c` are in strictly increasing order of first appearance in `xs`, hence distinct. */
  predicate FirstAppearanceOrder<K(==,!new)>(c: seq<(K, nat)>, xs: seq<K>) {
    forall i, j :: 0 <= i < j < |c| ==> IndexOf(xs, c[i].0) < IndexOf(xs, c[j].0)
  }

  /** `d[k] = d.get(k, 0) + 1` on an ordered dict: an existing key is bumped in place, a new one appended. */
  function Bump<K(==,!new)>(c: seq<(K, nat)>, k: K): (r: seq<(K, nat)>)
    ensures k in Keys(c) ==> Keys(r) == Keys(c)
    ensures k !in Keys(c) ==> Keys(r) == Keys(c) + [k] && r[|c|].1 == 1
    ensures SumCounts(r) == SumCounts(c) + 1
    decreases |c|
  {
    if c == [] then [(k, 1)]
    else if c[0].0 == k then
      var r := [(k, c[0].1 + 1)] + c[1..];
      assert r[1..] == c[1..] && Keys(r) == [k] + Keys(c[1..]);
      r
    else
      var rest := Bump(c[1..], k);
      var r := [c[0]] + rest;
      assert r[1..] == rest && Keys(r) == [c[0].0] + Keys(rest);
      assert Keys(c) == [c[0].0] + Keys(c[1..]);
      r
  }

  /** Bumping `k` adds one to `k`'s count and leaves every other count alone. */
  lemma {:induction false} BumpCounts<K(!new)>(c: seq<(K, nat)>, k: K, i: nat)
    requires i < |c|
    requires forall a, b :: 0 <= a < b < |c| ==> c[a].0 != c[b].0
    ensures Bump(c, k)[i].1 == c[i].1 + (if c[i].0 == k then 1 else 0)
    decreases |c|
  {
    if c[0].0 != k && i > 0 {
      BumpCounts(c[1..], k, i - 1);
    }
  }

  /**
   * `Counter(xs)`, or the loop `d[x] = d.get(x, 0) + 1` over `xs`: the counts sum to `|xs|`;
   * `CountAllFacts` gives the rest.
   */
  function CountAll<K(==,!new)>(xs: seq<K>): (r: seq<(K, nat)>)
    ensures SumCounts(r) == |xs|
    decreases |xs|
  {
    if xs == [] then [] else Bump(CountAll(xs[..|xs| - 1]), xs[|xs| - 1])
  }

  lemma {:induction false} IndexOfPrefix<K(!new)>(p: seq<K>, x: K, k: K)
    ensures k in p ==> IndexOf(p + [x], k) == IndexOf(p, k)
    ensures k !in p && k == x ==> IndexOf(p + [x], k) == |p|
    decreases |p|
  {
    if p != [] {
      assert (p + [x])[1..] == p[1..] + [x];
      IndexOfPrefix(p[1..], x, k);
    }
  }

  /** The facts about a tally of `p` that a tally of `p + [x]` inherits. */
  ghost predicate Tallies<K(!new)>(c: seq<(K, nat)>, xs: seq<K>) {
    && (forall k :: k in Keys(c) <==> k in xs)
    && FirstAppearanceOrder(c, xs)
    && (forall i :: 0 <= i < |c| ==> c[i].1 == multiset(xs)[c[i].0])
  }

  lemma BumpKeys<K(!new)>(c: seq<(K, nat)>, p: seq<K>, x: K)
    requires forall k :: k in Keys(c) <==> k in p
    ensures forall k :: k in Keys(Bump(c, x)) <==> k in p + [x]
  {
  }

  lemma BumpOrder<K(!new)>(c: seq<(K, nat)>, p: seq<K>, x: K)
    requires (forall k :: k in Keys(c) <==> k in p) && FirstAppearanceOrder(c, p)
    ensures FirstAppearanceOrder(Bump(c, x), p + [x])
  {
    var r := Bump(c, x);
    forall i, j | 0 <= i < j < |r| ensures IndexOf(p + [x], r[i].0) < IndexOf(p + [x], r[j].0) {
      assert Keys(r)[i] == r[i].0 && Keys(r)[j] == r[j].0;
      assert r[i].0 == c[i].0 && c[i].0 in Keys(c);
      IndexOfPrefix(p, x, r[i].0);
      IndexOfPrefix(p, x, r[j].0);
      if j < |c| {
        assert r[j].0 == c[j].0 && c[j].0 in Keys(c);
      }
    }
  }

  lemma BumpTally<K(!new)>(c: seq<(K, nat)>, p: seq<K>, x: K)
    requires Tallies(c, p)
    ensures forall i :: 0 <= i < |Bump(c, x)| ==> Bump(c, x)[i].1 == multiset(p + [x])[Bump(c, x)[i].0]
  {
    var r := Bump(c, x);
    forall i | 0 <= i < |r| ensures r[i].1 == multiset(p + [x])[r[i].0] {
      assert Keys(r)[i] == r[i].0;
      if i < |c| {
        assert forall a, b :: 0 <= a < b < |c| ==> c[a].0 != c[b].0;
        BumpCounts(c, x, i);
        assert r[i].0 == c[i].0;
      } else {
        assert r[i].0 == x && x !in Keys(c);
      }
    }
  }

  /**
   * A tally holds one entry per distinct value of `xs`, keys in first-appearance order, each
   * holding the number of times its value occurs.
   */
  lemma {:induction false} CountAllFacts<K(!new)>(xs: seq<K>)
    ensures Tallies(CountAll(xs), xs)
    decreases |xs|
  {
    if xs != [] {
      var p := xs[..|xs| - 1];
      var x := xs[|xs| - 1];
      assert xs == p + [x];
      CountAllFacts(p);
      BumpKeys(CountAll(p), p, x);
      BumpOrder(CountAll(p), p, x);
      BumpTally(CountAll(p), p, x);
    }
  }

  // ---------------------------------------------------------------------------------------
  // Stable descending sort

  predicate NonIncreasing<T>(s: seq<T>, key: T -> int) {
    forall i, j :: 0 <= i < j < |s| ==> key(s[i]) >= key(s[j])
  }

  /** Elements of equal key appear in increasing `rank`: the order of a stable sort of a ranked input. */
  predicate TiesRanked<T>(s: seq<T>, key: T -> int, rank: T -> int) {
    forall i, j :: 0 <= i < j < |s| && key(s[i]) == key(s[j]) ==> rank(s[i]) < rank(s[j])
  }

  /** Inserts `x` after every element whose key is at least `x`'s. */
  function InsertDesc<T>(s: seq<T>, x: T, key: T -> int): (r: seq<T>)
    ensures multiset(r) == multiset(s) + multiset{x} && |r| == |s| + 1
    decreases |s|
  {
    if s == [] then [x]
    else if key(s[0]) >= key(x) then
      assert s == [s[0]] + s[1..];
      [s[0]] + InsertDesc(s[1..], x, key)
    else [x] + s
  }

  /** `sorted(s, key=key, reverse=True)`: a stable sort by descending key; a permutation of `s`. */
  function SortDesc<T>(s: seq<T>, key: T -> int): (r: seq<T>)
    ensures multiset(r) == multiset(s) && |r| == |s|
    decreases |s|
  {
    if s == [] then []
    else
      assert s == s[..|s| - 1] + [s[|s| - 1]];
      InsertDesc(SortDesc(s[..|s| - 1], key), s[|s| - 1], key)
  }

  lemma {:induction false} InsertDescMember<T>(s: seq<T>, x: T, key: T -> int, y: T)
    ensures y in InsertDesc(s, x, key) <==> y in s || y == x
    decreases |s|
  {
    if s != [] && key(s[0]) >= key(x) {
      InsertDescMember(s[1..], x, key, y);
      assert s == [s[0]] + s[1..];
    }
  }

  /** The head of a sorted sequence dominates every later element. */
  lemma HeadDominates<T>(s: seq<T>, key: T -> int, y: T)
    requires NonIncreasing(s, key) && |s| > 0 && y in s[1..]
    ensures key(s[0]) >= key(y)
  {
    var m :| 0 <= m < |s[1..]| && s[1..][m] == y;
    assert s[m + 1] == y;
  }

  lemma HeadRanked<T>(s: seq<T>, key: T -> int, rank: T -> int, y: T)
    requires TiesRanked(s, key, rank) && |s| > 0 && y in s[1..] && key(s[0]) == key(y)
    ensures rank(s[0]) < rank(y)
  {
    var m :| 0 <= m < |s[1..]| && s[1..][m] == y;
    assert s[m + 1] == y;
  }

  lemma ConsNonIncreasing<T>(h: T, t: seq<T>, key: T -> int)
    requires NonIncreasing(t, key) && forall y :: y in t ==> key(h) >= key(y)
    ensures NonIncreasing([h] + t, key)
  {
    var r := [h] + t;
    forall i, j | 0 <= i < j < |r| ensures key(r[i]) >= key(r[j]) {
      assert r[j] == t[j - 1];
      if i > 0 { assert r[i] == t[i - 1]; } else { assert t[j - 1] in t; }
    }
  }

  lemma ConsTiesRanked<T>(h: T, t: seq<T>, key: T -> int, rank: T -> int)
    requires TiesRanked(t, key, rank) && forall y :: y in t && key(h) == key(y) ==> rank(h) < rank(y)
    ensures TiesRanked([h] + t, key, rank)
  {
    var r := [h] + t;
    forall i, j | 0 <= i < j < |r| && key(r[i]) == key(r[j]) ensures rank(r[i]) < rank(r[j]) {
      assert r[j] == t[j - 1];
      if i > 0 { assert r[i] == t[i - 1]; } else { assert t[j - 1] in t; }
    }
  }

  lemma {:induction false} InsertDescNonIncreasing<T>(s: seq<T>, x: T, key: T -> int)
    requires NonIncreasing(s, key)
    ensures NonIncreasing(InsertDesc(s, x, key), key)
    decreases |s|
  {
    if s != [] && key(s[0]) >= key(x) {
      var rest := InsertDesc(s[1..], x, key);
      assert NonIncreasing(s[1..], key) by {
        forall i, j | 0 <= i < j < |s[1..]| ensures key(s[1..][i]) >= key(s[1..][j]) {
          assert s[1..][i] == s[i + 1] && s[1..][j] == s[j + 1];
        }
      }
      InsertDescNonIncreasing(s[1..], x, key);
      forall y | y in rest ensures key(s[0]) >= key(y) {
        InsertDescMember(s[1..], x, key, y);
        if y != x { HeadDominates(s, key, y); }
      }
      ConsNonIncreasing(s[0], rest, key);
    } else if s != [] {
      forall y | y in s ensures key(x) >= key(y) {
        var m :| 0 <= m < |s| && s[m] == y;
        assert key(s[0]) >= key(s[m]);
      }
      ConsNonIncreasing(x, s, key);
    }
  }

  lemma {:induction false} InsertDescTiesRanked<T>(s: seq<T>, x: T, key: T -> int, rank: T -> int)
    requires NonIncreasing(s, key) && TiesRanked(s, key, rank)
    requires forall y :: y in s ==> rank(y) < rank(x)
    ensures TiesRanked(InsertDesc(s, x, key), key, rank)
    decreases |s|
  {
    if s != [] && key(s[0]) >= key(x) {
      var rest := InsertDesc(s[1..], x, key);
      assert NonIncreasing(s[1..], key) && TiesRanked(s[1..], key, rank) by {
        forall i, j | 0 <= i < j < |s[1..]| ensures s[1..][i] == s[i + 1] && s[1..][j] == s[j + 1] { }
      }
      InsertDescTiesRanked(s[1..], x, key, rank);
      forall y | y in rest && key(s[0]) == key(y) ensures rank(s[0]) < rank(y) {
        InsertDescMember(s[1..], x, key, y);
        if y != x { HeadRanked(s, key, rank, y); }
      }
      ConsTiesRanked(s[0], rest, key, rank);
    } else if s != [] {
      forall y | y in s ensures key(x) > key(y) {
        var m :| 0 <= m < |s| && s[m] == y;
        assert key(s[0]) >= key(s[m]);
      }
      ConsTiesRanked(x, s, key, rank);
    }
  }

  /** Where `InsertDesc` puts `x`: after the leading elements whose key is at least `x`'s. */
  function InsertPos<T>(s: seq<T>, x: T, key: T -> int): (k: nat)
    ensures k <= |s|
    ensures forall i :: 0 <= i < k ==> key(s[i]) >= key(x)
    ensures k < |s| ==> key(s[k]) < key(x)
    decreases |s|
  {
    if s == [] || key(s[0]) < key(x) then 0 else 1 + InsertPos(s[1..], x, key)
  }

  /** Inserting splits the sequence at `InsertPos` and puts `x` in between. */
  lemma {:induction false} InsertDescAt<T>(s: seq<T>, x: T, key: T -> int)
    ensures InsertDesc(s, x, key) == s[..InsertPos(s, x, key)] + [x] + s[InsertPos(s, x, key)..]
    decreases |s|
  {
    if s != [] && key(s[0]) >= key(x) {
      var t := s[1..];
      InsertDescAt(t, x, key);
      SplitCons(s, x, InsertPos(t, x, key));
    } else {
      assert s[..0] == [] && s[0..] == s;
    }
  }

  lemma SplitCons<T>(s: seq<T>, x: T, k: nat)
    requires k < |s|
    ensures [s[0]] + (s[1..][..k] + [x] + s[1..][k..]) == s[..k + 1] + [x] + s[k + 1..]
  {
    assert s[..k + 1] == [s[0]] + s[1..][..k];
    assert s[k + 1..] == s[1..][k..];
  }

  /** The sort's result is non-increasing by key. */
  lemma {:induction false} SortDescNonIncreasing<T>(s: seq<T>, key: T -> int)
    ensures NonIncreasing(SortDesc(s, key), key)
    decreases |s|
  {
    if s != [] {
      SortDescNonIncreasing(s[..|s| - 1], key);
      InsertDescNonIncreasing(SortDesc(s[..|s| - 1], key), s[|s| - 1], key);
    }
  }

  /** When the input is strictly increasing in `rank`, the sort keeps ties in input order. */
  lemma {:induction false} SortDescStable<T>(s: seq<T>, key: T -> int, rank: T -> int)
    requires forall i, j :: 0 <= i < j < |s| ==> rank(s[i]) < rank(s[j])
    ensures TiesRanked(SortDesc(s, key), key, rank)
    decreases |s|
  {
    if s != [] {
      var p := s[..|s| - 1];
      var x := s[|s| - 1];
      SortDescStable(p, key, rank);
      SortDescNonIncreasing(p, key);
      forall y | y in SortDesc(p, key) ensures rank(y) < rank(x) {
        assert y in multiset(SortDesc(p, key));
        var m :| 0 <= m < |p| && p[m] == y;
        assert s[m] == y;
      }
      InsertDescTiesRanked(SortDesc(p, key), x, key, rank);
    }
  }

  // ---------------------------------------------------------------------------------------
  // Counter.most_common()

  /** `dict(Counter(xs).most_common())`. */
  function MostCommon<K(==,!new)>(xs: seq<K>): seq<(K, nat)> {
    SortDesc(CountAll(xs), (e: (K, nat)) => e.1)
  }

  lemma {:induction false} SumCountsSplit<K>(a: seq<(K, nat)>, b: seq<(K, nat)>)
    ensures SumCounts(a + b) == SumCounts(a) + SumCounts(b)
    decreases |a|
  {
    if a != [] {
      assert (a + b)[1..] == a[1..] + b;
      SumCountsSplit(a[1..], b);
    } else {
      assert a + b == b;
    }
  }

  lemma {:induction false} SumCountsInsert<K>(s: seq<(K, nat)>, x: (K, nat), key: ((K, nat)) -> int)
    ensures SumCounts(InsertDesc(s, x, key)) == SumCounts(s) + x.1
    decreases |s|
  {
    if s != [] && key(s[0]) >= key(x) {
      SumCountsInsert(s[1..], x, key);
      assert ([s[0]] + InsertDesc(s[1..], x, key))[1..] == InsertDesc(s[1..], x, key);
    } else if s != [] {
      assert ([x] + s)[1..] == s;
    }
  }

  /** The total of a tally with one more entry. */
  lemma SumCountsSnoc<K>(s: seq<(K, nat)>)
    requires s != []
    ensures SumCounts(s) == SumCounts(s[..|s| - 1]) + s[|s| - 1].1
  {
    var p, x := s[..|s| - 1], s[|s| - 1];
    SumCountsSplit(p, [x]);
    var nil: seq<(K, nat)> := [];
    assert SumCounts([x]) == x.1 + SumCounts(nil);
    assert s == p + [x];
  }

  /** Sorting one more entry adds its count to the sorted total. */
  lemma SumCountsSortLast<K>(s: seq<(K, nat)>, key: ((K, nat)) -> int)
    requires s != []
    ensures SumCounts(SortDesc(s, key)) == SumCounts(SortDesc(s[..|s| - 1], key)) + s[|s| - 1].1
  {
    SortDescLast(s, key);
    SumCountsInsert(SortDesc(s[..|s| - 1], key), s[|s| - 1], key);
  }

  /** Sorting a tally does not change its total. */
  lemma {:induction false} SumCountsSort<K>(s: seq<(K, nat)>, key: ((K, nat)) -> int)
    ensures SumCounts(SortDesc(s, key)) == SumCounts(s)
    decreases |s|
  {
    if s != [] {
      SumCountsSort(s[..|s| - 1], key);
      SumCountsSortLast(s, key);
      SumCountsSnoc(s);
    }
  }

  /** Sorting inserts the last element into the sorted rest. */
  lemma SortDescLast<T>(s: seq<T>, key: T -> int)
    requires s != []
    ensures SortDesc(s, key) == InsertDesc(SortDesc(s[..|s| - 1], key), s[|s| - 1], key)
  {
  }

  /** Every entry of `most_common()` is an entry of the tally, and every tallied value has one. */
  lemma MostCommonEntries<K(!new)>(xs: seq<K>)
    ensures var r := MostCommon(xs);
      && (forall k :: k in Keys(r) <==> k in xs)
      && (forall i :: 0 <= i < |r| ==> r[i].1 == multiset(xs)[r[i].0])
  {
    CountAllFacts(xs);
    SortedEntriesCounted(CountAll(xs), MostCommon(xs), xs);
    SortedKeysComplete(CountAll(xs), MostCommon(xs), xs);
  }

  lemma SortedEntriesCounted<K(!new)>(c: seq<(K, nat)>, r: seq<(K, nat)>, xs: seq<K>)
    requires multiset(r) == multiset(c) && Tallies(c, xs)
    ensures forall i :: 0 <= i < |r| ==> r[i].1 == multiset(xs)[r[i].0] && r[i].0 in xs
  {
    forall i | 0 <= i < |r| ensures r[i].1 == multiset(xs)[r[i].0] && r[i].0 in xs {
      assert r[i] in multiset(c);
      var m :| 0 <= m < |c| && c[m] == r[i];
      assert Keys(c)[m] == c[m].0;
    }
  }

  lemma SortedKeysComplete<K(!new)>(c: seq<(K, nat)>, r: seq<(K, nat)>, xs: seq<K>)
    requires multiset(r) == multiset(c) && Tallies(c, xs)
    requires forall i :: 0 <= i < |r| ==> r[i].0 in xs
    ensures forall k :: k in Keys(r) <==> k in xs
  {
    forall k | k in Keys(r) ensures k in xs {
      var n :| 0 <= n < |r| && Keys(r)[n] == k;
    }
    forall k | k in xs ensures k in Keys(r) {
      assert k in Keys(c);
      var m :| 0 <= m < |c| && Keys(c)[m] == k;
      assert c[m] in multiset(r);
      var n :| 0 <= n < |r| && r[n] == c[m];
      assert Keys(r)[n] == k;
    }
  }

  /**
   * `most_common()` holds every distinct value of `xs` once with its number of occurrences,
   * by descending count, ties in first-appearance order; the counts sum to `|xs|`.
   */
  lemma MostCommonFacts<K(!new)>(xs: seq<K>)
    ensures var r := MostCommon(xs);
      && (forall k :: k in Keys(r) <==> k in xs)
      && (forall i :: 0 <= i < |r| ==> r[i].1 == multiset(xs)[r[i].0])
      && NonIncreasing(r, (e: (K, nat)) => e.1)
      && TiesRanked(r, (e: (K, nat)) => e.1, (e: (K, nat)) => IndexOf(xs, e.0))
      && SumCounts(r) == |xs|
  {
    var c := CountAll(xs);
    var count := (e: (K, nat)) => e.1;
    var rank := (e: (K, nat)) => IndexOf(xs, e.0);
    CountAllFacts(xs);
    MostCommonEntries(xs);
    SortDescNonIncreasing(c, count);
    assert forall i, j :: 0 <= i < j < |c| ==> rank(c[i]) < rank(c[j]);
    SortDescStable(c, count, rank);
    SumCountsSort(c, count);
  }

  /**
   * `r` is `Counter(xs).most_common()`: every distinct value of `xs` once with its number of
   * occurrences, by descending count, ties in first-appearance order, the counts summing to `|xs|`.
   */
  ghost predicate RankedCounts<K(!new)>(r: seq<(K, nat)>, xs: seq<K>) {
    && (forall k :: k in Keys(r) <==> k in xs)
    && DistinctKeys(r)
    && (forall i :: 0 <= i < |r| ==> r[i].1 == multiset(xs)[r[i].0])
    && NonIncreasing(r, (e: (K, nat)) => e.1)
    && TiesRanked(r, (e: (K, nat)) => e.1, (e: (K, nat)) => IndexOf(xs, e.0))
    && SumCounts(r) == |xs|
  }

  /** `most_common()` ranks the counts of `xs` as `RankedCounts` says. */
  lemma MostCommonRanked<K(!new)>(xs: seq<K>)
    ensures RankedCounts(MostCommon(xs), xs)
  {
    var r := MostCommon(xs);
    MostCommonFacts(xs);
    forall i, j | 0 <= i < j < |r| ensures r[i].0 != r[j].0 {
      var a, b := r[i], r[j];
      assert a.1 == multiset(xs)[a.0] && b.1 == multiset(xs)[b.0];
    }
  }

  /** `Counter(xs).most_common(n)`, equivalently `dict(sorted(counts.items(), …, reverse=True)[:n])`. */
  function MostCommonN<K(==,!new)>(xs: seq<K>, n: nat): (r: seq<(K, nat)>)
    ensures |r| <= n
  {
    var all := MostCommon(xs);
    if |all| <= n then all else all[..n]
  }

  /**
   * `r` is the `most_common(n)` of `xs`: at most `n` entries, each value once and counted
   * exactly, by descending count, no value left out occurring more often than any value kept,
   * every value kept when fewer than `n` are returned, and equal counts (kept, or kept and left
   * out) ranked by first appearance in `xs`.
   */
  ghost predicate TopCounts<K(!new)>(r: seq<(K, nat)>, xs: seq<K>, n: nat) {
    && |r| <= n
    && (forall i :: 0 <= i < |r| ==> r[i].0 in xs && r[i].1 == multiset(xs)[r[i].0])
    && NonIncreasing(r, (e: (K, nat)) => e.1)
    && (forall k, i :: k in xs && k !in Keys(r) && 0 <= i < |r| ==> r[i].1 >= multiset(xs)[k])
    && (|r| < n ==> forall k :: k in xs ==> k in Keys(r))
    && DistinctKeys(r)
    && (forall i, j :: 0 <= i < j < |r| && r[i].1 == r[j].1 ==> IndexOf(xs, r[i].0) < IndexOf(xs, r[j].0))
    && (forall k, i :: k in xs && k !in Keys(r) && 0 <= i < |r| && r[i].1 == multiset(xs)[k] ==>
          IndexOf(xs, r[i].0) < IndexOf(xs, k))
  }

  lemma MostCommonNFacts<K(!new)>(xs: seq<K>, n: nat)
    ensures TopCounts(MostCommonN(xs, n), xs, n)
  {
    var all := MostCommon(xs);
    var r := MostCommonN(xs, n);
    MostCommonFacts(xs);
    assert r == all[..|r|];
    PrefixOfCounts(all, xs, |r|);
    PrefixTies(all, xs, |r|);
  }

  /**
   * A prefix of a complete tally of `xs` whose ties are in first-appearance order: its keys are
   * distinct, and an equal count kept or left out later first appears later in `xs`.
   */
  lemma PrefixTies<K(!new)>(all: seq<(K, nat)>, xs: seq<K>, m: nat)
    requires m <= |all|
    requires forall k :: k in Keys(all) <==> k in xs
    requires forall i :: 0 <= i < |all| ==> all[i].1 == multiset(xs)[all[i].0]
    requires TiesRanked(all, (e: (K, nat)) => e.1, (e: (K, nat)) => IndexOf(xs, e.0))
    ensures var r := all[..m];
      && DistinctKeys(r)
      && (forall i, j :: 0 <= i < j < |r| && r[i].1 == r[j].1 ==> IndexOf(xs, r[i].0) < IndexOf(xs, r[j].0))
      && (forall k, i :: k in xs && k !in Keys(r) && 0 <= i < |r| && r[i].1 == multiset(xs)[k] ==>
            IndexOf(xs, r[i].0) < IndexOf(xs, k))
  {
    var r := all[..m];
    var count := (e: (K, nat)) => e.1;
    var rank := (e: (K, nat)) => IndexOf(xs, e.0);
    forall i, j | 0 <= i < j < |r|
      ensures r[i].0 != r[j].0 && (r[i].1 == r[j].1 ==> IndexOf(xs, r[i].0) < IndexOf(xs, r[j].0))
    {
      assert r[i] == all[i] && r[j] == all[j];
      assert count(all[i]) == multiset(xs)[all[i].0] && count(all[j]) == multiset(xs)[all[j].0];
    }
    assert Keys(r) == Keys(all)[..m];
    forall k, i | k in xs && k !in Keys(r) && 0 <= i < |r| && r[i].1 == multiset(xs)[k]
      ensures IndexOf(xs, r[i].0) < IndexOf(xs, k)
    {
      var j := IndexOf(Keys(all), k);
      assert all[j].0 == k && all[j].1 == multiset(xs)[k];
      assert j >= m;
      assert r[i] == all[i] && count(all[i]) == count(all[j]);
      assert rank(all[i]) < rank(all[j]);
    }
  }

  /** What a prefix of a complete, descending tally of `xs` says about `xs`. */
  lemma PrefixOfCounts<K(!new)>(all: seq<(K, nat)>, xs: seq<K>, m: nat)
    requires m <= |all|
    requires forall k :: k in Keys(all) <==> k in xs
    requires forall i :: 0 <= i < |all| ==> all[i].1 == multiset(xs)[all[i].0]
    requires NonIncreasing(all, (e: (K, nat)) => e.1)
    ensures var r := all[..m];
      && (forall i :: 0 <= i < |r| ==> r[i].0 in xs && r[i].1 == multiset(xs)[r[i].0])
      && NonIncreasing(r, (e: (K, nat)) => e.1)
      && (forall k, i :: k in xs && k !in Keys(r) && 0 <= i < |r| ==> r[i].1 >= multiset(xs)[k])
  {
    var r := all[..m];
    forall i | 0 <= i < |r| ensures r[i].0 in xs && r[i].1 == multiset(xs)[r[i].0] {
      assert r[i] == all[i] && Keys(all)[i] == r[i].0;
    }
    NonIncreasingPrefix(all, (e: (K, nat)) => e.1, m);
    PrefixDominates(all, xs, m);
  }

  /** A prefix of a non-increasing sequence is non-increasing. */
  lemma NonIncreasingPrefix<T>(s: seq<T>, key: T -> int, m: nat)
    requires m <= |s| && NonIncreasing(s, key)
    ensures NonIncreasing(s[..m], key)
  {
    forall i, j | 0 <= i < j < m ensures key(s[..m][i]) >= key(s[..m][j]) {
      assert s[..m][i] == s[i] && s[..m][j] == s[j];
    }
  }

  /** The counts kept in a prefix of a complete descending tally dominate every count left out. */
  lemma PrefixDominates<K(!new)>(all: seq<(K, nat)>, xs: seq<K>, m: nat)
    requires m <= |all|
    requires forall k :: k in Keys(all) <==> k in xs
    requires forall i :: 0 <= i < |all| ==> all[i].1 == multiset(xs)[all[i].0]
    requires NonIncreasing(all, (e: (K, nat)) => e.1)
    ensures forall k, i :: k in xs && k !in Keys(all[..m]) && 0 <= i < m ==> all[..m][i].1 >= multiset(xs)[k]
  {
    assert Keys(all[..m]) == Keys(all)[..m];
    forall k, i | k in xs && k !in Keys(all[..m]) && 0 <= i < m ensures all[..m][i].1 >= multiset(xs)[k] {
      var j := IndexOf(Keys(all), k);
      assert all[j].0 == k && all[j].1 == multiset(xs)[k];
      assert j >= m;
      var key := (e: (K, nat)) => e.1;
      assert key(all[i]) >= key(all[j]);
      assert all[..m][i] == all[i];
    }
  }

  /** One more step of the counting loop is one more `Bump`. */
  lemma CountAllSnoc<K(!new)>(xs: seq<K>, x: K)
    ensures CountAll(xs + [x]) == Bump(CountAll(xs), x)
  {
    assert (xs + [x])[..|xs|] == xs;
  }

  // ---------------------------------------------------------------------------------------
  // Dict comprehensions keyed by a field

  /**
   * `{key(x): x for x in s}.get(k)`: an element overwrites every earlier one with the same
   * key, so the lookup finds the last element with key `k`, or nothing.
   */
  function LastWithKey<T, K(==)>(s: seq<T>, key: T -> K, k: K): (r: Option<T>)
    ensures r.Some? ==> r.value in s && key(r.value) == k
    ensures r.None? <==> forall x :: x in s ==> key(x) != k
    decreases |s|
  {
    if s == [] then None
    else if key(s[|s| - 1]) == k then Some(s[|s| - 1])
    else LastWithKey(s[..|s| - 1], key, k)
  }

  /** The element found is the last one with that key. */
  lemma {:induction false} LastWithKeyAt<T, K(!new)>(s: seq<T>, key: T -> K, k: K, i: nat)
    requires i < |s| && key(s[i]) == k
    requires forall j :: i < j < |s| ==> key(s[j]) != k
    ensures LastWithKey(s, key, k) == Some(s[i])
    decreases |s|
  {
    if i < |s| - 1 {
      var init := s[..|s| - 1];
      LastWithKeyAt(init, key, k, i);
    }
  }

  /** `next((x for x in s if key(x) == k), None)`: the first element with key `k`, or nothing. */
  function FirstWithKey<T, K(==)>(s: seq<T>, key: T -> K, k: K): (r: Option<T>)
    ensures r.Some? ==> r.value in s && key(r.value) == k
    ensures r.None? <==> forall x :: x in s ==> key(x) != k
  {
    if s == [] then None
    else if key(s[0]) == k then Some(s[0])
    else FirstWithKey(s[1..], key, k)
  }

  /** Every key occurs at most once: the shape of a Python dict's items. */
  predicate DistinctKeys<K(==), V>(d: seq<(K, V)>) {
    forall i, j :: 0 <= i < j < |d| ==> d[i].0 != d[j].0
  }

  /**
   * `d[k] = v` on an ordered dict: an existing key keeps its place and takes the new value,
   * a new key goes at the end with it.
   */
  function Put<K(==), V>(d: seq<(K, V)>, k: K, v: V): (r: seq<(K, V)>)
    ensures k in Keys(d) ==> Keys(r) == Keys(d)
    ensures k !in Keys(d) ==> Keys(r) == Keys(d) + [k]
    decreases |d|
  {
    if d == [] then [(k, v)]
    else if d[0].0 == k then [(k, v)] + d[1..]
    else
      assert Keys(d) == [d[0].0] + Keys(d[1..]);
      [d[0]] + Put(d[1..], k, v)
  }

  /** `d[k] = v` leaves the other entries alone and gives `k` the value `v`. */
  lemma {:induction false} PutValues<K(!new), V>(d: seq<(K, V)>, k: K, v: V)
    requires DistinctKeys(d)
    ensures var r := Put(d, k, v);
      && (forall i :: 0 <= i < |r| && r[i].0 == k ==> r[i].1 == v)
      && (forall i :: 0 <= i < |d| && d[i].0 != k ==> r[i] == d[i])
    decreases |d|
  {
    if d != [] && d[0].0 != k {
      PutValues(d[1..], k, v);
    } else if d != [] {
      forall i | 0 < i < |d| ensures d[i].0 != k {
        assert d[0].0 != d[i].0;
      }
    }
  }

  /** The dict built by `d[key(x)] = val(x)` for each `x` of `s` in turn. */
  function PutAll<T, K(==), V>(s: seq<T>, key: T -> K, val: T -> V): (r: seq<(K, V)>)
    decreases |s|
  {
    if s == [] then [] else Put(PutAll(s[..|s| - 1], key, val), key(s[|s| - 1]), val(s[|s| - 1]))
  }

  /** One more assignment of the loop is one more `Put`. */
  lemma PutAllSnoc<T, K(!new), V>(s: seq<T>, x: T, key: T -> K, val: T -> V)
    ensures PutAll(s + [x], key, val) == Put(PutAll(s, key, val), key(x), val(x))
  {
    assert (s + [x])[..|s|] == s;
  }

  lemma PutDistinct<K(!new), V>(d: seq<(K, V)>, k: K, v: V)
    requires DistinctKeys(d)
    ensures DistinctKeys(Put(d, k, v))
  {
    var r := Put(d, k, v);
    forall i, j | 0 <= i < j < |r| ensures r[i].0 != r[j].0 {
      assert Keys(r)[i] == r[i].0 && Keys(r)[j] == r[j].0;
      if j < |d| {
        assert Keys(d)[i] == d[i].0 && Keys(d)[j] == d[j].0;
      } else {
        assert Keys(d)[i] == d[i].0;
      }
    }
  }

  lemma {:induction false} PutAllDistinct<T, K(!new), V>(s: seq<T>, key: T -> K, val: T -> V)
    ensures DistinctKeys(PutAll(s, key, val))
    decreases |s|
  {
    if s != [] {
      PutAllDistinct(s[..|s| - 1], key, val);
      PutDistinct(PutAll(s[..|s| - 1], key, val), key(s[|s| - 1]), val(s[|s| - 1]));
    }
  }

  lemma {:induction false} PutAllKeys<T, K(!new), V>(s: seq<T>, key: T -> K, val: T -> V)
    ensures forall k :: k in Keys(PutAll(s, key, val)) <==> exists x :: x in s && key(x) == k
    decreases |s|
  {
    if s != [] {
      var init := s[..|s| - 1];
      var x := s[|s| - 1];
      var r := PutAll(s, key, val);
      PutAllKeys(init, key, val);
      assert s == init + [x];
      forall k ensures k in Keys(r) <==> exists y :: y in s && key(y) == k {
        if k in Keys(r) && k != key(x) {
          var y :| y in init && key(y) == k;
          assert y in s;
        }
        if k != key(x) && (exists y :: y in s && key(y) == k) {
          var y :| y in s && key(y) == k;
          assert y in init;
        }
      }
    }
  }

  /** The entry holds the value of the last element of `s` with its key. */
  predicate ValueIsLast<T, K(==), V(==)>(s: seq<T>, key: T -> K, val: T -> V, e: (K, V)) {
    LastWithKey(s, key, e.0).Some? && e.1 == val(LastWithKey(s, key, e.0).value)
  }

  lemma {:induction false} PutAllValues<T, K(!new), V>(s: seq<T>, key: T -> K, val: T -> V)
    ensures forall i :: 0 <= i < |PutAll(s, key, val)| ==> ValueIsLast(s, key, val, PutAll(s, key, val)[i])
    decreases |s|
  {
    if s != [] {
      var init := s[..|s| - 1];
      var x := s[|s| - 1];
      var d := PutAll(init, key, val);
      var r := PutAll(s, key, val);
      PutAllValues(init, key, val);
      PutAllDistinct(init, key, val);
      PutValues(d, key(x), val(x));
      forall i | 0 <= i < |r| ensures ValueIsLast(s, key, val, r[i]) {
        if r[i].0 != key(x) {
          assert Keys(r)[i] == r[i].0;
          assert i < |d|;
          assert r[i] == d[i];
          assert LastWithKey(s, key, r[i].0) == LastWithKey(init, key, d[i].0);
          assert ValueIsLast(init, key, val, d[i]);
        } else {
          assert LastWithKey(s, key, r[i].0) == Some(x);
        }
      }
    }
  }

  /**
   * The dict holds each key of `s` once, no other key, and for each key the value of the
   * last element with that key.
   */
  lemma PutAllFacts<T, K(!new), V>(s: seq<T>, key: T -> K, val: T -> V)
    ensures var r := PutAll(s, key, val);
      && DistinctKeys(r)
      && (forall k :: k in Keys(r) <==> exists x :: x in s && key(x) == k)
      && (forall i :: 0 <= i < |r| ==> ValueIsLast(s, key, val, r[i]))
  {
    PutAllDistinct(s, key, val);
    PutAllKeys(s, key, val);
    PutAllValues(s, key, val);
  }

  /** A sequence without repetitions is as long as the set of its elements is large. */
  lemma {:induction false} DistinctCard<K>(ks: seq<K>)
    requires forall i, j :: 0 <= i < j < |ks| ==> ks[i] != ks[j]
    ensures |set k | k in ks| == |ks|
    decreases |ks|
  {
    if ks != [] {
      var init := ks[..|ks| - 1];
      DistinctCard(init);
      assert (set k | k in ks) == (set k | k in init) + {ks[|ks| - 1]};
    }
  }

  /** A dict has as many items as distinct keys. */
  lemma DistinctKeysCard<K, V>(d: seq<(K, V)>)
    requires DistinctKeys(d)
    ensures |set k | k in Keys(d)| == |d|
  {
    forall i, j | 0 <= i < j < |Keys(d)| ensures Keys(d)[i] != Keys(d)[j] {
      assert d[i].0 != d[j].0;
    }
    DistinctCard(Keys(d));
  }
}
