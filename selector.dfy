/** The question selector: the 55 facts, the pool the filter leaves, and the weighted
    draw over that pool (app.js lines 49-76). */
module Selector {
  import opened Wrappers
  import opened FactStore
  import opened Mastery
  import opened Filters

  // ---------- The 55 facts ----------

  /** The pairs (a, a), (a, a + 1), ..., (a, b - 1): the inner loop of `allPairs` up to b. */
  function RowTo(a: int, b: int): (row: seq<Pair>)
    decreases b - a
  {
    if b <= a then [] else RowTo(a, b - 1) + [(a, b - 1)]
  }

  /** The factors the outer loop of `allPairs` runs over. */
  const Factors: seq<int> := [1, 2, 3, 4, 5, 6, 7, 8, 9, 10]

  /** The full rows for the factors in rows, one after the other. */
  function RowsOf(rows: seq<int>): (pairs: seq<Pair>)
  {
    if rows == [] then [] else RowsOf(rows[..|rows| - 1]) + RowTo(rows[|rows| - 1], 11)
  }

  /** What `allPairs` returns, in its order. */
  function Pairs(): (pairs: seq<Pair>)
  {
    RowsOf(Factors)
  }

  /** A fact as the program enumerates it: 1 <= a <= b <= 10. */
  predicate InDomain(p: Pair)
  {
    1 <= p.0 <= p.1 <= 10
  }

  predicate NoDup(s: seq<Pair>)
  {
    forall i, j :: 0 <= i < j < |s| ==> s[i] != s[j]
  }

  lemma NoDupConcat(x: seq<Pair>, y: seq<Pair>)
    requires NoDup(x) && NoDup(y)
    requires forall p :: p in x ==> p !in y
    ensures NoDup(x + y)
  {
    var s := x + y;
    forall i, j | 0 <= i < j < |s|
      ensures s[i] != s[j]
    {
      if i < |x| && |x| <= j {
        assert s[i] in x && s[j] == y[j - |x|];
      }
    }
  }

  lemma {:induction false} RowToLength(a: int, b: int)
    requires a <= b
    ensures |RowTo(a, b)| == b - a
    decreases b - a
  {
    if a < b {
      RowToLength(a, b - 1);
    }
  }

  lemma {:induction false} RowToFacts(a: int, b: int)
    requires a <= b
    ensures forall p :: p in RowTo(a, b) <==> p.0 == a && a <= p.1 < b
    ensures NoDup(RowTo(a, b))
    decreases b - a
  {
    if a < b {
      RowToFacts(a, b - 1);
      NoDupConcat(RowTo(a, b - 1), [(a, b - 1)]);
    }
  }

  /** 1 + 2 + ... + n. */
  function Triangle(n: nat): (t: nat)
  {
    if n == 0 then 0 else n + Triangle(n - 1)
  }

  lemma TenthTriangle()
    ensures Triangle(10) == 55
  {
  }

  lemma {:induction false} RowsOfLength(rows: seq<int>)
    requires forall i :: 0 <= i < |rows| ==> rows[i] == i + 1
    requires |rows| <= 10
    ensures |RowsOf(rows)| + Triangle(10 - |rows|) == Triangle(10)
  {
    if rows != [] {
      RowsOfLength(rows[..|rows| - 1]);
      RowToLength(rows[|rows| - 1], 11);
    }
  }

  lemma {:induction false} RowsOfFacts(rows: seq<int>)
    requires forall i :: 0 <= i < |rows| ==> rows[i] == i + 1
    requires |rows| <= 10
    ensures forall p :: p in RowsOf(rows) <==> 1 <= p.0 <= |rows| && p.0 <= p.1 <= 10
    ensures NoDup(RowsOf(rows))
  {
    if rows != [] {
      RowsOfFacts(rows[..|rows| - 1]);
      RowToFacts(rows[|rows| - 1], 11);
      NoDupConcat(RowsOf(rows[..|rows| - 1]), RowTo(rows[|rows| - 1], 11));
    }
  }

  /** `allPairs` lists 55 facts. */
  lemma PairsLength()
    ensures |Pairs()| == 55
  {
    RowsOfLength(Factors);
    TenthTriangle();
  }

  /** `allPairs` lists 55 distinct facts, and they are exactly the pairs 1 <= a <= b <= 10. */
  lemma PairsFacts()
    ensures |Pairs()| == 55
    ensures NoDup(Pairs())
    ensures forall p :: p in Pairs() <==> InDomain(p)
  {
    PairsLength();
    RowsOfFacts(Factors);
  }

  /** The rows for the first n + 1 factors are those for the first n followed by one more. */
  lemma NextRow(rows: seq<int>, n: nat)
    requires n < |rows|
    ensures RowsOf(rows[..n + 1]) == RowsOf(rows[..n]) + RowTo(rows[n], 11)
  {
    assert rows[..n + 1][..n] == rows[..n];
  }

  /** The i-th factor, counting from 0, is i + 1. */
  lemma FactorAt(i: nat)
    requires i < 10
    ensures |Factors| == 10 && Factors[i] == i + 1
  {
  }

  /** `allPairs`: the nested loops that push every fact (a, b) with a <= b. */
  method AllPairs() returns (pairs: seq<Pair>)
    ensures pairs == Pairs()
  {
    pairs := [];
    for a := 1 to 11
      invariant pairs == RowsOf(Factors[..a - 1])
    {
      ghost var done := pairs;
      for b := a to 11
        invariant pairs == done + RowTo(a, b)
      {
        pairs := pairs + [(a, b)];
      }
      FactorAt(a - 1);
      NextRow(Factors, a - 1);
    }
    assert Factors[..10] == Factors;
  }

  // ---------- The filtered pool ----------

  /** The test of the `filter` callback: one of the two operands is an active factor. */
  predicate Matches(filters: set<Tag>, p: Pair)
  {
    Value(p.0) in filters || Value(p.1) in filters
  }

  /** r is s with some elements left out, the rest in their original order. */
  predicate IsSubsequence(r: seq<Pair>, s: seq<Pair>)
    decreases |s|
  {
    if r == [] then true
    else if s == [] then false
    else (r[0] == s[0] && IsSubsequence(r[1..], s[1..])) || IsSubsequence(r, s[1..])
  }

  lemma {:induction false} SubsequenceOfItself(s: seq<Pair>)
    ensures IsSubsequence(s, s)
  {
    if s != [] {
      SubsequenceOfItself(s[1..]);
    }
  }

  lemma {:induction false} SubsequenceKeepsNoDup(r: seq<Pair>, s: seq<Pair>)
    requires IsSubsequence(r, s) && NoDup(s)
    ensures NoDup(r) && forall p :: p in r ==> p in s
    decreases |s|
  {
    if r != [] {
      assert s != [];
      assert NoDup(s[1..]) by {
        forall i, j | 0 <= i < j < |s[1..]| ensures s[1..][i] != s[1..][j] {
          assert s[1..][i] == s[i + 1] && s[1..][j] == s[j + 1];
        }
      }
      if r[0] == s[0] && IsSubsequence(r[1..], s[1..]) {
        SubsequenceKeepsNoDup(r[1..], s[1..]);
        assert s[0] !in s[1..] by {
          forall i | 0 <= i < |s[1..]| ensures s[1..][i] != s[0] {
            assert s[1..][i] == s[i + 1];
          }
        }
        NoDupConcat([r[0]], r[1..]);
        assert r == [r[0]] + r[1..];
      } else {
        SubsequenceKeepsNoDup(r, s[1..]);
      }
    }
  }

  /** `.filter(...)`: the elements of s that match, in their order in s. */
  function KeepMatching(s: seq<Pair>, filters: set<Tag>): (r: seq<Pair>)
    ensures forall p :: p in r <==> p in s && Matches(filters, p)
    ensures IsSubsequence(r, s)
  {
    if s == [] then []
    else
      assert s == [s[0]] + s[1..];
      if Matches(filters, s[0]) then [s[0]] + KeepMatching(s[1..], filters)
      else KeepMatching(s[1..], filters)
  }

  /** The filter keeps every copy of a matching element and no copy of any other. */
  lemma {:induction false} KeepMatchingCounts(s: seq<Pair>, filters: set<Tag>)
    ensures forall p :: multiset(KeepMatching(s, filters))[p] == if Matches(filters, p) then multiset(s)[p] else 0
  {
    if s != [] {
      KeepMatchingCounts(s[1..], filters);
      assert s == [s[0]] + s[1..];
    }
  }

  /** `filteredPairs`: every fact when 'all' is on; otherwise the facts with an active
      factor as either operand. */
  function FilteredPairs(filters: set<Tag>): (pool: seq<Pair>)
    ensures forall p :: p in pool <==> InDomain(p) && (All in filters || Matches(filters, p))
  {
    PairsFacts();
    if All in filters then Pairs() else KeepMatching(Pairs(), filters)
  }

  /** The pool keeps the order of `allPairs` and lists each fact once; with 'all' on it is
      `allPairs` itself. */
  lemma PoolOrder(filters: set<Tag>)
    ensures All in filters ==> FilteredPairs(filters) == Pairs()
    ensures IsSubsequence(FilteredPairs(filters), Pairs()) && NoDup(FilteredPairs(filters))
  {
    PairsFacts();
    SubsequenceOfItself(Pairs());
    SubsequenceKeepsNoDup(FilteredPairs(filters), Pairs());
  }

  /** With the filter set kept by `toggleFilter`, the pool is never empty, so the
      "no question" case of `pickQuestion` cannot arise through the pills. */
  lemma PoolNotEmpty(filters: set<Tag>)
    requires FiltersOk(filters) && TagsInRange(filters)
    ensures FilteredPairs(filters) != []
  {
    var t :| t in filters;
    var p := if t == All then (1, 1) else (t.v, t.v);
    assert p in FilteredPairs(filters);
  }

  // ---------- The weighted draw ----------

  /** `pairs.map(weight)`. */
  function Weights(stats: Stats, pool: seq<Pair>): (ws: seq<real>)
    ensures |ws| == |pool| && Positive(ws)
  {
    if pool == [] then [] else [Weight(stats, pool[0].0, pool[0].1)] + Weights(stats, pool[1..])
  }

  /** Each weight is that of the fact at the same place in the pool. */
  lemma {:induction false} WeightsAt(stats: Stats, pool: seq<Pair>)
    ensures forall i :: 0 <= i < |pool| ==> Weights(stats, pool)[i] == Weight(stats, pool[i].0, pool[i].1)
  {
    if pool != [] {
      WeightsAt(stats, pool[1..]);
      assert Weights(stats, pool) == [Weight(stats, pool[0].0, pool[0].1)] + Weights(stats, pool[1..]);
    }
  }

  /** The sum of a list of weights, added from the left as `reduce` does. */
  function Sum(ws: seq<real>): (total: real)
  {
    if ws == [] then 0.0 else Sum(ws[..|ws| - 1]) + ws[|ws| - 1]
  }

  /** The sum of the first n weights. */
  function Prefix(ws: seq<real>, n: nat): (total: real)
    requires n <= |ws|
  {
    Sum(ws[..n])
  }

  predicate Positive(ws: seq<real>)
  {
    forall i :: 0 <= i < |ws| ==> ws[i] > 0.0
  }

  /** The draw r lands on index i: i is the first index whose prefix sum reaches r. */
  predicate Selected(ws: seq<real>, r: real, i: int)
  {
    0 <= i < |ws| && r <= Prefix(ws, i + 1) && Passed(ws, r, i)
  }

  /** The walk has gone past the first i entries: each of their prefix sums is below r. */
  predicate Passed(ws: seq<real>, r: real, i: nat)
    requires i <= |ws|
  {
    forall n :: 1 <= n <= i ==> Prefix(ws, n) < r
  }

  lemma PrefixStep(ws: seq<real>, n: nat)
    requires n < |ws|
    ensures Prefix(ws, n + 1) == Prefix(ws, n) + ws[n]
  {
    assert ws[..n + 1][..n] == ws[..n];
  }

  lemma PrefixWhole(ws: seq<real>)
    ensures Prefix(ws, |ws|) == Sum(ws)
  {
    assert ws[..|ws|] == ws;
  }

  lemma {:induction false} PrefixIncreasing(ws: seq<real>, i: nat, j: nat)
    requires Positive(ws) && i < j <= |ws|
    ensures Prefix(ws, i) < Prefix(ws, j)
    decreases j
  {
    PrefixStep(ws, j - 1);
    if i < j - 1 {
      PrefixIncreasing(ws, i, j - 1);
    }
  }

  /** Each index is drawn for a band of r as wide as its weight: above the sum of the
      weights before it, up to that sum plus its own weight. */
  lemma SelectedBand(ws: seq<real>, r: real, i: int)
    requires Positive(ws) && 0 <= i < |ws|
    ensures Prefix(ws, i + 1) == Prefix(ws, i) + ws[i]
    ensures Selected(ws, r, i) <==> (i == 0 || Prefix(ws, i) < r) && r <= Prefix(ws, i + 1)
  {
    PrefixStep(ws, i);
    if (i == 0 || Prefix(ws, i) < r) && r <= Prefix(ws, i + 1) {
      forall n | 1 <= n <= i ensures Prefix(ws, n) < r {
        if n < i {
          PrefixIncreasing(ws, n, i);
        }
      }
    }
  }

  /** At most one index is drawn for a given r. */
  lemma SelectedUnique(ws: seq<real>, r: real, i: int, j: int)
    requires Selected(ws, r, i) && Selected(ws, r, j)
    ensures i == j
  {
  }

  lemma SumPositive(ws: seq<real>)
    requires Positive(ws) && ws != []
    ensures Sum(ws) > 0.0
  {
    PrefixWhole(ws);
    assert ws[..0] == [];
    PrefixIncreasing(ws, 0, |ws|);
  }

  /** The sum of the weights of the pool the filter set leaves. */
  function Total(stats: Stats, filters: set<Tag>): (total: real)
  {
    Sum(Weights(stats, FilteredPairs(filters)))
  }

  /** A non-empty pool has a positive total weight, so its draw range is not empty. */
  lemma TotalPositive(stats: Stats, filters: set<Tag>)
    requires FilteredPairs(filters) != []
    ensures Total(stats, filters) > 0.0
  {
    SumPositive(Weights(stats, FilteredPairs(filters)));
  }

  /** The range of `Math.random() * total`: from 0 up to, not including, the total weight
      (the draw is not taken when the pool is empty). */
  predicate DrawInRange(stats: Stats, filters: set<Tag>, r: real)
  {
    0.0 <= r && (FilteredPairs(filters) == [] || r < Total(stats, filters))
  }

  /** The walk of `pickQuestion` from index i with `left` still to spend: subtract each
      weight in turn and stop at the first index where nothing is left; past the end,
      fall back to the last element. */
  function Walk(pool: seq<Pair>, ws: seq<real>, left: real, i: nat): (p: Pair)
    requires |ws| == |pool| && i <= |pool| && pool != []
    ensures p in pool
    decreases |pool| - i
  {
    if i == |pool| then pool[|pool| - 1]
    else if left - ws[i] <= 0.0 then pool[i]
    else Walk(pool, ws, left - ws[i], i + 1)
  }

  /** What `pickQuestion` returns for the draw r: nothing for an empty pool, otherwise
      where the walk over the pool's weights stops. */
  function Draw(stats: Stats, filters: set<Tag>, r: real): (q: Option<Pair>)
    ensures q.None? <==> FilteredPairs(filters) == []
    ensures q.Some? ==> q.value in FilteredPairs(filters) && InDomain(q.value)
  {
    var pool := FilteredPairs(filters);
    if pool == [] then None else Some(Walk(pool, Weights(stats, pool), r, 0))
  }

  /** When r is below the sum of the weights, the walk stops at the index on which r
      lands, before the fallback. */
  lemma {:induction false} WalkSelects(pool: seq<Pair>, ws: seq<real>, r: real, left: real, i: nat)
    requires |ws| == |pool| && i <= |pool| && pool != [] && Positive(ws)
    requires left == r - Prefix(ws, i) && Passed(ws, r, i) && r < Sum(ws)
    ensures exists j :: i <= j < |pool| && Selected(ws, r, j) && Walk(pool, ws, left, i) == pool[j]
    decreases |pool| - i
  {
    if i == |pool| {
      PrefixWhole(ws);
      assert false;
    }
    PrefixStep(ws, i);
    if left - ws[i] <= 0.0 {
      assert Selected(ws, r, i);
    } else {
      assert Passed(ws, r, i + 1);
      WalkSelects(pool, ws, r, left - ws[i], i + 1);
    }
  }

  /** What `pickQuestion` may return for the draw r: nothing exactly when the pool is
      empty, otherwise the pool element on which r lands. */
  predicate IsDraw(stats: Stats, filters: set<Tag>, r: real, q: Option<Pair>)
  {
    var pool := FilteredPairs(filters);
    var ws := Weights(stats, pool);
    (q.None? <==> pool == []) &&
    (q.Some? ==> exists i :: 0 <= i < |pool| && Selected(ws, r, i) && pool[i] == q.value)
  }

  /** For a draw in range, `pickQuestion` returns the first fact whose prefix sum of weights
      reaches r; the last-element fallback is never taken. */
  lemma DrawIsSelected(stats: Stats, filters: set<Tag>, r: real)
    requires DrawInRange(stats, filters, r)
    ensures IsDraw(stats, filters, r, Draw(stats, filters, r))
  {
    var pool := FilteredPairs(filters);
    if pool != [] {
      var ws := Weights(stats, pool);
      assert ws[..0] == [];
      WalkSelects(pool, ws, r, r, 0);
    }
  }

  /** For a given draw there is exactly one outcome. */
  lemma DrawUnique(stats: Stats, filters: set<Tag>, r: real, q1: Option<Pair>, q2: Option<Pair>)
    requires IsDraw(stats, filters, r, q1) && IsDraw(stats, filters, r, q2)
    ensures q1 == q2
  {
    if q1.Some? {
      var pool := FilteredPairs(filters);
      var ws := Weights(stats, pool);
      var i :| 0 <= i < |pool| && Selected(ws, r, i) && pool[i] == q1.value;
      var j :| 0 <= j < |pool| && Selected(ws, r, j) && pool[j] == q2.value;
      SelectedUnique(ws, r, i, j);
    }
  }

  /** One step of the walk. */
  lemma WalkStep(pool: seq<Pair>, ws: seq<real>, left: real, i: nat)
    requires |ws| == |pool| && i < |pool|
    ensures Walk(pool, ws, left, i) == if left - ws[i] <= 0.0 then pool[i] else Walk(pool, ws, left - ws[i], i + 1)
  {
  }

  /** `pickQuestion`, with the draw `Math.random() * total` passed in as r: the loop
      subtracts the weights from r and returns the fact where r drops to zero or below. */
  method PickQuestion(stats: Stats, filters: set<Tag>, r: real) returns (q: Option<Pair>)
    ensures q == Draw(stats, filters, r)
  {
    var pairs := FilteredPairs(filters);
    if |pairs| == 0 {
      return None;
    }
    var weights := Weights(stats, pairs);
    var left := r;
    for i := 0 to |pairs|
      invariant Walk(pairs, weights, left, i) == Walk(pairs, weights, r, 0)
    {
      WalkStep(pairs, weights, left, i);
      left := left - weights[i];
      if left <= 0.0 {
        return Some(pairs[i]);
      }
    }
    return Some(pairs[|pairs| - 1]);
  }
}
