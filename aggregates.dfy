/** The derived statistics: how many facts are mastered and how many answers were right
    and wrong over the 55 facts (app.js lines 87-98). */
module Aggregates {
  import opened FactStore
  import opened Mastery
  import opened Selector

  /** The three quantities `totalStats` adds up. */
  datatype Measure = MasteredCount | CorrectCount | WrongCount

  /** What one record adds to a measure: 1 if mastered, its correct count, its wrong count. */
  function Score(e: Record, m: Measure): (n: nat)
  {
    match m
    case MasteredCount => if IsMastered(e) then 1 else 0
    case CorrectCount => e.correct
    case WrongCount => e.wrong
  }

  /** What the fact p adds in the loop of `totalStats`: nothing when it has no record. */
  function EntryScore(stats: Stats, p: Pair, m: Measure): (n: nat)
  {
    var k := StatKey(p.0, p.1);
    if k in stats then Score(stats[k], m) else 0
  }

  /** The measure summed over the facts of s, in order, as the loop accumulates it. */
  function SeqTotal(stats: Stats, s: seq<Pair>, m: Measure): (n: nat)
  {
    if s == [] then 0 else SeqTotal(stats, s[..|s| - 1], m) + EntryScore(stats, s[|s| - 1], m)
  }

  /** The measure summed over every record of the store, in no particular order. */
  ghost function MapTotal(stats: Stats, m: Measure): (n: nat)
    decreases |stats.Keys|
  {
    if stats.Keys == {} then 0
    else
      var k := Pick(stats.Keys);
      Score(stats[k], m) + MapTotal(stats - {k}, m)
  }

  /** Some key of a non-empty key set, chosen arbitrarily. */
  ghost function Pick(keys: set<Pair>): (k: Pair)
    requires keys != {}
    ensures k in keys
  {
    var k :| k in keys; k
  }

  /** The part of the store that belongs to the 55 facts of the matrix. */
  function MatrixPart(stats: Stats): (r: Stats)
    ensures forall k :: k in r <==> k in stats && InDomain(k)
    ensures forall k :: k in r ==> r[k] == stats[k]
  {
    map k | k in stats && InDomain(k) :: stats[k]
  }

  /** The totals `totalStats` returns. */
  datatype Totals = Totals(mastered: nat, total: nat, totalCorrect: nat, totalWrong: nat)

  // ---------- Sums over the store ----------

  /** The sum over the store does not depend on the order its records are taken in. */
  lemma {:induction false} MapTotalRemove(stats: Stats, k: Pair, m: Measure)
    requires k in stats
    ensures MapTotal(stats, m) == Score(stats[k], m) + MapTotal(stats - {k}, m)
    decreases |stats.Keys|
  {
    var j := Pick(stats.Keys);
    if j != k {
      var withoutJ, withoutK := stats - {j}, stats - {k};
      var rest := withoutJ - {k};
      assert withoutJ.Keys == stats.Keys - {j};
      assert k in withoutJ && withoutJ[k] == stats[k];
      MapTotalRemove(withoutJ, k, m);
      assert withoutK.Keys == stats.Keys - {k};
      assert j in withoutK && withoutK[j] == stats[j];
      assert withoutK - {j} == rest;
      MapTotalRemove(withoutK, j, m);
    }
  }

  /** Facts in canonical order: lower operand first. */
  predicate Canonical(s: seq<Pair>)
  {
    forall i :: 0 <= i < |s| ==> s[i].0 <= s[i].1
  }

  /** The facts of `allPairs` are canonical and listed once each. */
  lemma PairsCanonical()
    ensures Canonical(Pairs()) && NoDup(Pairs())
  {
    PairsFacts();
    forall i | 0 <= i < |Pairs()| ensures Pairs()[i].0 <= Pairs()[i].1 {
      assert InDomain(Pairs()[i]);
    }
  }

  /** One more step of the loop adds the score of the next fact. */
  lemma SeqTotalStep(stats: Stats, s: seq<Pair>, i: nat, m: Measure)
    requires i < |s|
    ensures SeqTotal(stats, s[..i + 1], m) == SeqTotal(stats, s[..i], m) + EntryScore(stats, s[i], m)
  {
    assert s[..i + 1][..i] == s[..i];
  }

  /** One step of the loop of `totalStats` in all three sums at once: a fact without a
      record adds nothing, one with a record adds its counters and, if mastered, one. */
  lemma LoopStep(stats: Stats, s: seq<Pair>, i: nat)
    requires i < |s|
    ensures var k := StatKey(s[i].0, s[i].1);
      if k in stats then
        SeqTotal(stats, s[..i + 1], CorrectCount) == SeqTotal(stats, s[..i], CorrectCount) + stats[k].correct &&
        SeqTotal(stats, s[..i + 1], WrongCount) == SeqTotal(stats, s[..i], WrongCount) + stats[k].wrong &&
        SeqTotal(stats, s[..i + 1], MasteredCount) ==
          SeqTotal(stats, s[..i], MasteredCount) + (if stats[k].correct > stats[k].wrong then 1 else 0)
      else
        SeqTotal(stats, s[..i + 1], CorrectCount) == SeqTotal(stats, s[..i], CorrectCount) &&
        SeqTotal(stats, s[..i + 1], WrongCount) == SeqTotal(stats, s[..i], WrongCount) &&
        SeqTotal(stats, s[..i + 1], MasteredCount) == SeqTotal(stats, s[..i], MasteredCount)
  {
    SeqTotalStep(stats, s, i, CorrectCount);
    SeqTotalStep(stats, s, i, WrongCount);
    SeqTotalStep(stats, s, i, MasteredCount);
  }

  /** A non-empty list is its initial part followed by its last element. */
  lemma SplitLast(s: seq<Pair>)
    requires s != []
    ensures forall p :: p in s <==> p in s[..|s| - 1] || p == s[|s| - 1]
    ensures Canonical(s) ==> Canonical(s[..|s| - 1]) && s[|s| - 1].0 <= s[|s| - 1].1
    ensures NoDup(s) ==> NoDup(s[..|s| - 1]) && s[|s| - 1] !in s[..|s| - 1]
  {
    var init, last := s[..|s| - 1], s[|s| - 1];
    assert s == init + [last];
    if NoDup(s) {
      forall i | 0 <= i < |init| ensures init[i] != last {
        assert init[i] == s[i];
      }
    }
  }

  /** Records of facts outside s do not change the sum over s. */
  lemma {:induction false} SeqTotalOnlyReadsListed(stats: Stats, other: Stats, s: seq<Pair>, m: Measure)
    requires Canonical(s)
    requires forall p :: p in s ==> (p in stats <==> p in other) && (p in stats ==> stats[p] == other[p])
    ensures SeqTotal(stats, s, m) == SeqTotal(other, s, m)
  {
    if s != [] {
      SplitLast(s);
      SeqTotalOnlyReadsListed(stats, other, s[..|s| - 1], m);
    }
  }

  /** Every key of the store is listed in s. */
  predicate Covers(stats: Stats, s: seq<Pair>)
  {
    forall k :: k in stats ==> k in s
  }

  /** Dropping the record of a fact that is not listed leaves the sum over the list alone. */
  lemma {:induction false} SeqTotalWithout(stats: Stats, s: seq<Pair>, k: Pair, m: Measure)
    requires Canonical(s) && k !in s
    ensures SeqTotal(stats - {k}, s, m) == SeqTotal(stats, s, m)
  {
    if s != [] {
      var last := s[|s| - 1];
      SplitLast(s);
      SeqTotalWithout(stats, s[..|s| - 1], k, m);
      assert StatKey(last.0, last.1) == last;
    }
  }

  /** One step of the induction below: the last listed fact leaves the list and the store,
      and what remains satisfies the same conditions. */
  lemma StepFacts(stats: Stats, s: seq<Pair>, m: Measure)
    requires s != [] && Canonical(s) && NoDup(s) && Covers(stats, s)
    ensures var init, last := s[..|s| - 1], s[|s| - 1];
      Canonical(init) && NoDup(init) && Covers(stats - {last}, init) &&
      SeqTotal(stats, s, m) == SeqTotal(stats - {last}, init, m) + EntryScore(stats, last, m) &&
      (last in stats ==> EntryScore(stats, last, m) == Score(stats[last], m)) &&
      (last !in stats ==> stats - {last} == stats && EntryScore(stats, last, m) == 0)
  {
    var init, last := s[..|s| - 1], s[|s| - 1];
    SplitLast(s);
    assert Covers(stats - {last}, init);
    SeqTotalWithout(stats, init, last, m);
    assert StatKey(last.0, last.1) == last;
    if last !in stats {
      assert stats - {last} == stats;
    }
  }

  /** Over a list that names each fact once and covers every key of the store, the loop's
      sum is the sum over the store. */
  lemma {:induction false} SeqTotalIsMapTotal(stats: Stats, s: seq<Pair>, m: Measure)
    requires Canonical(s) && NoDup(s) && Covers(stats, s)
    ensures SeqTotal(stats, s, m) == MapTotal(stats, m)
  {
    if s == [] {
      assert stats.Keys == {};
    } else {
      var last := s[|s| - 1];
      StepFacts(stats, s, m);
      SeqTotalIsMapTotal(stats - {last}, s[..|s| - 1], m);
      if last in stats {
        MapTotalRemove(stats, last, m);
      }
    }
  }

  /** The totals over the 55 facts are the sums over the records the store keeps for them:
      `totalCorrect` and `totalWrong` add up the existing entries, `mastered` counts those
      with more correct than wrong answers. */
  lemma TotalsAreStoreSums(stats: Stats, m: Measure)
    ensures SeqTotal(stats, Pairs(), m) == MapTotal(MatrixPart(stats), m)
  {
    PairsFacts();
    PairsCanonical();
    var part := MatrixPart(stats);
    SeqTotalOnlyReadsListed(stats, part, Pairs(), m);
    SeqTotalIsMapTotal(part, Pairs(), m);
  }

  /** With an empty store, as after a reset, every total is zero. */
  lemma {:induction false} EmptyStoreTotals(s: seq<Pair>, m: Measure)
    ensures SeqTotal(map[], s, m) == 0
  {
    if s != [] {
      EmptyStoreTotals(s[..|s| - 1], m);
    }
  }

  /** No more facts are mastered than are listed. */
  lemma {:induction false} MasteredAtMost(stats: Stats, s: seq<Pair>)
    ensures SeqTotal(stats, s, MasteredCount) <= |s|
  {
    if s != [] {
      MasteredAtMost(stats, s[..|s| - 1]);
    }
  }

  // ---------- How one answer moves the totals ----------

  /** Replacing the record of one listed fact changes the sum by the difference of the two
      records' scores. */
  lemma {:induction false} SeqTotalAfterUpdate(stats: Stats, s: seq<Pair>, k: Pair, e: Record, m: Measure)
    requires Canonical(s) && NoDup(s) && k in s
    ensures SeqTotal(stats[k := e], s, m) + EntryScore(stats, k, m) == SeqTotal(stats, s, m) + Score(e, m)
  {
    var init, last := s[..|s| - 1], s[|s| - 1];
    SplitLast(s);
    if last == k {
      SeqTotalOnlyReadsListed(stats[k := e], stats, init, m);
    } else {
      SeqTotalAfterUpdate(stats, init, k, e, m);
    }
  }

  /** After `recordAnswer` on one of the 55 facts: a correct answer adds one to
      `totalCorrect`, leaves `totalWrong` alone and never lowers `mastered`; a wrong answer
      adds one to `totalWrong`, leaves `totalCorrect` alone and never raises `mastered`. */
  lemma RecordingMovesTotals(stats: Stats, a: int, b: int, correct: bool)
    requires InDomain(StatKey(a, b))
    ensures var after := Recorded(stats, a, b, correct);
      var c0, c1 := SeqTotal(stats, Pairs(), CorrectCount), SeqTotal(after, Pairs(), CorrectCount);
      var w0, w1 := SeqTotal(stats, Pairs(), WrongCount), SeqTotal(after, Pairs(), WrongCount);
      var m0, m1 := SeqTotal(stats, Pairs(), MasteredCount), SeqTotal(after, Pairs(), MasteredCount);
      (correct ==> c1 == c0 + 1 && w1 == w0 && m0 <= m1 <= m0 + 1) &&
      (!correct ==> w1 == w0 + 1 && c1 == c0 && m1 <= m0 <= m1 + 1)
  {
    PairsFacts();
    PairsCanonical();
    var k := StatKey(a, b);
    var s := Pairs();
    var after := Recorded(stats, a, b, correct);
    var e := after[k];
    assert after == stats[k := e];
    assert StatKey(k.0, k.1) == k;
    SeqTotalAfterUpdate(stats, s, k, e, CorrectCount);
    SeqTotalAfterUpdate(stats, s, k, e, WrongCount);
    SeqTotalAfterUpdate(stats, s, k, e, MasteredCount);
  }

  // ---------- The loop ----------

  /** The loop of `totalStats` over the listed facts: facts without a record are skipped;
      the others add their counters and, when mastered, one. */
  method Accumulate(stats: Stats, all: seq<Pair>) returns (mastered: nat, totalCorrect: nat, totalWrong: nat)
    ensures mastered == SeqTotal(stats, all, MasteredCount)
    ensures totalCorrect == SeqTotal(stats, all, CorrectCount)
    ensures totalWrong == SeqTotal(stats, all, WrongCount)
    ensures mastered <= |all|
  {
    mastered, totalCorrect, totalWrong := 0, 0, 0;
    assert all[..0] == [];
    for i := 0 to |all|
      invariant mastered == SeqTotal(stats, all[..i], MasteredCount)
      invariant totalCorrect == SeqTotal(stats, all[..i], CorrectCount)
      invariant totalWrong == SeqTotal(stats, all[..i], WrongCount)
    {
      LoopStep(stats, all, i);
      var (a, b) := all[i];
      var k := StatKey(a, b);
      if k !in stats {
        continue;
      }
      var e := stats[k];
      totalCorrect := totalCorrect + e.correct;
      totalWrong := totalWrong + e.wrong;
      if e.correct > e.wrong {
        mastered := mastered + 1;
      }
    }
    assert all[..|all|] == all;
    MasteredAtMost(stats, all);
  }

  /** `totalStats`: one pass over `allPairs`. The total is always 55; the three sums are
      those of SeqTotal over the 55 facts. */
  method TotalStats(stats: Stats) returns (t: Totals)
    ensures t.total == 55
    ensures t.mastered == SeqTotal(stats, Pairs(), MasteredCount)
    ensures t.totalCorrect == SeqTotal(stats, Pairs(), CorrectCount)
    ensures t.totalWrong == SeqTotal(stats, Pairs(), WrongCount)
    ensures t.mastered <= t.total
  {
    var all := AllPairs();
    var mastered, totalCorrect, totalWrong := Accumulate(stats, all);
    PairsLength();
    t := Totals(mastered, |all|, totalCorrect, totalWrong);
  }
}
