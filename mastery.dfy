/** The mastery classifier: the sampling weight of a fact and the colour of its cell in
    the matrix, both case analyses on the fact's record (app.js lines 40-47 and 101-107). */
module Mastery {
  import opened Wrappers
  import opened FactStore

  /** Never answered: no record, or a record with both counters zero. */
  predicate Unseen(e: Option<Record>)
  {
    e.None? || (e.value.correct == 0 && e.value.wrong == 0)
  }

  /** More wrong answers than correct ones. */
  predicate Struggling(e: Option<Record>)
  {
    e.Some? && e.value.wrong > e.value.correct
  }

  /** The test `totalStats` counts a fact as mastered by: strictly more correct than wrong. */
  predicate IsMastered(e: Record)
  {
    e.correct > e.wrong
  }

  /** `weight`: how likely the selector is to draw the fact. Checked in this order:
      unseen 2, struggling 5, any mistake 3, at least three correct 0.5, otherwise 1. */
  function Weight(stats: Stats, a: int, b: int): (w: real)
    ensures w > 0.0 && w <= 5.0
    ensures w == 2.0 <==> Unseen(Lookup(stats, a, b))
    ensures w == 5.0 <==> Struggling(Lookup(stats, a, b))
    // a fact with any mistake is never suppressed, however often it was answered correctly
    ensures Lookup(stats, a, b).Some? && Lookup(stats, a, b).value.wrong > 0 ==> w >= 3.0
    // a fact answered only correctly, at least three times, is the least likely
    ensures w == 0.5 <==> Lookup(stats, a, b).Some? && Lookup(stats, a, b).value.wrong == 0 && Lookup(stats, a, b).value.correct >= 3
    // a mistake without more wrong than correct answers gives 3; one or two correct answers alone give 1
    ensures w == 3.0 <==> Lookup(stats, a, b).Some? && 0 < Lookup(stats, a, b).value.wrong <= Lookup(stats, a, b).value.correct
    ensures w == 1.0 <==> Lookup(stats, a, b).Some? && Lookup(stats, a, b).value.wrong == 0 && 1 <= Lookup(stats, a, b).value.correct <= 2
  {
    var e := Lookup(stats, a, b);
    if e.None? || (e.value.correct == 0 && e.value.wrong == 0) then 2.0
    else if e.value.wrong > e.value.correct then 5.0
    else if e.value.wrong > 0 then 3.0
    else if e.value.correct >= 3 then 0.5
    else 1.0
  }

  /** The colour classes of a matrix cell. */
  datatype Cell = Never | Red | Orange | Green

  /** `cellClass`: the colour of the fact's cell. Green is exactly "mastered", and
      the colour agrees with the weight the selector gives the fact. */
  function CellClass(stats: Stats, a: int, b: int): (c: Cell)
    ensures c == Green <==> Lookup(stats, a, b).Some? && IsMastered(Lookup(stats, a, b).value)
    ensures c == Never <==> Weight(stats, a, b) == 2.0
    ensures c == Red <==> Weight(stats, a, b) == 5.0
    ensures c == Orange ==> Weight(stats, a, b) == 3.0
    ensures c == Green ==> Weight(stats, a, b) < 5.0
  {
    var e := Lookup(stats, a, b);
    if e.None? || (e.value.correct == 0 && e.value.wrong == 0) then Never
    else if e.value.wrong > e.value.correct then Red
    else if e.value.wrong == e.value.correct then Orange
    else Green
  }

  /** Worked cases of the precedence: one mistake after three correct answers keeps
      weight 3, not 0.5; two and two is orange and not mastered. */
  lemma PrecedenceExamples()
    ensures Weight(map[(3, 7) := Record(3, 1)], 7, 3) == 3.0
    ensures Weight(map[(3, 7) := Record(0, 1)], 3, 7) == 5.0
    ensures CellClass(map[(2, 2) := Record(2, 2)], 2, 2) == Orange
    ensures !IsMastered(Record(2, 2))
  {
  }
}
