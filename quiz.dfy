/** The quiz state: the four globals of the page (app.js lines 9-12) and the operations
    that change them, with what the browser's storage holds as one more field. */
module Quiz {
  import opened Wrappers
  import opened FactStore
  import opened Filters
  import opened Selector

  /** What the storage slot holds: nothing (or an empty string), text that does not
      parse, or a saved store. */
  datatype Stored = Missing | Unparsable | Saved(stats: Stats)

  /** `loadStats`: the saved store, or an empty one when there is none or it does not parse. */
  function Loaded(slot: Stored): (s: Stats)
    ensures slot.Saved? ==> s == slot.stats
    ensures !slot.Saved? ==> s == map[]
  {
    match slot
    case Saved(stats) => stats
    case _ => map[]
  }

  /** The store after `recordAnswer` with the current pair `current`: unchanged when no
      question is shown. */
  function AfterAnswer(stats: Stats, current: Option<Pair>, correct: bool): (r: Stats)
    ensures current.None? ==> r == stats
    ensures current.Some? ==> r == Recorded(stats, current.value.0, current.value.1, correct)
  {
    match current
    case None => stats
    case Some(p) => Recorded(stats, p.0, p.1, correct)
  }

  class Trainer {
    /** The fact store (`stats`). */
    var stats: Stats
    /** The active pills (`activeFilters`). */
    var activeFilters: set<Tag>
    /** The question on screen (`currentPair`), if any. */
    var currentPair: Option<Pair>
    /** Whether its answer is revealed (`answerShown`). */
    var answerShown: bool
    /** The storage slot that `loadStats` reads and `saveStats` writes. */
    var storage: Stored

    /** The filter-set invariants every operation keeps: the set is never empty, 'all'
        excludes every factor, and the factors are those the pills offer, 1 to 10. */
    predicate Valid()
      reads this
    {
      FiltersOk(activeFilters) && TagsInRange(activeFilters)
    }

    /** `init`: the globals start empty with the filter on 'all', then `loadStats` and
        `loadNextQuestion` run. The draw r is taken over the loaded store. */
    constructor (slot: Stored, r: real)
      ensures Valid()
      ensures storage == slot && stats == Loaded(slot) && activeFilters == {All}
      ensures !answerShown && currentPair == Draw(stats, activeFilters, r) && currentPair.Some?
    {
      stats := map[];
      activeFilters := {All};
      currentPair := None;
      answerShown := false;
      storage := slot;
      new;
      LoadStats();
      LoadNextQuestion(r);
    }

    /** `loadStats`. */
    method LoadStats()
      requires Valid()
      modifies this`stats
      ensures Valid() && stats == Loaded(storage)
    {
      match storage
      case Saved(s) =>
        stats := s;
      case _ =>
        stats := map[];
    }

    /** `saveStats`: the slot now holds the store, so the next load gives it back. */
    method SaveStats()
      requires Valid()
      modifies this`storage
      ensures Valid() && storage == Saved(stats)
      ensures Loaded(storage) == stats
    {
      storage := Saved(stats);
    }

    /** `getEntry`: the fact's record, created as zero on first touch; nothing else changes. */
    method GetEntry(a: int, b: int) returns (e: Record)
      requires Valid()
      modifies this`stats
      ensures Valid()
      ensures StatKey(a, b) in stats && e == stats[StatKey(a, b)]
      ensures e == EntryOrZero(old(stats), StatKey(a, b))
      ensures stats.Keys == old(stats).Keys + {StatKey(a, b)}
      ensures forall k :: k in old(stats) ==> stats[k] == old(stats)[k]
    {
      var k := StatKey(a, b);
      if k !in stats {
        stats := stats[k := Record(0, 0)];
      }
      e := stats[k];
    }

    /** `recordAnswer`: without a question nothing happens; otherwise one counter of the
        question's record goes up and the store is saved. */
    method RecordAnswer(correct: bool)
      requires Valid()
      modifies this`stats, this`storage
      ensures Valid()
      ensures stats == AfterAnswer(old(stats), currentPair, correct)
      ensures currentPair.None? ==> storage == old(storage)
      ensures currentPair.Some? ==> storage == Saved(stats)
    {
      if currentPair.None? {
        return;
      }
      var (a, b) := currentPair.value;
      ghost var before := stats;
      var e := GetEntry(a, b);
      var k := StatKey(a, b);
      var next: Record;
      if correct {
        next := e.(correct := e.correct + 1);
      } else {
        next := e.(wrong := e.wrong + 1);
      }
      stats := stats[k := next];
      assert stats == before[k := next];
      RecordedIsUpdate(before, a, b, correct, next);
      SaveStats();
    }

    /** `loadNextQuestion`: hide the answer and draw the next question with r. With the
        invariants of the filter set the draw always yields a question. */
    method LoadNextQuestion(r: real)
      requires Valid()
      modifies this`answerShown, this`currentPair
      ensures Valid()
      ensures !answerShown && currentPair == Draw(stats, activeFilters, r) && currentPair.Some?
    {
      answerShown := false;
      currentPair := PickQuestion(stats, activeFilters, r);
      PoolNotEmpty(activeFilters);
    }

    /** `showAnswer`: reveals the answer only when a question is on screen. */
    method ShowAnswer()
      requires Valid()
      modifies this`answerShown
      ensures Valid()
      ensures answerShown == (old(answerShown) || currentPair.Some?)
    {
      if currentPair.None? || answerShown {
        return;
      }
      answerShown := true;
    }

    /** `handleAnswer`: record the answer, then (after the flash) load the next question,
        drawn over the updated store. */
    method HandleAnswer(correct: bool, r: real)
      requires Valid()
      modifies this`stats, this`storage, this`answerShown, this`currentPair
      ensures Valid()
      ensures stats == AfterAnswer(old(stats), old(currentPair), correct)
      ensures old(currentPair).None? ==> storage == old(storage)
      ensures old(currentPair).Some? ==> storage == Saved(stats)
      ensures !answerShown && currentPair == Draw(stats, activeFilters, r) && currentPair.Some?
    {
      RecordAnswer(correct);
      LoadNextQuestion(r);
    }

    /** `jumpToQuestion`: the filter goes back to 'all' (although the comment at the top
        of the function speaks of a specific filter) and (a, b) becomes the question. */
    method JumpToQuestion(a: int, b: int)
      requires Valid()
      modifies this`activeFilters, this`currentPair, this`answerShown
      ensures Valid() && activeFilters == {All}
      ensures currentPair == Some((a, b)) && !answerShown
    {
      activeFilters := {};
      activeFilters := activeFilters + {All};
      currentPair := Some((a, b));
      answerShown := false;
    }

    /** `toggleFilter`: switch a pill, then load a question drawn with r over the new pool.
        The pills pass 'all' or one of the factors 1 to 10. */
    method ToggleFilter(value: Tag, r: real)
      requires Valid() && (value.Value? ==> 1 <= value.v <= 10)
      modifies this`activeFilters, this`currentPair, this`answerShown
      ensures activeFilters == Toggled(old(activeFilters), value) && Valid()
      ensures !answerShown && currentPair == Draw(stats, activeFilters, r) && currentPair.Some?
    {
      activeFilters := Toggle(activeFilters, value);
      LoadNextQuestion(r);
    }

    /** The reset button, once confirmed: the store is emptied and saved, and a question is
        drawn with r over the empty store. */
    method Reset(r: real)
      requires Valid()
      modifies this`stats, this`storage, this`answerShown, this`currentPair
      ensures Valid() && stats == map[] && storage == Saved(map[])
      ensures !answerShown && currentPair == Draw(stats, activeFilters, r) && currentPair.Some?
    {
      stats := map[];
      SaveStats();
      LoadNextQuestion(r);
    }
  }
}
