/** The filter set: the pills the learner has switched on (app.js lines 10 and 335-350). */
module Filters {
  /** A pill: `'all'`, or one factor written as a string by the program. */
  datatype Tag = All | Value(v: int)

  /** The two invariants of the set: never empty, and `'all'` excludes every factor. */
  predicate FiltersOk(f: set<Tag>)
  {
    f != {} && (All in f ==> f == {All})
  }

  /** Every factor pill names one of the factors 1 to 10 that the pills offer. */
  predicate TagsInRange(f: set<Tag>)
  {
    forall t :: t in f && t.Value? ==> 1 <= t.v <= 10
  }

  /** The filter set after `toggleFilter(value)`, given the set before. */
  function Toggled(f: set<Tag>, value: Tag): (r: set<Tag>)
    ensures FiltersOk(r)
    ensures value == All ==> r == {All}
    // a factor is switched off as the last one standing exactly when the set falls back to 'all'
    ensures value != All ==> (r == {All} <==> f - {All} == {value})
    // otherwise the factor flips and every other factor keeps its state
    ensures value != All && r != {All} ==> (value in r <==> value !in f)
    ensures value != All && r != {All} ==> forall t :: t != All && t != value ==> (t in r <==> t in f)
    ensures TagsInRange(f) && (value.Value? ==> 1 <= value.v <= 10) ==> TagsInRange(r)
  {
    if value == All then {All}
    else
      var g := f - {All};
      if value in g then
        (if g - {value} == {} then {All} else g - {value})
      else g + {value}
  }

  /** The body of `toggleFilter` on the Set, one operation at a time as the program
      performs them: its result is the set `Toggled` describes. */
  method Toggle(f: set<Tag>, value: Tag) returns (g: set<Tag>)
    ensures g == Toggled(f, value)
  {
    g := f;
    if value == All {
      g := {};
      g := g + {All};
    } else {
      g := g - {All};
      if value in g {
        g := g - {value};
        if |g| == 0 {
          assert g == {};
          g := g + {All};
        }
      } else {
        g := g + {value};
      }
    }
  }
}
