# Math trainer quiz engine

This project models the quiz engine of a times-table trainer that runs in a browser page.

**The fact store.** The learner is asked products `a × b` of factors 1 to 10. The page keeps one `{correct, wrong}` record per fact. A fact is stored under its canonical key, lower operand first, so `3 × 7` and `7 × 3` share one record.

**The weighted draw.** Each fact gets a weight from its record:
- never answered: 2;
- more wrong than correct: 5;
- any mistake: 3;
- at least three correct: 0.5;
- otherwise: 1.

The next question is drawn from the 55 facts `1 ≤ a ≤ b ≤ 10`, restricted to the active filter pills. The draw subtracts weights from a random point in `[0, total)` until nothing is left.

**Statistics and colours.** A summary counts mastered facts and totals the correct and wrong answers. A matrix colours each fact never, red, orange or green.

The model is split into modules:

- `FactStore`: the store as `map<(int, int), Record>`, the canonical key, `recordAnswer`'s update, and the `"lo x hi"` key string.
- `Mastery`: `weight` and `cellClass`.
- `Filters`: the filter pills and `toggleFilter`'s set operation.
- `Selector`: `allPairs`, `filteredPairs` and `pickQuestion`.
  - `AllPairs` and `PickQuestion` are methods with loops.
  - They are proved against the functions `Pairs` and `Draw`.
- `Aggregates`: `totalStats`, a loop proved against a left-to-right fold `SeqTotal`. That fold is in turn shown equal to the order-free sum over the store's records.
- `Quiz`: the class `Trainer`.
  - It holds the page's globals `stats`, `activeFilters`, `currentPair` and `answerShown`, plus the storage slot that `loadStats` reads and `saveStats` writes.
  - Its methods are the state-changing operations.

`Math.random() * total` is passed in as the real number `r`. Weights are exact reals.

Where the program's comments or its description differ from its code, the model follows the code:
- `pickQuestion` stops at the first fact whose prefix sum of weights reaches `r` (`r <= 0` after the subtraction). It does not wait for the sum to exceed `r`.
- `jumpToQuestion` puts the filter back to `{'all'}`, although its comment says it sets a specific filter.
- `loadStats` falls back to an empty store only when the stored text is missing, empty or fails to parse.

## Model

| member | source | states |
|---|---|---|
| FactStore.StatKey | app.js:28-31 | the key is ordered (lo ≤ hi) and holds the same two operands |
| FactStore.StatKeySymmetric | app.js:28-31 | both operand orders reach the same record |
| FactStore.SameKeyIffSameFact | app.js:28-31 | two operand pairs share a record exactly when they are equal up to order |
| FactStore.Recorded | app.js:78-84 | the record is created if absent, exactly one counter goes up by one, and every other record is unchanged |
| FactStore.IntStringRoundTrip | app.js:30 | parsing the decimal numeral of an integer gives the integer back |
| FactStore.KeyStringInjective | app.js:28-31 | two facts share the `"lo x hi"` key string exactly when they share the canonical pair, so keying the map by pairs is keying it by strings |
| Mastery.Weight | app.js:40-47 | every weight is in (0, 5]; weight 2 exactly when unseen; 5 exactly when more wrong than correct; 3 exactly when there is a mistake but no more wrong than correct answers; 0.5 exactly when only correct answers, at least three; 1 exactly when only one or two correct answers |
| Mastery.CellClass | app.js:101-107 | green exactly when the record counts as mastered (app.js:95); never exactly when the weight is 2; red exactly when the weight is 5; orange implies weight 3 |
| Mastery.PrecedenceExamples | app.js:40-47 | 3 correct and 1 wrong gives weight 3, not 0.5; 2 and 2 is orange and not mastered |
| Filters.Toggled | app.js:335-347 | the set is never empty and 'all' excludes every factor; toggling 'all' gives {'all'}; a factor flips and others keep their state; the set falls back to {'all'} exactly when the last factor is switched off; factors stay within 1 to 10 |
| Filters.Toggle | app.js:336-347 | the program's step-by-step operations on the Set produce exactly `Toggled` of the old set |
| Selector.PairsLength | app.js:49-55 | there are 55 facts |
| Selector.PairsFacts | app.js:49-55 | the 55 facts are distinct and are exactly the pairs 1 ≤ a ≤ b ≤ 10 |
| Selector.AllPairs | app.js:49-55 | the nested loops produce exactly the list `Pairs()` |
| Selector.KeepMatching | app.js:59-61 | an element is in the result exactly when it is in the list and matches, and the result keeps the list's order |
| Selector.KeepMatchingCounts | app.js:59-61 | every copy of a matching element is kept and no copy of any other |
| Selector.FilteredPairs | app.js:57-62 | a fact is in the pool exactly when it is one of the 55 and 'all' is on or one of its operands is an active factor |
| Selector.PoolOrder | app.js:57-62 | with 'all' the pool is `allPairs`; otherwise it is a subsequence of it, without duplicates |
| Selector.PoolNotEmpty | app.js:57-62 | under the filter-set invariants with factors 1 to 10 the pool is never empty |
| Selector.Weights | app.js:68 | one weight per fact of the pool, all positive |
| Selector.WeightsAt | app.js:68 | the i-th weight is the weight of the i-th fact |
| Selector.SelectedBand | app.js:70-74 | a fact is drawn for exactly the band of r between the sum of the weights before it and that sum plus its own weight |
| Selector.TotalPositive | app.js:69 | a non-empty pool has a positive total weight |
| Selector.Walk | app.js:71-75 | the walk over the weights returns a member of the pool |
| Selector.Draw | app.js:64-76 | no question exactly when the pool is empty; otherwise a fact of the pool, inside 1..10 |
| Selector.WalkSelects | app.js:71-74 | with r below the total, the walk returns the fact on which r lands, before the fallback |
| Selector.DrawIsSelected | app.js:64-76 | for 0 ≤ r < total the draw returns the first fact whose prefix sum of weights reaches r; the fallback at line 75 is never taken |
| Selector.DrawUnique | app.js:64-76 | the fact selected for a given r is unique |
| Selector.PickQuestion | app.js:64-76 | the loop's result is `Draw` of the store, the filters and r |
| Aggregates.MapTotalRemove | app.js:87-98 | the sum over the store's records does not depend on the order they are taken in |
| Aggregates.SeqTotalIsMapTotal | app.js:89-96 | over a list naming each fact once and covering the store, the loop's sum is the sum over the store |
| Aggregates.SeqTotalWithout | app.js:89-96 | the record of a fact that is not listed does not enter the loop's sums |
| Aggregates.TotalsAreStoreSums | app.js:87-98 | `totalCorrect`, `totalWrong` and `mastered` are the sums over the store's entries for the 55 facts |
| Aggregates.EmptyStoreTotals | app.js:375 | with an empty store, as after a reset, every total is zero |
| Aggregates.MasteredAtMost | app.js:95 | no more facts are mastered than are listed |
| Aggregates.SeqTotalAfterUpdate | app.js:78-84 | replacing one listed record moves a sum by the difference of the two records' scores |
| Aggregates.RecordingMovesTotals | app.js:78-98 | a correct answer adds one to `totalCorrect` and never lowers `mastered`; a wrong one adds one to `totalWrong` and never raises it; the other counter is unchanged |
| Aggregates.Accumulate | app.js:89-96 | the loop's three counters are the folds of the mastered, correct and wrong counts over the listed facts, and mastered is at most the number of facts |
| Aggregates.TotalStats | app.js:87-98 | total is 55; the three sums are the folds over the 55 facts; mastered ≤ total |
| Quiz.Trainer.constructor | app.js:384-389 | the filter starts as {'all'} and the filter invariants hold; the store is loaded; a question is drawn and one always exists |
| Quiz.Trainer.LoadStats | app.js:15-22 | the store becomes what the slot yields |
| Quiz.Trainer.SaveStats | app.js:24-26 | the slot holds the store, and loading it gives the store back |
| Quiz.Trainer.GetEntry | app.js:33-37 | the returned record is the stored one or a fresh zero; it is now in the store, and no other record changes |
| Quiz.Trainer.RecordAnswer | app.js:78-84 | without a question nothing changes; otherwise the store is `Recorded` for the current fact and then saved |
| Quiz.Trainer.LoadNextQuestion | app.js:252-254 | the answer is hidden and the question is the draw for r; with the filter invariants kept there always is one |
| Quiz.Trainer.ShowAnswer | app.js:277-279 | the answer becomes shown exactly when a question is on screen |
| Quiz.Trainer.HandleAnswer | app.js:292-307 | without a question the store and the slot are unchanged; otherwise the answer is recorded and saved; then the next question is drawn over the updated store, and one always exists |
| Quiz.Trainer.JumpToQuestion | app.js:310-317 | the filter becomes {'all'}, the chosen fact is the question and its answer is hidden |
| Quiz.Trainer.ToggleFilter | app.js:335-350 | the filter set becomes `Toggled` of the old one and keeps its invariants; the next question is drawn over the new pool and always exists |
| Quiz.Trainer.Reset | app.js:374-378 | the store is emptied and saved, the filters are kept, and a question is drawn over the empty store; one always exists |

## Left out

- Rendering and interaction are not modelled: the matrix, the pills, the summary panel, the cell popover and the event wiring (app.js:113-249, 353-381). They are presentation over browser APIs.
- Timers are not modelled. The 500 ms delay in `handleAnswer` (app.js:304-307) becomes an immediate call, and the long-press and popover timers are dropped. So the model cannot show what happens during the delay: the answer buttons are still visible and `currentPair` is still the old question, so a second click records the same fact again; and a question set by a matrix click in that window (`jumpToQuestion`) is replaced when the pending `loadNextQuestion` runs.
- `localStorage`, `JSON.parse` and `JSON.stringify` are modelled as the slot `Stored`: missing, unparsable or a saved store. JSON that parses but has the wrong shape is not modelled.
- `confirm()` in the reset handler and `scrollIntoView` are browser calls and are not modelled. `Reset` is the confirmed branch.
- `Math.random()` is not modelled: the draw `Math.random() * total` is the input r. Floating-point rounding of the weight sums is not modelled either. Weights and their sums are exact reals, so the fallback at app.js:75 is reached only for r ≥ total.
- The counters are unbounded naturals. JavaScript numbers stop counting exactly past 2^53, which the model does not capture.
- `toggleFilter` is only called by the pills, which pass 'all' or the factors 1 to 10 (app.js:208-209); `Trainer.ToggleFilter` requires that of its argument.
- Filter pills hold factors as strings in the program (`String(a)`). The model holds them as `Tag.Value(n)`, and `String(a)` matching becomes equality on integers.
- The question text, the answer text `a * b` and the flash animation are display only and are not modelled.
