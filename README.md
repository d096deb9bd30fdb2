# Workout tracker: data layer and chart computation, in Dafny

This project models the logic behind the screens of a mobile workout-logging
app. Users record workouts: each has a date, and each of its exercises has a
name and a list of sets (reps, weight, reps in reserve). The app keeps those
workouts in memory and draws a weight-progress chart for an exercise over a
date range. The model covers the following, one Dafny module per source file:

- `WorkoutContext` (`workout_context.dfy`): the workout store, a class holding
  the list of workouts newest first. `AddWorkout` puts a workout in front.
  `GetAllExerciseNames` lists the distinct lower-cased exercise names in
  first-occurrence order; its loop fills a set, as the source does.
- `Analytics` (`analytics.dfy`): `parseDate`, `formatDateForChart` and
  `generateChart`. The chart method:
  - filters workouts by calendar day, inclusive at both ends;
  - keeps exercises whose name contains the query, ignoring case;
  - emits one point per occurrence that has a numeric weight, carrying its
    heaviest weight;
  - sorts the points stably by date;
  - reports an input error, "no data", or a chart with its summary.
  The nested `forEach` loops are the methods `CollectPoints` and
  `CollectExercisePoints`. The screen's state (query, range, chart,
  progression series) is the class `AnalyticsScreen`.
- `WorkoutsScreen` (`workouts_screen.dfy`): the workout-entry form, a class
  whose editing handlers change one exercise, set or field in place. Saving
  drops incomplete sets and then unnamed or empty exercises. It reports an
  error when nothing is left; otherwise it adds exactly one workout to the
  store and empties the form.
- `AutoCompleteInput` (`auto_complete_input.dfy`): the case-insensitive
  suggestion filter, and the show/hide state updated by the value-change
  effect, by focusing and by picking a suggestion.
- Shared modules:
  - `Types` (`types.dfy`): the record types.
  - `Strings` (`strings.dfy`): ASCII `toLowerCase`, `includes`, `trim`,
    `split`/`join` on one character, and `Number` on digit strings.
  - `Seqs` (`seqs.dfy`): filter, subsequence and first-occurrence
    de-duplication.
  - `Wrappers` (`wrappers.dfy`): `Option`.

Modelling choices:

- Dates are `Date(year, month, day)` triples compared by year, then month,
  then day.
- `parseDate` splits the text at `/` and reads the first three pieces as
  month, day and year. A missing or non-numeric piece gives `None`, which
  stands for JavaScript's invalid date. An invalid date compares false with
  both ends of the range, so its workout is filtered out.
- Weights are `real`. The source's `parseFloat` is the parameter
  `parse: string -> Option<real>`; `None` is its `NaN`, the result for
  "bodyweight" and other non-numeric text.
- Clock reads are parameters supplied by the caller: the timestamp id and
  today's date text when saving.
- The three outcomes of `generateChart` are the datatype `ChartOutcome`:
  `InputError` and `NoData` stand for its two alerts, `Plotted` for a drawn
  chart. The two outcomes of saving are `SaveOutcome`.

## Model

| member | source | states |
|---|---|---|
| `Strings.ToLower` | apps/workout-app/src/screens/AnalyticsScreen.tsx:51 | the result has the input's length, lower-cases each ASCII letter position by position, and contains no upper-case ASCII letter |
| `Strings.Includes` | apps/workout-app/src/screens/AnalyticsScreen.tsx:51 | `String.prototype.includes`; its contract is carried by `IncludesIffOccurs` |
| `Strings.IncludesIffOccurs` | apps/workout-app/src/screens/AnalyticsScreen.tsx:51 | `includes(s, t)` holds exactly when `t` occurs as a contiguous block of `s` at some position |
| `Strings.Trim` | apps/workout-app/src/screens/AnalyticsScreen.tsx:37 | `String.prototype.trim`; its contract is carried by `TrimEmptyIffBlank` |
| `Strings.TrimEmptyIffBlank` | apps/workout-app/src/screens/AnalyticsScreen.tsx:37 | `trim()` gives the empty (falsy) string exactly when every character is white space, in both directions |
| `Strings.Split` | apps/workout-app/src/screens/AnalyticsScreen.tsx:27 | `split('/')`: there is always at least one piece; the rest of its contract is carried by `SplitParts`, `SplitNoSep` and `SplitJoin` |
| `Strings.SplitParts` | apps/workout-app/src/screens/AnalyticsScreen.tsx:27 | no piece of a split contains the separator, and joining the pieces again gives the original text |
| `Strings.SplitNoSep` | apps/workout-app/src/screens/AnalyticsScreen.tsx:32 | a text without the separator splits into itself alone |
| `Strings.SplitJoin` | apps/workout-app/src/screens/AnalyticsScreen.tsx:32 | splitting a join of separator-free pieces gives those pieces back |
| `Strings.ParseNat` | apps/workout-app/src/screens/AnalyticsScreen.tsx:27 | a piece is a number exactly when it is a non-empty string of decimal digits |
| `Strings.ParseNatToString` | apps/workout-app/src/screens/AnalyticsScreen.tsx:27 | reading a printed number gives the number back |
| `Seqs.FilterUnique` | apps/workout-app/src/screens/WorkoutsScreen.tsx:73 | an in-order subsequence whose elements all pass the test and that has one element per passing position of the input is exactly the filter, duplicates included; the filter contracts below state those three facts |
| `Seqs.Dedup` | apps/workout-app/src/context/WorkoutContext.tsx:24-26 | the contents of a `Set` filled in order; its contract is carried by `DedupMembers`, `DedupNoDuplicates` and `DedupFirstOccurrenceOrder` |
| `Seqs.DedupMembers` | apps/workout-app/src/context/WorkoutContext.tsx:24-26 | the distinct values are exactly the values of the input |
| `Seqs.DedupNoDuplicates` | apps/workout-app/src/context/WorkoutContext.tsx:24-26 | no value is listed twice |
| `Seqs.DedupFirstOccurrenceOrder` | apps/workout-app/src/context/WorkoutContext.tsx:24-26 | a set filled in order lists its values in the order of their first occurrence |
| `WorkoutContext.ExerciseNameIndex` | apps/workout-app/src/context/WorkoutContext.tsx:23-27 | the distinct lower-cased names in first-occurrence order; its contract is carried by `ExerciseNameIndexSpec` |
| `WorkoutContext.ExerciseNameIndexSpec` | apps/workout-app/src/context/WorkoutContext.tsx:23-27 | the name index has no duplicates; a name is in it iff it is the lower-casing of some exercise of some workout; first-occurrence order across workouts, then exercises |
| `WorkoutContext.AllLowerNamesMembers` | apps/workout-app/src/context/WorkoutContext.tsx:25 | the flattened names are exactly the lower-cased names of all exercises of all workouts |
| `WorkoutContext.CaseInsensitiveIndex` | apps/workout-app/src/context/WorkoutContext.tsx:24-26 | names differing only in case ("Bench Press", "bench press") yield exactly one index entry |
| `WorkoutContext.IndexAfterAdd` | apps/workout-app/src/context/WorkoutContext.tsx:19-27 | after a workout is prepended, the index holds the old names plus the new workout's lower-cased names, and nothing else |
| `WorkoutContext.WorkoutStore.constructor` | apps/workout-app/src/context/WorkoutContext.tsx:10-17 | the store starts from the empty seed list |
| `WorkoutContext.WorkoutStore.AddWorkout` | apps/workout-app/src/context/WorkoutContext.tsx:19-21 | length grows by exactly one; the head has the given id, date and exercises; the tail is the previous list unchanged |
| `WorkoutContext.WorkoutStore.GetAllExerciseNames` | apps/workout-app/src/context/WorkoutContext.tsx:23-27 | returns the name index of the current workouts (no duplicates, every lower-cased name, first-occurrence order) and changes nothing, so two calls without an add agree |
| `Analytics.DateLeq` | apps/workout-app/src/screens/AnalyticsScreen.tsx:44 | the `>=`/`<=` comparison of dates, by calendar day; its properties are carried by `DateLeqTotalOrder` |
| `Analytics.DateLeqTotalOrder` | apps/workout-app/src/screens/AnalyticsScreen.tsx:44 | the date order is reflexive, total, antisymmetric and transitive |
| `Analytics.ParseDate` | apps/workout-app/src/screens/AnalyticsScreen.tsx:26-29 | `parseDate`; its contract is carried by `ParseDateSpec` and `ParseFormatDate` |
| `Analytics.ParseDateSpec` | apps/workout-app/src/screens/AnalyticsScreen.tsx:26-29 | a date is obtained exactly when the text has at least three '/'-pieces and the first three are non-empty digit strings; it is then (year, month, day) read from pieces 2, 0 and 1 |
| `Analytics.ParseFormatDate` | apps/workout-app/src/screens/AnalyticsScreen.tsx:26-29 | every day written "M/D/YYYY" parses back to that day |
| `Analytics.FormatDateForChart` | apps/workout-app/src/screens/AnalyticsScreen.tsx:31-34 | a text without '/' becomes itself followed by "/undefined"; the "M/D/YYYY" case is carried by `FormatDateForChartDropsYear` |
| `Analytics.FormatDateForChartDropsYear` | apps/workout-app/src/screens/AnalyticsScreen.tsx:31-34 | "M/D/YYYY" becomes "M/D" for any slash-free month and day texts |
| `Analytics.FormatDateForChartOfDate` | apps/workout-app/src/screens/AnalyticsScreen.tsx:31-34 | the chart label of a day's "M/D/YYYY" text is its month and day joined by '/' |
| `Analytics.InRangeWorkouts` | apps/workout-app/src/screens/AnalyticsScreen.tsx:42-45 | the kept workouts are an in-order subsequence, a workout is kept iff its date parses and lies in [start, end], and the length is the number of such positions, so every copy of a kept workout stays (exactly the filter, by `Seqs.FilterUnique`) |
| `Analytics.RangeIsInclusive` | apps/workout-app/src/screens/AnalyticsScreen.tsx:42-45 | a workout dated exactly the start or exactly the end is kept |
| `Analytics.MatchingExercises` | apps/workout-app/src/screens/AnalyticsScreen.tsx:50-52 | the kept exercises are an in-order subsequence, an exercise is kept iff its lower-cased name contains the lower-cased query, and the length is the number of matching positions, so identical matching exercises all stay |
| `Analytics.NumericWeights` | apps/workout-app/src/screens/AnalyticsScreen.tsx:55-57 | a number is among the weights iff some set's weight text parses to it; no more weights than sets |
| `Analytics.MaxOf` | apps/workout-app/src/screens/AnalyticsScreen.tsx:60 | the maximum is an element of the list and no element exceeds it |
| `Analytics.MaxOfNumericWeights` | apps/workout-app/src/screens/AnalyticsScreen.tsx:55-60 | the point weight is one of the occurrence's parsed set weights and is at least every one of them |
| `Analytics.NonNumericSetsHaveNoWeight` | apps/workout-app/src/screens/AnalyticsScreen.tsx:55-59 | an occurrence whose sets all have non-numeric weights (e.g. "bodyweight") has no numeric weight |
| `Analytics.ExercisePointsMembers` | apps/workout-app/src/screens/AnalyticsScreen.tsx:54-67 | a workout's points are exactly those of its matching exercises, at most one per exercise |
| `Analytics.TraversalPointsMembers` | apps/workout-app/src/screens/AnalyticsScreen.tsx:49-68 | the collected points are exactly the points of the traversed workouts |
| `Analytics.CollectedPointsSound` | apps/workout-app/src/screens/AnalyticsScreen.tsx:42-68 | every point comes from a matching exercise of a stored workout whose date parses into the range, carries that date, and has the occurrence's heaviest numeric weight |
| `Analytics.CollectedPoints` | apps/workout-app/src/screens/AnalyticsScreen.tsx:42-68 | the points the generator collects before sorting; its contract is carried by `CollectedPointsSound`, `CollectedPointsComplete` and `CollectedPointsEmptyIff` |
| `Analytics.Occurrences` | apps/workout-app/src/screens/AnalyticsScreen.tsx:49-66 | the matching exercises with a numeric weight, paired with their workouts, in traversal order; its contract is carried by `OccurrencesMembers` |
| `Analytics.OccurrencesMembers` | apps/workout-app/src/screens/AnalyticsScreen.tsx:49-66 | an occurrence is listed exactly when its workout is one of the list, its exercise belongs to that workout, matches the query and has a numeric weight |
| `Analytics.ExercisePointsAt` | apps/workout-app/src/screens/AnalyticsScreen.tsx:54-66 | within a workout, point i is the one contributed by its i-th matching exercise with a numeric weight, and there are as many points as such exercises |
| `Analytics.TraversalPointsAt` | apps/workout-app/src/screens/AnalyticsScreen.tsx:49-67 | over workouts whose dates parse, point i of the traversal is the one contributed by occurrence i, and the counts agree |
| `Analytics.CollectedPointsComplete` | apps/workout-app/src/screens/AnalyticsScreen.tsx:42-68 | every matching exercise of an in-range workout that has a numeric weight contributes such a point; and the points correspond one for one and in order to the occurrences: there are as many, and point i is emitted by occurrence i (identical occurrences each get their own point) |
| `Analytics.EmittedByUnique` | apps/workout-app/src/screens/AnalyticsScreen.tsx:54-66 | an occurrence emits at most one point, so `CollectedPointsComplete` fixes every collected point |
| `Analytics.CollectedPointsCount` | apps/workout-app/src/screens/AnalyticsScreen.tsx:55-66 | the point count is at most the number of matching exercise occurrences in range |
| `Analytics.CollectPoints` | apps/workout-app/src/screens/AnalyticsScreen.tsx:47-68 | the nested loops collect exactly the points of the in-range workouts' matching exercises, in traversal order |
| `Analytics.CollectExercisePoints` | apps/workout-app/src/screens/AnalyticsScreen.tsx:54-67 | the inner loop pushes one point per matching exercise that has a numeric weight, in exercise order |
| `Analytics.SortByDate` | apps/workout-app/src/screens/AnalyticsScreen.tsx:70 | the stable ascending sort by date; its contract is carried by `SortByDateSpec` |
| `Analytics.SortByDateSpec` | apps/workout-app/src/screens/AnalyticsScreen.tsx:70 | the sorted points are ascending by date, a permutation of the input, and points of equal date keep their traversal order (stable) |
| `Analytics.ChartOf` | apps/workout-app/src/screens/AnalyticsScreen.tsx:79-80 | as many labels and values as points; label i is point i's "M/D" text and value i its weight |
| `Analytics.GenerateChartResult` | apps/workout-app/src/screens/AnalyticsScreen.tsx:36-40 | the outcome is the input error exactly when the exercise name is empty or white space only |
| `Analytics.CollectedPointsEmptyIff` | apps/workout-app/src/screens/AnalyticsScreen.tsx:42-72 | no point is collected exactly when no matching exercise of an in-range workout has a numeric weight |
| `Analytics.NoDataIff` | apps/workout-app/src/screens/AnalyticsScreen.tsx:72-77 | "no data" exactly when the name is not blank and no matching exercise of an in-range workout has a numeric weight |
| `Analytics.PlottedSpec` | apps/workout-app/src/screens/AnalyticsScreen.tsx:70-93 | a plotted chart's points are non-empty, sorted, a stable permutation of the collected points, each emitted by an in-range matching exercise with its heaviest weight; the collected points correspond one for one and in order to the matching occurrences with a numeric weight (point i emitted by occurrence i), so the chart holds exactly one point per occurrence; labels and values are aligned to the points |
| `Analytics.Summarize` | apps/workout-app/src/screens/AnalyticsScreen.tsx:184-188 | the panel's figures; their meaning is carried by `SummarySpec` |
| `Analytics.SummarySpec` | apps/workout-app/src/screens/AnalyticsScreen.tsx:184-188 | count is the number of chart values; starting and latest weights are the first and last chart values, on an earliest and a latest date; progress is latest minus starting |
| `Analytics.AnalyticsScreen.constructor` | apps/workout-app/src/screens/AnalyticsScreen.tsx:18-24 | empty name, range 9/1/2025 to 9/30/2025, no chart, empty series |
| `Analytics.AnalyticsScreen.SetExerciseName` | apps/workout-app/src/screens/AnalyticsScreen.tsx:121 | only the exercise name changes |
| `Analytics.AnalyticsScreen.OnStartDateChange` | apps/workout-app/src/screens/AnalyticsScreen.tsx:95-98 | a picked date becomes the start; a dismissed picker changes nothing |
| `Analytics.AnalyticsScreen.OnEndDateChange` | apps/workout-app/src/screens/AnalyticsScreen.tsx:100-103 | a picked date becomes the end; a dismissed picker changes nothing |
| `Analytics.AnalyticsScreen.GenerateChart` | apps/workout-app/src/screens/AnalyticsScreen.tsx:36-93 | returns `GenerateChartResult`; on input error chart and series are unchanged; on no data both are cleared; otherwise the series is the sorted points and the chart their labels and weights |
| `WorkoutsScreen.WithField` | apps/workout-app/src/screens/WorkoutsScreen.tsx:65 | field f takes the new text and every other field keeps its text |
| `WorkoutsScreen.CleanSets` | apps/workout-app/src/screens/WorkoutsScreen.tsx:73 | the kept sets are an in-order subsequence, a set is kept iff its reps and weight are non-empty, and there are as many as complete positions, so `[s, s, s]` of a complete `s` stays `[s, s, s]` |
| `WorkoutsScreen.CleanExercise` | apps/workout-app/src/screens/WorkoutsScreen.tsx:71-74 | the name is kept and the sets become the complete ones, in order, one per complete position, duplicates included |
| `WorkoutsScreen.CleanExercises` | apps/workout-app/src/screens/WorkoutsScreen.tsx:70-75 | the save-time cleaning; its contract is carried by `CleanExercisesSpec` |
| `WorkoutsScreen.CleanExercisesSpec` | apps/workout-app/src/screens/WorkoutsScreen.tsx:70-80 | the cleaned list is an in-order subsequence of the set-cleaned input with one entry per saveable position, so identical exercises each stay; each entry has a name and at least one set, all complete; each input exercise with a name and a complete set is kept; empty iff no such exercise exists |
| `WorkoutsScreen.NewExerciseIsDropped` | apps/workout-app/src/screens/WorkoutsScreen.tsx:39-75 | an untouched exercise added by "Add Exercise" does not change what is saved |
| `WorkoutsScreen.NewSetIsDropped` | apps/workout-app/src/screens/WorkoutsScreen.tsx:46-73 | an untouched set added by "Add Set" does not change what is saved |
| `WorkoutsScreen.RirDoesNotAffectCleaning` | apps/workout-app/src/screens/WorkoutsScreen.tsx:58-73 | editing reps in reserve never changes whether a set is kept |
| `WorkoutsScreen.ToStoredSet` | apps/workout-app/src/screens/WorkoutsScreen.tsx:72-73 | a stored set has reps and a weight exactly when the form set was complete |
| `WorkoutsScreen.ToStoredExercise` | apps/workout-app/src/screens/WorkoutsScreen.tsx:71-74 | the spread keeps the name and stores every set, in order |
| `WorkoutsScreen.SavedExercisesAreComplete` | apps/workout-app/src/screens/WorkoutsScreen.tsx:70-86 | every saved exercise has a name and at least one set, and every saved set has reps and a weight |
| `WorkoutsScreen.WorkoutsScreen.constructor` | apps/workout-app/src/screens/WorkoutsScreen.tsx:36-37 | empty form, modal hidden |
| `WorkoutsScreen.WorkoutsScreen.OpenModal` | apps/workout-app/src/screens/WorkoutsScreen.tsx:135 | the form becomes visible and its entries are kept |
| `WorkoutsScreen.WorkoutsScreen.CloseModal` | apps/workout-app/src/screens/WorkoutsScreen.tsx:142 | the form is hidden and its entries are kept |
| `WorkoutsScreen.WorkoutsScreen.Cancel` | apps/workout-app/src/screens/WorkoutsScreen.tsx:242-245 | the entries are discarded and the form hidden |
| `WorkoutsScreen.WorkoutsScreen.AddExercise` | apps/workout-app/src/screens/WorkoutsScreen.tsx:39-44 | exactly one exercise with an empty name and one all-empty set is appended; earlier exercises are unchanged |
| `WorkoutsScreen.WorkoutsScreen.AddSet` | apps/workout-app/src/screens/WorkoutsScreen.tsx:46-50 | exercise i's sets grow by one empty set; its name, its existing sets and every other exercise are unchanged |
| `WorkoutsScreen.WorkoutsScreen.ChangeExerciseName` | apps/workout-app/src/screens/WorkoutsScreen.tsx:52-56 | only exercise i's name changes, to the given text |
| `WorkoutsScreen.WorkoutsScreen.ChangeSet` | apps/workout-app/src/screens/WorkoutsScreen.tsx:58-67 | only field f of set j of exercise i changes; every other set and exercise is unchanged |
| `WorkoutsScreen.WorkoutsScreen.SaveWorkout` | apps/workout-app/src/screens/WorkoutsScreen.tsx:69-92 | error iff cleaning leaves nothing, and then store and form are unchanged; otherwise exactly one workout with the cleaned exercises and the given id and date is prepended, and the form is emptied and hidden |
| `AutoCompleteInput.FilterSuggestions` | apps/workout-app/src/components/AutoCompleteInput.tsx:19 | an in-order subsequence of the suggestions, holding those whose lower-casing contains the lower-cased value, one per matching position, so repeated suggestions are all kept |
| `AutoCompleteInput.SuggestionMatchesItself` | apps/workout-app/src/components/AutoCompleteInput.tsx:19 | a suggestion survives filtering by its own text |
| `AutoCompleteInput.AutoComplete.constructor` | apps/workout-app/src/components/AutoCompleteInput.tsx:14-15 | the list starts hidden and empty |
| `AutoCompleteInput.AutoComplete.ChangeText` | apps/workout-app/src/components/AutoCompleteInput.tsx:36 | only the value changes |
| `AutoCompleteInput.AutoComplete.RefreshSuggestions` | apps/workout-app/src/components/AutoCompleteInput.tsx:17-23 | with a non-empty value the list becomes the filtered suggestions and is shown iff non-empty; with an empty value it is hidden and its contents left as they were |
| `AutoCompleteInput.AutoComplete.Focus` | apps/workout-app/src/components/AutoCompleteInput.tsx:37 | focusing shows the list when the value and the list are both non-empty, and otherwise changes nothing |
| `AutoCompleteInput.AutoComplete.SuggestionPress` | apps/workout-app/src/components/AutoCompleteInput.tsx:25-28 | the value becomes the pressed suggestion and the list is hidden |

Consequence of `SuggestionMatchesItself`: pressing a suggestion that differs
from the current text changes the value. That change runs the value-change
effect again (`RefreshSuggestions`), which finds the pressed text among the
suggestions and shows the list again.

## Behaviour that follows the code

- A name made only of white space is rejected like an empty one (`trim()`). The query is not trimmed before matching.
- The summary's progress figure is a display-time computation over the first and last points. Nothing stores it.
- The seed list is empty, so a new store holds no workouts.
- The id of a saved workout is the timestamp `addWorkout` reads. Nothing checks that ids are distinct.
- A workout whose date text does not parse is silently left out of the chart. It is not an error.

## Left out

- Rendering and UI glue: JSX, styling, `Alert.alert` (modelled as outcomes), `DateTimePicker`, `LineChart`, `Modal`, `FlatList`, the chart's colour and stroke settings. Navigation, `App.tsx` and the theme carry no logic. The `useWorkout` guard that throws outside the provider is React plumbing.
- Analytics.ParseDate: JavaScript `Number` also accepts surrounding white space, decimals, exponents, and "" (as 0). `new Date` normalises out-of-range months and days and maps years 0–99 to 1900–1999. The model reads only non-empty digit strings and compares the raw (year, month, day) triple.
- Analytics.DateLeq: compares calendar days, so both ends of the range are inclusive (`RangeIsInclusive`). The source compares `Date` instants, and the model does not capture these consequences:
  - `parseDate` gives local midnight. The default range `new Date("2025-09-01")` to `new Date("2025-09-30")` is UTC midnight, and a picked date carries the time of day it was picked.
  - East of UTC, the default start is later than local midnight on 9/1, so workouts dated 9/1 are dropped.
  - West of UTC, the default end falls on 9/29 local time, so workouts dated 9/30 are dropped.
  - A picked end date with a time of day after midnight still keeps that day's workouts; a picked start date later than midnight drops them.
- Analytics.MaxOf and Summarize: computed over `real`, not IEEE doubles. `toFixed(1)` rounding of the progress figure is not modelled; the delta is exact.
- Analytics.NumericWeights: `parseFloat`'s prefix parsing is the parameter `parse`, not modelled text processing.
- Analytics.SortByDate: `Array.prototype.sort` sorts in place by an engine-chosen algorithm. The model is a functional stable insertion sort whose result is proved sorted, a permutation, and order-preserving among equal dates. It does not model the in-place update.
- Strings.ToLower: only ASCII A–Z are lower-cased. Unicode case mapping is not modelled.
- Strings.IsWhitespace: lists the ECMAScript WhiteSpace and LineTerminator characters that `trim` removes (tab, vertical tab, form feed, space, no-break space, the byte order mark, the Zs space separators, LF, CR, and U+2028/U+2029). Nothing else about Unicode is modelled.
- Ids and dates of saved workouts come from the clock (`Date.now()`, `toLocaleDateString()`) and are parameters here. `handleSaveWorkout` builds an id that `addWorkout` then overwrites with its own timestamp; both are the one `id` parameter. Id uniqueness is not claimed, because nothing enforces it. The locale-dependent date text need not be "M/D/YYYY".
- WorkoutsScreen.WorkoutsScreen.AddSet, ChangeExerciseName, ChangeSet: the source copies the outer array, then mutates exercise and set objects that the previous state shares. The model updates values, so that aliasing is not represented. Indices outside the form are preconditions, because the source throws a `TypeError` on them and the UI only passes indices it rendered.
- React timing: effects running only when `value` changes (so the list can go stale when the suggestions change), `setState` batching, and re-rendering are not modelled. `RefreshSuggestions` is called explicitly.
- The seed data is empty in the source, so there is no fixed dataset.
