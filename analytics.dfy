/**
 * The progress chart of the analytics screen: workouts whose "M/D/YYYY" date
 * falls inside a date range are searched for exercises whose name contains a
 * query; each such exercise occurrence with at least one numeric set weight
 * becomes one point carrying its heaviest weight; the points are sorted by
 * date and turned into chart labels and values, and summarised.
 *
 * Weights are `real`s. Turning a weight text into a number (`parseFloat`) is
 * the parameter `parse`; `None` is its `NaN`, the result for "bodyweight"
 * and any other non-numeric text.
 */
module Analytics {

  import opened Wrappers
  import opened Types
  import Seqs
  import Strings

  type WeightParser = string -> Option<real>

  // ------------------------------------------------------------------- dates

  /** A calendar day. */
  datatype Date = Date(year: nat, month: nat, day: nat)

  /** Chronological order of calendar days: by year, then month, then day. */
  predicate DateLeq(a: Date, b: Date)
  {
    a.year < b.year
    || (a.year == b.year && (a.month < b.month || (a.month == b.month && a.day <= b.day)))
  }

  lemma DateLeqTotalOrder()
    ensures forall a :: DateLeq(a, a)
    ensures forall a, b :: DateLeq(a, b) || DateLeq(b, a)
    ensures forall a, b :: DateLeq(a, b) && DateLeq(b, a) ==> a == b
    ensures forall a, b, c :: DateLeq(a, b) && DateLeq(b, c) ==> DateLeq(a, c)
  {
  }

  /**
   * `parseDate`: the text is cut at '/', and the first three pieces are read
   * as month, day and year. A piece that is not a number (or a missing piece)
   * makes the date invalid, which is `None`.
   */
  function ParseDate(s: string): Option<Date>
  {
    var parts := Strings.Split(s, '/');
    if |parts| < 3 then None
    else
      match (Strings.ParseNat(parts[0]), Strings.ParseNat(parts[1]), Strings.ParseNat(parts[2]))
      case (Some(month), Some(day), Some(year)) => Some(Date(year, month, day))
      case _ => None
  }

  /**
   * A date is read exactly when the text has at least three pieces and the
   * first three are non-empty digit strings; it is then read from them as
   * month, day and year, and any later pieces are ignored.
   */
  lemma ParseDateSpec(s: string)
    ensures var parts := Strings.Split(s, '/');
            ParseDate(s).Some? <==> |parts| >= 3 && forall k :: 0 <= k < 3 ==> parts[k] != [] && Strings.IsDigits(parts[k])
    ensures var parts := Strings.Split(s, '/');
            ParseDate(s).Some? ==>
              ParseDate(s).value == Date(Strings.DigitsValue(parts[2]), Strings.DigitsValue(parts[0]),
                                         Strings.DigitsValue(parts[1]))
  {
  }

  /** The "M/D/YYYY" text of a day, the form the workout records carry. */
  function FormatDate(d: Date): string
  {
    Strings.Join([Strings.NatToString(d.month), Strings.NatToString(d.day), Strings.NatToString(d.year)], '/')
  }

  /** Every day written as "M/D/YYYY" parses back to that day. */
  lemma ParseFormatDate(d: Date)
    ensures ParseDate(FormatDate(d)) == Some(d)
  {
    var parts := [Strings.NatToString(d.month), Strings.NatToString(d.day), Strings.NatToString(d.year)];
    NumeralsHaveNoSlash(parts);
    Strings.SplitJoin(parts, '/');
    Strings.ParseNatToString(d.month);
    Strings.ParseNatToString(d.day);
    Strings.ParseNatToString(d.year);
  }

  lemma NumeralsHaveNoSlash(parts: seq<string>)
    requires forall k :: 0 <= k < |parts| ==> Strings.IsDigits(parts[k])
    ensures forall k :: 0 <= k < |parts| ==> '/' !in parts[k]
  {
    forall k | 0 <= k < |parts| ensures '/' !in parts[k] {
      assert forall i :: 0 <= i < |parts[k]| ==> parts[k][i] != '/';
    }
  }

  /**
   * `formatDateForChart`: the first two '/'-separated pieces joined by '/'.
   * A text without any '/' has no second piece, which the template renders
   * as "undefined".
   */
  function FormatDateForChart(s: string): (r: string)
    ensures '/' !in s ==> r == s + "/undefined"
  {
    Strings.SplitNoSep(s, '/');
    var parts := Strings.Split(s, '/');
    if |parts| >= 2 then parts[0] + "/" + parts[1] else parts[0] + "/undefined"
  }

  /** "M/D/YYYY" becomes "M/D". */
  lemma FormatDateForChartDropsYear(month: string, day: string, year: string)
    requires '/' !in month && '/' !in day
    ensures FormatDateForChart(month + "/" + day + "/" + year) == month + "/" + day
  {
    Strings.SplitAtSep(month, day + "/" + year, '/');
    assert month + "/" + day + "/" + year == month + ['/'] + (day + "/" + year);
    Strings.SplitAtSep(day, year, '/');
    assert day + "/" + year == day + ['/'] + year;
  }

  lemma FormatDateForChartOfDate(d: Date)
    ensures FormatDateForChart(FormatDate(d)) == Strings.NatToString(d.month) + "/" + Strings.NatToString(d.day)
  {
    var m, dd, y := Strings.NatToString(d.month), Strings.NatToString(d.day), Strings.NatToString(d.year);
    NumeralsHaveNoSlash([m, dd, y]);
    assert Strings.Join([dd, y], '/') == dd + "/" + y by {
      assert [dd, y][1..] == [y];
    }
    assert [m, dd, y][1..] == [dd, y];
    assert FormatDate(d) == m + "/" + dd + "/" + y;
    FormatDateForChartDropsYear(m, dd, y);
  }

  // ---------------------------------------------------------------- filtering

  predicate InRange(d: Date, start: Date, end: Date)
  {
    DateLeq(start, d) && DateLeq(d, end)
  }

  /** The workout's date parses and lies in [start, end]; an invalid date compares false with both ends. */
  predicate DatedInRange(w: Workout, start: Date, end: Date)
  {
    match ParseDate(w.date)
    case Some(d) => InRange(d, start, end)
    case None => false
  }

  function IsDatedInRange(start: Date, end: Date): Workout -> bool
  {
    (w: Workout) => DatedInRange(w, start, end)
  }

  /** The workouts kept by the date filter, in their stored order. */
  function InRangeWorkouts(workouts: seq<Workout>, start: Date, end: Date): (r: seq<Workout>)
    ensures Seqs.IsSubseq(r, workouts)
    ensures forall w :: w in r <==> w in workouts && DatedInRange(w, start, end)
    ensures |r| == Seqs.Count(IsDatedInRange(start, end), workouts)
  {
    var keep := IsDatedInRange(start, end);
    Seqs.FilterIsSubseq(keep, workouts);
    Seqs.FilterMembers(keep, workouts);
    Seqs.FilterCount(keep, workouts);
    Seqs.Filter(keep, workouts)
  }

  /** Both ends of the range are kept: a workout dated `start` or `end` passes the filter. */
  lemma RangeIsInclusive(w: Workout, start: Date, end: Date)
    requires DateLeq(start, end)
    requires ParseDate(w.date) == Some(start) || ParseDate(w.date) == Some(end)
    ensures DatedInRange(w, start, end)
  {
    DateLeqTotalOrder();
  }

  function NameMatches(query: string): Exercise -> bool
  {
    (e: Exercise) => Strings.IncludesIgnoringCase(e.name, query)
  }

  /** The exercises whose name contains the query, in order. */
  function MatchingExercises(exercises: seq<Exercise>, query: string): (r: seq<Exercise>)
    ensures Seqs.IsSubseq(r, exercises)
    ensures forall e :: e in r <==> e in exercises && Strings.IncludesIgnoringCase(e.name, query)
    ensures |r| == Seqs.Count(NameMatches(query), exercises)
  {
    var keep := NameMatches(query);
    Seqs.FilterIsSubseq(keep, exercises);
    Seqs.FilterMembers(keep, exercises);
    Seqs.FilterCount(keep, exercises);
    Seqs.Filter(keep, exercises)
  }

  // ------------------------------------------------------------------ weights

  /** The set weights that parse as numbers, in set order. */
  function NumericWeights(sets: seq<SetEntry>, parse: WeightParser): (r: seq<real>)
    ensures |r| <= |sets|
    ensures forall x :: x in r <==> exists i :: 0 <= i < |sets| && parse(sets[i].weight) == Some(x)
  {
    if sets == [] then []
    else
      var rest := NumericWeights(sets[1..], parse);
      assert forall i :: 1 <= i < |sets| ==> sets[1..][i - 1] == sets[i];
      (match parse(sets[0].weight) case Some(x) => [x] case None => []) + rest
  }

  /** `Math.max` of a non-empty list. */
  function MaxOf(xs: seq<real>): (m: real)
    requires |xs| > 0
    ensures m in xs
    ensures forall x :: x in xs ==> x <= m
  {
    if |xs| == 1 then xs[0]
    else
      var m := MaxOf(xs[1..]);
      assert xs == [xs[0]] + xs[1..];
      if xs[0] > m then xs[0] else m
  }

  /** `x` is one of the parsed weights of `sets` and no parsed weight exceeds it. */
  ghost predicate IsMaxWeight(x: real, sets: seq<SetEntry>, parse: WeightParser)
  {
    && (exists i :: 0 <= i < |sets| && parse(sets[i].weight) == Some(x))
    && (forall i :: 0 <= i < |sets| && parse(sets[i].weight).Some? ==> parse(sets[i].weight).value <= x)
  }

  lemma MaxOfNumericWeights(sets: seq<SetEntry>, parse: WeightParser)
    requires NumericWeights(sets, parse) != []
    ensures IsMaxWeight(MaxOf(NumericWeights(sets, parse)), sets, parse)
  {
    var ws := NumericWeights(sets, parse);
    var m := MaxOf(ws);
    forall i | 0 <= i < |sets| && parse(sets[i].weight).Some?
      ensures parse(sets[i].weight).value <= m
    {
      assert parse(sets[i].weight).value in ws;
    }
  }

  /** An occurrence whose sets all carry a non-numeric weight, such as "bodyweight", has no numeric weight. */
  lemma {:induction false} NonNumericSetsHaveNoWeight(sets: seq<SetEntry>, parse: WeightParser)
    requires forall i :: 0 <= i < |sets| ==> parse(sets[i].weight) == None
    ensures NumericWeights(sets, parse) == []
  {
    if sets != [] {
      assert parse(sets[0].weight) == None;
      NonNumericSetsHaveNoWeight(sets[1..], parse);
    }
  }

  // ------------------------------------------------------------------- points

  /** One chart point: the workout's date text, the heaviest weight, and the parsed date. */
  datatype Point = Point(date: string, weight: real, dateObj: Date)

  /** The point an exercise occurrence contributes: none when no weight is numeric. */
  function OccurrencePoints(date: string, d: Date, e: Exercise, parse: WeightParser): seq<Point>
  {
    var weights := NumericWeights(e.sets, parse);
    if |weights| > 0 then [Point(date, MaxOf(weights), d)] else []
  }

  /** The points of a workout's matching exercises, in exercise order. */
  function ExercisePoints(date: string, d: Date, exercises: seq<Exercise>, parse: WeightParser): seq<Point>
  {
    if exercises == [] then []
    else
      ExercisePoints(date, d, exercises[..|exercises| - 1], parse)
      + OccurrencePoints(date, d, exercises[|exercises| - 1], parse)
  }

  function WorkoutPoints(w: Workout, query: string, parse: WeightParser): seq<Point>
  {
    match ParseDate(w.date)
    case Some(d) => ExercisePoints(w.date, d, MatchingExercises(w.exercises, query), parse)
    case None => []
  }

  /** The points of a list of workouts in traversal order: workouts, then exercises. */
  function TraversalPoints(workouts: seq<Workout>, query: string, parse: WeightParser): seq<Point>
  {
    if workouts == [] then []
    else
      TraversalPoints(workouts[..|workouts| - 1], query, parse)
      + WorkoutPoints(workouts[|workouts| - 1], query, parse)
  }

  /** The points `generateChart` collects before sorting. */
  function CollectedPoints(workouts: seq<Workout>, query: string, start: Date, end: Date, parse: WeightParser): seq<Point>
  {
    TraversalPoints(InRangeWorkouts(workouts, start, end), query, parse)
  }

  lemma ExercisePointsSnoc(date: string, d: Date, exercises: seq<Exercise>, j: nat, parse: WeightParser)
    requires j < |exercises|
    ensures ExercisePoints(date, d, exercises[..j + 1], parse)
            == ExercisePoints(date, d, exercises[..j], parse) + OccurrencePoints(date, d, exercises[j], parse)
  {
    assert exercises[..j + 1][..j] == exercises[..j];
  }

  lemma TraversalPointsSnoc(workouts: seq<Workout>, k: nat, query: string, parse: WeightParser)
    requires k < |workouts|
    ensures TraversalPoints(workouts[..k + 1], query, parse)
            == TraversalPoints(workouts[..k], query, parse) + WorkoutPoints(workouts[k], query, parse)
  {
    assert workouts[..k + 1][..k] == workouts[..k];
  }

  lemma {:induction false} ExercisePointsMembers(date: string, d: Date, exercises: seq<Exercise>, parse: WeightParser)
    ensures forall p :: p in ExercisePoints(date, d, exercises, parse) <==>
              exists e :: e in exercises && p in OccurrencePoints(date, d, e, parse)
    ensures |ExercisePoints(date, d, exercises, parse)| <= |exercises|
  {
    if exercises != [] {
      var prefix, e := exercises[..|exercises| - 1], exercises[|exercises| - 1];
      ExercisePointsMembers(date, d, prefix, parse);
      assert exercises == prefix + [e];
    }
  }

  lemma {:induction false} TraversalPointsMembers(workouts: seq<Workout>, query: string, parse: WeightParser)
    ensures forall p :: p in TraversalPoints(workouts, query, parse) <==>
              exists w :: w in workouts && p in WorkoutPoints(w, query, parse)
  {
    if workouts != [] {
      var prefix, w := workouts[..|workouts| - 1], workouts[|workouts| - 1];
      TraversalPointsMembers(prefix, query, parse);
      assert workouts == prefix + [w];
    }
  }

  /** `p` is the point that exercise `e` of workout `w` contributes. */
  ghost predicate EmittedBy(p: Point, w: Workout, e: Exercise, query: string, start: Date, end: Date, parse: WeightParser)
  {
    && e in w.exercises
    && Strings.IncludesIgnoringCase(e.name, query)
    && ParseDate(w.date) == Some(p.dateObj)
    && InRange(p.dateObj, start, end)
    && p.date == w.date
    && IsMaxWeight(p.weight, e.sets, parse)
  }

  /**
   * Every collected point comes from a matching exercise of a workout dated
   * inside the range, and carries that exercise's heaviest numeric weight.
   */
  lemma CollectedPointsSound(workouts: seq<Workout>, query: string, start: Date, end: Date, parse: WeightParser)
    ensures forall p :: p in CollectedPoints(workouts, query, start, end, parse) ==>
              exists w, e :: w in workouts && EmittedBy(p, w, e, query, start, end, parse)
  {
    var filtered := InRangeWorkouts(workouts, start, end);
    TraversalPointsMembers(filtered, query, parse);
    forall p | p in CollectedPoints(workouts, query, start, end, parse)
      ensures exists w, e :: w in workouts && EmittedBy(p, w, e, query, start, end, parse)
    {
      var w :| w in filtered && p in WorkoutPoints(w, query, parse);
      var e := WorkoutPointSound(p, w, query, start, end, parse);
      assert w in workouts && EmittedBy(p, w, e, query, start, end, parse);
    }
  }

  lemma WorkoutPointSound(p: Point, w: Workout, query: string, start: Date, end: Date, parse: WeightParser)
    returns (e: Exercise)
    requires DatedInRange(w, start, end) && p in WorkoutPoints(w, query, parse)
    ensures EmittedBy(p, w, e, query, start, end, parse)
  {
    var d := ParseDate(w.date).value;
    assert InRange(d, start, end);
    var matching := MatchingExercises(w.exercises, query);
    assert WorkoutPoints(w, query, parse) == ExercisePoints(w.date, d, matching, parse);
    ExercisePointsMembers(w.date, d, matching, parse);
    e :| e in matching && p in OccurrencePoints(w.date, d, e, parse);
    assert e in w.exercises && Strings.IncludesIgnoringCase(e.name, query);
    assert p == Point(w.date, MaxOf(NumericWeights(e.sets, parse)), d);
    MaxOfNumericWeights(e.sets, parse);
  }

  /**
   * Every matching exercise of a workout dated inside the range that has a
   * numeric weight contributes a point, and the points are those of the
   * occurrences, one each and in traversal order: point `i` is the one that
   * occurrence `i` emits.
   */
  lemma CollectedPointsComplete(workouts: seq<Workout>, query: string, start: Date, end: Date, parse: WeightParser)
    ensures forall w, e :: (w in workouts && e in w.exercises && DatedInRange(w, start, end)
                            && Strings.IncludesIgnoringCase(e.name, query) && NumericWeights(e.sets, parse) != []) ==>
              exists p :: p in CollectedPoints(workouts, query, start, end, parse)
                && EmittedBy(p, w, e, query, start, end, parse)
    ensures var points := CollectedPoints(workouts, query, start, end, parse);
            var occ := Occurrences(InRangeWorkouts(workouts, start, end), query, parse);
            && |points| == |occ|
            && forall i :: 0 <= i < |occ| ==>
                 occ[i].workout in workouts && EmittedBy(points[i], occ[i].workout, occ[i].exercise, query, start, end, parse)
  {
    CollectedPointsCover(workouts, query, start, end, parse);
    CollectedPointsInOrder(workouts, query, start, end, parse);
  }

  lemma CollectedPointsCover(workouts: seq<Workout>, query: string, start: Date, end: Date, parse: WeightParser)
    ensures forall w, e :: (w in workouts && e in w.exercises && DatedInRange(w, start, end)
                            && Strings.IncludesIgnoringCase(e.name, query) && NumericWeights(e.sets, parse) != []) ==>
              exists p :: p in CollectedPoints(workouts, query, start, end, parse)
                && EmittedBy(p, w, e, query, start, end, parse)
  {
    var filtered := InRangeWorkouts(workouts, start, end);
    TraversalPointsMembers(filtered, query, parse);
    forall w, e | w in workouts && e in w.exercises && DatedInRange(w, start, end)
      && Strings.IncludesIgnoringCase(e.name, query) && NumericWeights(e.sets, parse) != []
      ensures exists p :: p in CollectedPoints(workouts, query, start, end, parse)
                && EmittedBy(p, w, e, query, start, end, parse)
    {
      var d := ParseDate(w.date).value;
      var matching := MatchingExercises(w.exercises, query);
      ExercisePointsMembers(w.date, d, matching, parse);
      var p := Point(w.date, MaxOf(NumericWeights(e.sets, parse)), d);
      assert p in OccurrencePoints(w.date, d, e, parse);
      assert p in WorkoutPoints(w, query, parse);
      MaxOfNumericWeights(e.sets, parse);
      assert EmittedBy(p, w, e, query, start, end, parse);
    }
  }

  /** Point `i` of the collected list is the one occurrence `i` emits. */
  lemma CollectedPointsInOrder(workouts: seq<Workout>, query: string, start: Date, end: Date, parse: WeightParser)
    ensures var points := CollectedPoints(workouts, query, start, end, parse);
            var occ := Occurrences(InRangeWorkouts(workouts, start, end), query, parse);
            && |points| == |occ|
            && forall i :: 0 <= i < |occ| ==>
                 occ[i].workout in workouts && EmittedBy(points[i], occ[i].workout, occ[i].exercise, query, start, end, parse)
  {
    var filtered := InRangeWorkouts(workouts, start, end);
    var points := CollectedPoints(workouts, query, start, end, parse);
    var occ := Occurrences(filtered, query, parse);
    TraversalPointsAt(filtered, query, parse);
    OccurrencesMembers(filtered, query, parse);
    forall i | 0 <= i < |occ|
      ensures occ[i].workout in workouts && EmittedBy(points[i], occ[i].workout, occ[i].exercise, query, start, end, parse)
    {
      assert occ[i] in occ;
      OccurrencePointEmitted(points[i], occ[i].workout, occ[i].exercise, query, start, end, parse);
    }
  }

  /** The single point an in-range matching occurrence emits is the one `EmittedBy` describes. */
  lemma OccurrencePointEmitted(p: Point, w: Workout, e: Exercise, query: string, start: Date, end: Date, parse: WeightParser)
    requires DatedInRange(w, start, end) && e in w.exercises && Strings.IncludesIgnoringCase(e.name, query)
    requires [p] == OccurrencePoints(w.date, ParseDate(w.date).value, e, parse)
    ensures EmittedBy(p, w, e, query, start, end, parse)
  {
    MaxOfNumericWeights(e.sets, parse);
  }

  /** An occurrence emits at most one point: the date text, the date and the heaviest weight fix it. */
  lemma EmittedByUnique(p: Point, q: Point, w: Workout, e: Exercise, query: string, start: Date, end: Date,
                        parse: WeightParser)
    requires EmittedBy(p, w, e, query, start, end, parse) && EmittedBy(q, w, e, query, start, end, parse)
    ensures p == q
  {
    var i :| 0 <= i < |e.sets| && parse(e.sets[i].weight) == Some(p.weight);
    var j :| 0 <= j < |e.sets| && parse(e.sets[j].weight) == Some(q.weight);
    assert p.weight <= q.weight && q.weight <= p.weight;
  }

  /** The number of matching exercise occurrences in a list of workouts. */
  function MatchingOccurrences(workouts: seq<Workout>, query: string): nat
  {
    if workouts == [] then 0
    else MatchingOccurrences(workouts[..|workouts| - 1], query)
         + |MatchingExercises(workouts[|workouts| - 1].exercises, query)|
  }

  /** The exercise has at least one set whose weight is a number. */
  function HasNumericWeight(parse: WeightParser): Exercise -> bool
  {
    (e: Exercise) => NumericWeights(e.sets, parse) != []
  }

  /** A matching exercise occurrence: a workout and one of its exercises. */
  datatype Occurrence = Occurrence(workout: Workout, exercise: Exercise)

  function OccurrenceIn(w: Workout): Exercise -> Occurrence
  {
    (e: Exercise) => Occurrence(w, e)
  }

  /** The workout's matching exercises that have a numeric weight, in order, each paired with the workout. */
  function WorkoutOccurrences(w: Workout, query: string, parse: WeightParser): seq<Occurrence>
  {
    Seqs.Map(OccurrenceIn(w), Seqs.Filter(HasNumericWeight(parse), MatchingExercises(w.exercises, query)))
  }

  /** The matching exercise occurrences with a numeric weight, in traversal order: workouts, then exercises. */
  function Occurrences(workouts: seq<Workout>, query: string, parse: WeightParser): seq<Occurrence>
  {
    if workouts == [] then []
    else Occurrences(workouts[..|workouts| - 1], query, parse) + WorkoutOccurrences(workouts[|workouts| - 1], query, parse)
  }

  lemma WorkoutOccurrencesMembers(w: Workout, query: string, parse: WeightParser)
    ensures forall o :: o in WorkoutOccurrences(w, query, parse) <==>
              o.workout == w && o.exercise in w.exercises
              && Strings.IncludesIgnoringCase(o.exercise.name, query) && NumericWeights(o.exercise.sets, parse) != []
  {
    var filt := Seqs.Filter(HasNumericWeight(parse), MatchingExercises(w.exercises, query));
    Seqs.FilterMembers(HasNumericWeight(parse), MatchingExercises(w.exercises, query));
    var wo := WorkoutOccurrences(w, query, parse);
    forall o: Occurrence | o in wo ensures o.workout == w && o.exercise in filt {
      var k :| 0 <= k < |wo| && wo[k] == o;
      assert filt[k] in filt;
    }
    forall o: Occurrence | o.workout == w && o.exercise in filt ensures o in wo {
      var k :| 0 <= k < |filt| && filt[k] == o.exercise;
      assert wo[k] == o;
    }
  }

  /**
   * An occurrence is listed exactly when its workout is one of the list, its
   * exercise belongs to that workout, matches the query, and has a numeric weight.
   */
  lemma {:induction false} OccurrencesMembers(workouts: seq<Workout>, query: string, parse: WeightParser)
    ensures forall o :: o in Occurrences(workouts, query, parse) <==>
              o.workout in workouts && o.exercise in o.workout.exercises
              && Strings.IncludesIgnoringCase(o.exercise.name, query) && NumericWeights(o.exercise.sets, parse) != []
  {
    if workouts != [] {
      var prefix, w := workouts[..|workouts| - 1], workouts[|workouts| - 1];
      OccurrencesMembers(prefix, query, parse);
      WorkoutOccurrencesMembers(w, query, parse);
      assert workouts == prefix + [w];
    }
  }

  /** Point `i` of `points` is the one occurrence `i` contributes, and there are as many of each. */
  ghost predicate EmitsInOrder(points: seq<Point>, occ: seq<Occurrence>, parse: WeightParser)
  {
    && |points| == |occ|
    && forall i :: 0 <= i < |occ| ==>
         ParseDate(occ[i].workout.date).Some?
         && [points[i]] == OccurrencePoints(occ[i].workout.date, ParseDate(occ[i].workout.date).value,
                                            occ[i].exercise, parse)
  }

  lemma EmitsInOrderAppend(p1: seq<Point>, o1: seq<Occurrence>, p2: seq<Point>, o2: seq<Occurrence>,
                           parse: WeightParser)
    requires EmitsInOrder(p1, o1, parse) && EmitsInOrder(p2, o2, parse)
    ensures EmitsInOrder(p1 + p2, o1 + o2, parse)
  {
    forall i | 0 <= i < |o1 + o2|
      ensures ParseDate((o1 + o2)[i].workout.date).Some?
              && [(p1 + p2)[i]] == OccurrencePoints((o1 + o2)[i].workout.date, ParseDate((o1 + o2)[i].workout.date).value,
                                                    (o1 + o2)[i].exercise, parse)
    {
      if i < |o1| {
        assert (o1 + o2)[i] == o1[i] && (p1 + p2)[i] == p1[i];
      } else {
        assert (o1 + o2)[i] == o2[i - |o1|] && (p1 + p2)[i] == p2[i - |o1|];
      }
    }
  }

  /**
   * Point `i` of a workout's exercise list is the one its `i`-th exercise with
   * a numeric weight contributes.
   */
  lemma {:induction false} ExercisePointsAt(w: Workout, d: Date, exercises: seq<Exercise>, parse: WeightParser)
    requires ParseDate(w.date) == Some(d)
    ensures EmitsInOrder(ExercisePoints(w.date, d, exercises, parse),
                         Seqs.Map(OccurrenceIn(w), Seqs.Filter(HasNumericWeight(parse), exercises)), parse)
  {
    var keep, f := HasNumericWeight(parse), OccurrenceIn(w);
    if exercises != [] {
      var prefix, e := exercises[..|exercises| - 1], exercises[|exercises| - 1];
      ExercisePointsAt(w, d, prefix, parse);
      assert exercises == prefix + [e];
      var tail := if keep(e) then [f(e)] else [];
      assert Seqs.Map(f, Seqs.Filter(keep, exercises)) == Seqs.Map(f, Seqs.Filter(keep, prefix)) + tail by {
        Seqs.FilterSnoc(keep, prefix, e);
        if keep(e) {
          Seqs.MapSnoc(f, Seqs.Filter(keep, prefix), e);
        } else {
          assert Seqs.Filter(keep, exercises) == Seqs.Filter(keep, prefix);
        }
      }
      OccurrenceEmits(w, d, e, parse);
      assert ExercisePoints(w.date, d, exercises, parse)
             == ExercisePoints(w.date, d, prefix, parse) + OccurrencePoints(w.date, d, e, parse);
      EmitsInOrderAppend(ExercisePoints(w.date, d, prefix, parse), Seqs.Map(f, Seqs.Filter(keep, prefix)),
                         OccurrencePoints(w.date, d, e, parse), tail, parse);
    } else {
      assert Seqs.Map(f, Seqs.Filter(keep, exercises)) == [];
    }
  }

  /** An exercise contributes its one point exactly when it has a numeric weight. */
  lemma OccurrenceEmits(w: Workout, d: Date, e: Exercise, parse: WeightParser)
    requires ParseDate(w.date) == Some(d)
    ensures EmitsInOrder(OccurrencePoints(w.date, d, e, parse),
                         if HasNumericWeight(parse)(e) then [Occurrence(w, e)] else [], parse)
  {
  }

  /** Over workouts whose dates all parse, point `i` of the traversal is the one occurrence `i` contributes. */
  lemma {:induction false} TraversalPointsAt(workouts: seq<Workout>, query: string, parse: WeightParser)
    requires forall w :: w in workouts ==> ParseDate(w.date).Some?
    ensures EmitsInOrder(TraversalPoints(workouts, query, parse), Occurrences(workouts, query, parse), parse)
  {
    if workouts != [] {
      var prefix, w := workouts[..|workouts| - 1], workouts[|workouts| - 1];
      assert workouts == prefix + [w];
      TraversalPointsAt(prefix, query, parse);
      var d := ParseDate(w.date).value;
      ExercisePointsAt(w, d, MatchingExercises(w.exercises, query), parse);
      assert TraversalPoints(workouts, query, parse)
             == TraversalPoints(prefix, query, parse) + ExercisePoints(w.date, d, MatchingExercises(w.exercises, query), parse);
      EmitsInOrderAppend(TraversalPoints(prefix, query, parse), Occurrences(prefix, query, parse),
                         ExercisePoints(w.date, d, MatchingExercises(w.exercises, query), parse),
                         WorkoutOccurrences(w, query, parse), parse);
    }
  }

  /** At most one point per matching occurrence in range: occurrences without a numeric weight add none. */
  lemma {:induction false} TraversalPointsCount(workouts: seq<Workout>, query: string, parse: WeightParser)
    ensures |TraversalPoints(workouts, query, parse)| <= MatchingOccurrences(workouts, query)
  {
    if workouts != [] {
      var w := workouts[|workouts| - 1];
      TraversalPointsCount(workouts[..|workouts| - 1], query, parse);
      match ParseDate(w.date)
      case Some(d) => ExercisePointsMembers(w.date, d, MatchingExercises(w.exercises, query), parse);
      case None =>
    }
  }

  lemma CollectedPointsCount(workouts: seq<Workout>, query: string, start: Date, end: Date, parse: WeightParser)
    ensures |CollectedPoints(workouts, query, start, end, parse)|
            <= MatchingOccurrences(InRangeWorkouts(workouts, start, end), query)
  {
    TraversalPointsCount(InRangeWorkouts(workouts, start, end), query, parse);
  }

  lemma InRangeWorkoutDated(workouts: seq<Workout>, start: Date, end: Date, i: nat)
    requires i < |InRangeWorkouts(workouts, start, end)|
    ensures ParseDate(InRangeWorkouts(workouts, start, end)[i].date).Some?
  {
    assert InRangeWorkouts(workouts, start, end)[i] in InRangeWorkouts(workouts, start, end);
  }

  /**
   * The nested `forEach` of `generateChart`: walks the workouts kept by the
   * date filter and their matching exercises, pushing one point for each
   * exercise with a numeric weight.
   */
  method CollectPoints(workouts: seq<Workout>, query: string, start: Date, end: Date, parse: WeightParser)
    returns (points: seq<Point>)
    ensures points == CollectedPoints(workouts, query, start, end, parse)
  {
    var filtered := InRangeWorkouts(workouts, start, end);
    points := [];
    var i := 0;
    while i < |filtered|
      invariant 0 <= i <= |filtered|
      invariant points == TraversalPoints(filtered[..i], query, parse)
    {
      var w := filtered[i];
      InRangeWorkoutDated(workouts, start, end, i);
      var matching := MatchingExercises(w.exercises, query);
      var found := CollectExercisePoints(w.date, ParseDate(w.date).value, matching, parse);
      points := points + found;
      TraversalPointsSnoc(filtered, i, query, parse);
      i := i + 1;
    }
    assert filtered[..i] == filtered;
  }

  /** The inner `forEach` over one workout's matching exercises. */
  method CollectExercisePoints(date: string, d: Date, matching: seq<Exercise>, parse: WeightParser)
    returns (points: seq<Point>)
    ensures points == ExercisePoints(date, d, matching, parse)
  {
    points := [];
    var j := 0;
    while j < |matching|
      invariant 0 <= j <= |matching|
      invariant points == ExercisePoints(date, d, matching[..j], parse)
    {
      var weights := NumericWeights(matching[j].sets, parse);
      if |weights| > 0 {
        points := points + [Point(date, MaxOf(weights), d)];
      }
      ExercisePointsSnoc(date, d, matching, j, parse);
      j := j + 1;
    }
    assert matching[..j] == matching;
  }

  // ------------------------------------------------------------------ sorting

  predicate SortedByDate(points: seq<Point>)
  {
    forall i, j :: 0 <= i < j < |points| ==> DateLeq(points[i].dateObj, points[j].dateObj)
  }

  /** The points dated `d`, in order. */
  function OnDate(points: seq<Point>, d: Date): seq<Point>
  {
    Seqs.Filter(IsDated(d), points)
  }

  function IsDated(d: Date): Point -> bool
  {
    (p: Point) => p.dateObj == d
  }

  /** Places `p` in front of the first point not earlier than it. */
  function Insert(p: Point, sorted: seq<Point>): seq<Point>
  {
    if sorted == [] || DateLeq(p.dateObj, sorted[0].dateObj) then [p] + sorted
    else [sorted[0]] + Insert(p, sorted[1..])
  }

  /**
   * The stable sort by date of `exerciseData.sort((a, b) => a.dateObj - b.dateObj)`,
   * written as an insertion sort.
   */
  function SortByDate(points: seq<Point>): seq<Point>
  {
    if points == [] then [] else Insert(points[0], SortByDate(points[1..]))
  }

  lemma {:induction false} InsertPermutes(p: Point, s: seq<Point>)
    ensures multiset(Insert(p, s)) == multiset{p} + multiset(s)
  {
    if s != [] && !DateLeq(p.dateObj, s[0].dateObj) {
      InsertPermutes(p, s[1..]);
      assert s == [s[0]] + s[1..];
    }
  }

  lemma {:induction false} InsertSorted(p: Point, s: seq<Point>)
    requires SortedByDate(s)
    ensures SortedByDate(Insert(p, s))
  {
    DateLeqTotalOrder();
    if s != [] && !DateLeq(p.dateObj, s[0].dateObj) {
      InsertSorted(p, s[1..]);
      InsertPermutes(p, s[1..]);
      var r := Insert(p, s[1..]);
      forall q | q in r ensures DateLeq(s[0].dateObj, q.dateObj) {
        assert q in multiset(r);
        if q != p {
          assert q in multiset(s[1..]);
          assert q in s[1..];
        }
      }
      assert forall j :: 0 <= j < |r| ==> r[j] in r;
    }
  }

  lemma OnDateSingleton(p: Point, d: Date)
    ensures OnDate([p], d) == if p.dateObj == d then [p] else []
  {
    assert [p][1..] == [];
    assert IsDated(d)(p) == (p.dateObj == d);
    assert OnDate([p], d) == (if IsDated(d)(p) then [p] else []) + Seqs.Filter(IsDated(d), []);
  }

  /** Insertion passes over strictly earlier points only, so `p` stays ahead of the points sharing its date. */
  lemma {:induction false} InsertOnDate(p: Point, s: seq<Point>, d: Date)
    ensures OnDate(Insert(p, s), d) == OnDate([p], d) + OnDate(s, d)
  {
    var keep := IsDated(d);
    if s == [] || DateLeq(p.dateObj, s[0].dateObj) {
      Seqs.FilterAppend(keep, [p], s);
    } else {
      InsertOnDate(p, s[1..], d);
      Seqs.FilterAppend(keep, [s[0]], Insert(p, s[1..]));
      Seqs.FilterAppend(keep, [s[0]], s[1..]);
      assert s == [s[0]] + s[1..];
      assert s[0].dateObj != p.dateObj;
      OnDateSingleton(s[0], d);
      OnDateSingleton(p, d);
    }
  }

  /**
   * The sort orders the points by date, keeps exactly the same points, and
   * keeps points of equal date in their traversal order (stability).
   */
  lemma {:induction false} SortByDateSpec(points: seq<Point>)
    ensures SortedByDate(SortByDate(points))
    ensures multiset(SortByDate(points)) == multiset(points)
    ensures forall d :: OnDate(SortByDate(points), d) == OnDate(points, d)
  {
    if points != [] {
      var rest := SortByDate(points[1..]);
      SortByDateSpec(points[1..]);
      InsertSorted(points[0], rest);
      InsertPermutes(points[0], rest);
      assert points == [points[0]] + points[1..];
      forall d ensures OnDate(SortByDate(points), d) == OnDate(points, d) {
        InsertOnDate(points[0], rest, d);
        Seqs.FilterAppend(IsDated(d), [points[0]], points[1..]);
      }
    }
  }

  // -------------------------------------------------------------- the result

  /** The data handed to the line chart: one label and one value per point. */
  datatype ChartData = ChartData(labels: seq<string>, data: seq<real>)

  /** Error alert, "No Data" alert, or a chart. */
  datatype ChartOutcome = InputError | NoData | Plotted(points: seq<Point>, chart: ChartData)

  function ChartOf(points: seq<Point>): (c: ChartData)
    ensures |c.labels| == |points| && |c.data| == |points|
    ensures forall i :: 0 <= i < |points| ==>
              c.labels[i] == FormatDateForChart(points[i].date) && c.data[i] == points[i].weight
  {
    ChartData(Seqs.Map((p: Point) => FormatDateForChart(p.date), points), Seqs.Map((p: Point) => p.weight, points))
  }

  /** What `generateChart` produces for a query over the given workouts. */
  function GenerateChartResult(workouts: seq<Workout>, exerciseName: string, start: Date, end: Date,
                               parse: WeightParser): (r: ChartOutcome)
    ensures r.InputError? <==> Strings.IsBlank(exerciseName)
  {
    Strings.TrimEmptyIffBlank(exerciseName);
    if Strings.Trim(exerciseName) == [] then InputError
    else
      var points := SortByDate(CollectedPoints(workouts, exerciseName, start, end, parse));
      if |points| == 0 then NoData else Plotted(points, ChartOf(points))
  }

  /**
   * "No data" is reported exactly when the name is not blank and no matching
   * exercise of a workout in the range has a numeric weight.
   */
  lemma NoDataIff(workouts: seq<Workout>, exerciseName: string, start: Date, end: Date, parse: WeightParser)
    ensures GenerateChartResult(workouts, exerciseName, start, end, parse).NoData?
            <==> !Strings.IsBlank(exerciseName)
                 && forall w, e :: (w in workouts && e in w.exercises && DatedInRange(w, start, end)
                                    && Strings.IncludesIgnoringCase(e.name, exerciseName)) ==> NumericWeights(e.sets, parse) == []
  {
    var collected := CollectedPoints(workouts, exerciseName, start, end, parse);
    SortByDateSpec(collected);
    CollectedPointsEmptyIff(workouts, exerciseName, start, end, parse);
    assert |multiset(SortByDate(collected))| == |multiset(collected)|;
  }

  /** No point is collected exactly when no matching exercise of an in-range workout has a numeric weight. */
  lemma CollectedPointsEmptyIff(workouts: seq<Workout>, query: string, start: Date, end: Date, parse: WeightParser)
    ensures CollectedPoints(workouts, query, start, end, parse) == []
            <==> forall w, e :: (w in workouts && e in w.exercises && DatedInRange(w, start, end)
                                 && Strings.IncludesIgnoringCase(e.name, query)) ==> NumericWeights(e.sets, parse) == []
  {
    var collected := CollectedPoints(workouts, query, start, end, parse);
    CollectedPointsComplete(workouts, query, start, end, parse);
    if collected != [] {
      CollectedPointsSound(workouts, query, start, end, parse);
      assert collected[0] in collected;
      var w, e :| w in workouts && EmittedBy(collected[0], w, e, query, start, end, parse);
      MaxOfNumericWeights(e.sets, parse);
      assert collected[0].weight in NumericWeights(e.sets, parse);
    }
  }

  /**
   * A plotted chart: its points, in date order, are exactly the collected
   * points (stably sorted), each one emitted by a matching in-range exercise
   * with its heaviest weight; labels and values line up with the points.
   */
  lemma PlottedSpec(workouts: seq<Workout>, exerciseName: string, start: Date, end: Date, parse: WeightParser)
    requires GenerateChartResult(workouts, exerciseName, start, end, parse).Plotted?
    ensures var r := GenerateChartResult(workouts, exerciseName, start, end, parse);
            var collected := CollectedPoints(workouts, exerciseName, start, end, parse);
            var occ := Occurrences(InRangeWorkouts(workouts, start, end), exerciseName, parse);
            && !Strings.IsBlank(exerciseName)
            && |r.points| > 0
            && SortedByDate(r.points)
            && multiset(r.points) == multiset(collected)
            && (forall d :: OnDate(r.points, d) == OnDate(collected, d))
            && (forall p :: p in r.points ==>
                  exists w, e :: w in workouts && EmittedBy(p, w, e, exerciseName, start, end, parse))
            && |r.points| <= MatchingOccurrences(InRangeWorkouts(workouts, start, end), exerciseName)
            && |r.points| == |occ| && |collected| == |occ|
            && (forall i :: 0 <= i < |occ| ==>
                  EmittedBy(collected[i], occ[i].workout, occ[i].exercise, exerciseName, start, end, parse))
            && |r.chart.labels| == |r.points| && |r.chart.data| == |r.points|
            && (forall i :: 0 <= i < |r.points| ==>
                  r.chart.labels[i] == FormatDateForChart(r.points[i].date)
                  && r.chart.data[i] == r.points[i].weight)
  {
    var collected := CollectedPoints(workouts, exerciseName, start, end, parse);
    var points := SortByDate(collected);
    SortByDateSpec(collected);
    CollectedPointsSound(workouts, exerciseName, start, end, parse);
    CollectedPointsCount(workouts, exerciseName, start, end, parse);
    CollectedPointsInOrder(workouts, exerciseName, start, end, parse);
    forall p | p in points ensures p in collected {
      assert p in multiset(points);
    }
    assert |multiset(points)| == |multiset(collected)|;
  }

  // ------------------------------------------------------------------ summary

  /** The "Progress Summary" panel: workouts found, starting, latest weight and total progress. */
  datatype Summary = Summary(count: nat, first: real, last: real, delta: real)

  function Summarize(points: seq<Point>): Summary
    requires |points| > 0
  {
    Summary(|points|, points[0].weight, points[|points| - 1].weight, points[|points| - 1].weight - points[0].weight)
  }

  /**
   * Over a sorted series the starting weight is that of an earliest point,
   * the latest weight that of a latest point, the count is the number of
   * chart values and the progress is their difference.
   */
  lemma SummarySpec(points: seq<Point>)
    requires |points| > 0 && SortedByDate(points)
    ensures var s := Summarize(points);
            && s.count == |ChartOf(points).data|
            && s.first == ChartOf(points).data[0]
            && s.last == ChartOf(points).data[|points| - 1]
            && s.first + s.delta == s.last
            && (forall p :: p in points ==> DateLeq(points[0].dateObj, p.dateObj))
            && (forall p :: p in points ==> DateLeq(p.dateObj, points[|points| - 1].dateObj))
  {
    DateLeqTotalOrder();
  }

  // -------------------------------------------------------------- the screen

  /** The analytics screen's state. */
  class AnalyticsScreen {

    var exerciseName: string
    var startDate: Date
    var endDate: Date
    /** `null` in the source when no chart is shown. */
    var chartData: Option<ChartData>
    var progressionData: seq<Point>

    /** The screen opens on September 2025 with no query and no chart. */
    constructor ()
      ensures exerciseName == [] && startDate == Date(2025, 9, 1) && endDate == Date(2025, 9, 30)
      ensures chartData == None && progressionData == []
    {
      exerciseName := [];
      startDate := Date(2025, 9, 1);
      endDate := Date(2025, 9, 30);
      chartData := None;
      progressionData := [];
    }

    method SetExerciseName(name: string)
      modifies this
      ensures exerciseName == name
      ensures startDate == old(startDate) && endDate == old(endDate)
      ensures chartData == old(chartData) && progressionData == old(progressionData)
    {
      exerciseName := name;
    }

    /** A dismissed picker delivers no date and leaves the range as it was. */
    method OnStartDateChange(selected: Option<Date>)
      modifies this
      ensures startDate == if selected.Some? then selected.value else old(startDate)
      ensures exerciseName == old(exerciseName) && endDate == old(endDate)
      ensures chartData == old(chartData) && progressionData == old(progressionData)
    {
      if selected.Some? {
        startDate := selected.value;
      }
    }

    method OnEndDateChange(selected: Option<Date>)
      modifies this
      ensures endDate == if selected.Some? then selected.value else old(endDate)
      ensures exerciseName == old(exerciseName) && startDate == old(startDate)
      ensures chartData == old(chartData) && progressionData == old(progressionData)
    {
      if selected.Some? {
        endDate := selected.value;
      }
    }

    /**
     * `generateChart`: a blank name changes nothing; no points clears the
     * chart and the series; otherwise the sorted points become the series and
     * the chart.
     */
    method GenerateChart(workouts: seq<Workout>, parse: WeightParser) returns (outcome: ChartOutcome)
      modifies this
      ensures outcome == GenerateChartResult(workouts, old(exerciseName), old(startDate), old(endDate), parse)
      ensures exerciseName == old(exerciseName) && startDate == old(startDate) && endDate == old(endDate)
      ensures outcome.InputError? ==> chartData == old(chartData) && progressionData == old(progressionData)
      ensures outcome.NoData? ==> chartData == None && progressionData == []
      ensures outcome.Plotted? ==> chartData == Some(outcome.chart) && progressionData == outcome.points
    {
      if Strings.Trim(exerciseName) == [] {
        outcome := InputError;
        return;
      }
      var points := CollectPoints(workouts, exerciseName, startDate, endDate, parse);
      points := SortByDate(points);
      if |points| == 0 {
        chartData := None;
        progressionData := [];
        outcome := NoData;
        return;
      }
      var chart := ChartOf(points);
      progressionData := points;
      chartData := Some(chart);
      outcome := Plotted(points, chart);
    }
  }
}
