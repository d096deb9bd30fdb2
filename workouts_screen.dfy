/**
 * The workout-entry form of the workouts screen: the exercises being typed
 * in, the editing handlers that change them one field at a time, and saving,
 * which cleans the entries and hands the result to the store.
 */
module WorkoutsScreen {

  import opened Wrappers
  import Types
  import Seqs
  import WorkoutContext

  /** A set as the form holds it: every field is text, possibly empty. */
  datatype FormSet = FormSet(reps: string, weight: string, rir: string)

  datatype FormExercise = FormExercise(name: string, sets: seq<FormSet>)

  /** The editable fields of a set. */
  datatype SetField = Reps | Weight | Rir

  const EMPTY_SET: FormSet := FormSet("", "", "")

  /** What "Add Exercise" appends: no name and one empty set. */
  const NEW_EXERCISE: FormExercise := FormExercise("", [EMPTY_SET])

  function FieldOf(s: FormSet, f: SetField): string
  {
    match f
    case Reps => s.reps
    case Weight => s.weight
    case Rir => s.rir
  }

  /** `set[field] = value`: field `f` becomes `v` and the other fields keep their text. */
  function WithField(s: FormSet, f: SetField, v: string): (r: FormSet)
    ensures FieldOf(r, f) == v
    ensures forall g :: g != f ==> FieldOf(r, g) == FieldOf(s, g)
  {
    match f
    case Reps => s.(reps := v)
    case Weight => s.(weight := v)
    case Rir => s.(rir := v)
  }

  // ------------------------------------------------------------------ cleaning

  /** A set is kept when its reps and weight are non-empty (truthy) text. */
  predicate IsComplete(s: FormSet)
  {
    s.reps != "" && s.weight != ""
  }

  /** The complete sets of an exercise, in order. */
  function CleanSets(sets: seq<FormSet>): (r: seq<FormSet>)
    ensures Seqs.IsSubseq(r, sets)
    ensures forall s :: s in r <==> s in sets && IsComplete(s)
    ensures |r| == Seqs.Count(IsComplete, sets)
  {
    Seqs.FilterIsSubseq(IsComplete, sets);
    Seqs.FilterMembers(IsComplete, sets);
    Seqs.FilterCount(IsComplete, sets);
    Seqs.Filter(IsComplete, sets)
  }

  function CleanExercise(e: FormExercise): (r: FormExercise)
    ensures r.name == e.name && Seqs.IsSubseq(r.sets, e.sets)
    ensures forall s :: s in r.sets <==> s in e.sets && IsComplete(s)
    ensures |r.sets| == Seqs.Count(IsComplete, e.sets)
  {
    e.(sets := CleanSets(e.sets))
  }

  /** An exercise is kept when it has a (truthy) name and at least one set. */
  predicate IsSaveable(e: FormExercise)
  {
    e.name != "" && |e.sets| > 0
  }

  /** The exercise has a name and at least one complete set. */
  ghost predicate HasValidSet(e: FormExercise)
  {
    e.name != "" && exists s :: s in e.sets && IsComplete(s)
  }

  /**
   * The save-time cleaning: every exercise loses its incomplete sets, then
   * exercises without a name or without sets are dropped. The result lists,
   * in order, the cleaned form of exactly the exercises with a name and a
   * complete set.
   */
  function CleanExercises(exercises: seq<FormExercise>): seq<FormExercise>
  {
    Seqs.Filter(IsSaveable, Seqs.Map(CleanExercise, exercises))
  }

  /**
   * The cleaned list is an in-order subsequence of the exercises with their sets
   * cleaned; every kept exercise has a name and only complete sets (at least
   * one); every exercise with a name and a complete set is kept; and nothing
   * is left exactly when no exercise has a name and a complete set.
   */
  lemma CleanExercisesSpec(exercises: seq<FormExercise>)
    ensures var r := CleanExercises(exercises);
            && Seqs.IsSubseq(r, Seqs.Map(CleanExercise, exercises))
            && |r| == Seqs.Count(IsSaveable, Seqs.Map(CleanExercise, exercises))
            && (forall e :: e in r ==> IsSaveable(e) && forall s :: s in e.sets ==> IsComplete(s))
            && (forall e :: e in r ==> exists e0 :: e0 in exercises && e == CleanExercise(e0))
            && (forall e0 :: e0 in exercises && HasValidSet(e0) ==> CleanExercise(e0) in r)
            && (r == [] <==> forall e0 :: e0 in exercises ==> !HasValidSet(e0))
  {
    var cleaned := Seqs.Map(CleanExercise, exercises);
    Seqs.FilterIsSubseq(IsSaveable, cleaned);
    Seqs.FilterCount(IsSaveable, cleaned);
    CleanedEntriesValid(exercises);
    CleanedEntriesFromInput(exercises);
    ValidExercisesKept(exercises);
    if CleanExercises(exercises) != [] {
      var r := CleanExercises(exercises);
      assert r[0] in r;
      var e0 :| e0 in exercises && r[0] == CleanExercise(e0);
      assert r[0].sets[0] in r[0].sets;
      assert HasValidSet(e0);
    }
  }

  lemma CleanedEntriesFromInput(exercises: seq<FormExercise>)
    ensures forall e :: e in CleanExercises(exercises) ==> exists e0 :: e0 in exercises && e == CleanExercise(e0)
  {
    var cleaned := Seqs.Map(CleanExercise, exercises);
    Seqs.FilterMembers(IsSaveable, cleaned);
    forall e | e in CleanExercises(exercises) ensures exists e0 :: e0 in exercises && e == CleanExercise(e0) {
      var k :| 0 <= k < |cleaned| && cleaned[k] == e;
      assert exercises[k] in exercises;
    }
  }

  lemma ValidExercisesKept(exercises: seq<FormExercise>)
    ensures forall e0 :: e0 in exercises && HasValidSet(e0) ==> CleanExercise(e0) in CleanExercises(exercises)
  {
    var cleaned := Seqs.Map(CleanExercise, exercises);
    Seqs.FilterMembers(IsSaveable, cleaned);
    forall e0 | e0 in exercises && HasValidSet(e0) ensures CleanExercise(e0) in CleanExercises(exercises) {
      var s :| s in e0.sets && IsComplete(s);
      assert s in CleanExercise(e0).sets;
      var k :| 0 <= k < |exercises| && exercises[k] == e0;
      assert cleaned[k] == CleanExercise(e0);
    }
  }


  /** Every cleaned exercise has a name and at least one set, each of them complete. */
  lemma CleanedEntriesValid(exercises: seq<FormExercise>)
    ensures forall e :: e in CleanExercises(exercises) ==>
              IsSaveable(e) && forall s :: s in e.sets ==> IsComplete(s)
  {
    var cleaned := Seqs.Map(CleanExercise, exercises);
    Seqs.FilterMembers(IsSaveable, cleaned);
    forall e | e in CleanExercises(exercises) ensures forall s :: s in e.sets ==> IsComplete(s) {
      var k :| 0 <= k < |cleaned| && cleaned[k] == e;
      assert e == CleanExercise(exercises[k]);
    }
  }

  /** An exercise just added by "Add Exercise" and left untouched is dropped on save. */
  lemma {:induction false} NewExerciseIsDropped(exercises: seq<FormExercise>)
    ensures CleanExercises(exercises + [NEW_EXERCISE]) == CleanExercises(exercises)
  {
    var m := Seqs.Map(CleanExercise, exercises + [NEW_EXERCISE]);
    assert m == Seqs.Map(CleanExercise, exercises) + [CleanExercise(NEW_EXERCISE)];
    Seqs.FilterAppend(IsSaveable, Seqs.Map(CleanExercise, exercises), [CleanExercise(NEW_EXERCISE)]);
    assert [EMPTY_SET][1..] == [];
    assert !IsComplete(EMPTY_SET);
    assert Seqs.Filter(IsComplete, [EMPTY_SET]) == [] + Seqs.Filter(IsComplete, []);
    assert CleanSets([EMPTY_SET]) == [];
    assert !IsSaveable(CleanExercise(NEW_EXERCISE));
    assert Seqs.Filter(IsSaveable, [CleanExercise(NEW_EXERCISE)]) == [];
  }

  /** A set just added by "Add Set" and left empty is dropped on save. */
  lemma NewSetIsDropped(e: FormExercise)
    ensures CleanExercise(e.(sets := e.sets + [EMPTY_SET])) == CleanExercise(e)
  {
    Seqs.FilterAppend(IsComplete, e.sets, [EMPTY_SET]);
    assert [EMPTY_SET][1..] == [];
    assert Seqs.Filter(IsComplete, [EMPTY_SET]) == [];
  }

  /** Editing the reps-in-reserve field never changes which sets are kept. */
  lemma RirDoesNotAffectCleaning(s: FormSet, v: string)
    ensures IsComplete(WithField(s, Rir, v)) == IsComplete(s)
  {
  }

  /** A form set as a stored set: the reps-in-reserve text is present, possibly empty. */
  function ToStoredSet(s: FormSet): (r: Types.SetEntry)
    ensures IsComplete(s) <==> r.reps != "" && r.weight != ""
  {
    Types.SetEntry(s.reps, Some(s.rir), s.weight)
  }

  /** The spread `{...exercise, sets}`: the name is kept and every set is stored in order. */
  function ToStoredExercise(e: FormExercise): (r: Types.Exercise)
    ensures r.name == e.name && |r.sets| == |e.sets|
    ensures forall i :: 0 <= i < |e.sets| ==> r.sets[i] == ToStoredSet(e.sets[i])
  {
    Types.Exercise(e.name, Seqs.Map(ToStoredSet, e.sets))
  }

  /** Every saved exercise has a name and at least one set, and every saved set has reps and a weight. */
  lemma SavedExercisesAreComplete(exercises: seq<FormExercise>)
    ensures forall e :: e in Seqs.Map(ToStoredExercise, CleanExercises(exercises)) ==>
              e.name != "" && |e.sets| > 0 && forall s :: s in e.sets ==> s.reps != "" && s.weight != ""
  {
    var cleaned := CleanExercises(exercises);
    CleanedEntriesValid(exercises);
    forall e | e in Seqs.Map(ToStoredExercise, cleaned)
      ensures e.name != "" && |e.sets| > 0 && forall s :: s in e.sets ==> s.reps != "" && s.weight != ""
    {
      var k :| 0 <= k < |cleaned| && e == ToStoredExercise(cleaned[k]);
      assert cleaned[k] in cleaned;
      forall s | s in e.sets ensures s.reps != "" && s.weight != "" {
        var i :| 0 <= i < |e.sets| && e.sets[i] == s;
        assert cleaned[k].sets[i] in cleaned[k].sets;
      }
    }
  }

  /** Saving reports an error alert or a success alert. */
  datatype SaveOutcome = SaveError | Saved

  // -------------------------------------------------------------- the screen

  class WorkoutsScreen {

    /** The exercises typed into the (possibly hidden) entry form. */
    var exercises: seq<FormExercise>
    var modalVisible: bool

    constructor ()
      ensures exercises == [] && !modalVisible
    {
      exercises := [];
      modalVisible := false;
    }

    /** The floating button opens the form. */
    method OpenModal()
      modifies this
      ensures modalVisible && exercises == old(exercises)
    {
      modalVisible := true;
    }

    /** The close button and the back gesture hide the form and keep its entries. */
    method CloseModal()
      modifies this
      ensures !modalVisible && exercises == old(exercises)
    {
      modalVisible := false;
    }

    /** "Cancel" discards the entries and hides the form. */
    method Cancel()
      modifies this
      ensures !modalVisible && exercises == []
    {
      exercises := [];
      modalVisible := false;
    }

    /** `handleAddExercise`. */
    method AddExercise()
      modifies this
      ensures exercises == old(exercises) + [NEW_EXERCISE]
      ensures modalVisible == old(modalVisible)
    {
      exercises := exercises + [NEW_EXERCISE];
    }

    /** `handleAddSet`: exercise `i` gets one more, empty, set; nothing else changes. */
    method AddSet(i: nat)
      requires i < |exercises|
      modifies this
      ensures |exercises| == |old(exercises)|
      ensures exercises[i].name == old(exercises[i].name)
      ensures exercises[i].sets == old(exercises[i].sets) + [EMPTY_SET]
      ensures forall k :: 0 <= k < |exercises| && k != i ==> exercises[k] == old(exercises[k])
      ensures modalVisible == old(modalVisible)
    {
      var e := exercises[i];
      exercises := exercises[i := e.(sets := e.sets + [EMPTY_SET])];
    }

    /** `handleChangeExerciseName`: only the name of exercise `i` changes. */
    method ChangeExerciseName(i: nat, text: string)
      requires i < |exercises|
      modifies this
      ensures |exercises| == |old(exercises)|
      ensures exercises[i].name == text && exercises[i].sets == old(exercises[i].sets)
      ensures forall k :: 0 <= k < |exercises| && k != i ==> exercises[k] == old(exercises[k])
      ensures modalVisible == old(modalVisible)
    {
      exercises := exercises[i := exercises[i].(name := text)];
    }

    /** `handleChangeSet`: only field `f` of set `j` of exercise `i` changes. */
    method ChangeSet(i: nat, j: nat, f: SetField, value: string)
      requires i < |exercises| && j < |exercises[i].sets|
      modifies this
      ensures |exercises| == |old(exercises)|
      ensures exercises[i].name == old(exercises[i].name)
      ensures |exercises[i].sets| == |old(exercises[i].sets)|
      ensures exercises[i].sets[j] == WithField(old(exercises[i].sets[j]), f, value)
      ensures forall m :: 0 <= m < |exercises[i].sets| && m != j ==> exercises[i].sets[m] == old(exercises[i].sets[m])
      ensures forall k :: 0 <= k < |exercises| && k != i ==> exercises[k] == old(exercises[k])
      ensures modalVisible == old(modalVisible)
    {
      var e := exercises[i];
      var sets := e.sets[j := WithField(e.sets[j], f, value)];
      exercises := exercises[i := e.(sets := sets)];
    }

    /**
     * `handleSaveWorkout`. `date` and `id` are today's date text and the
     * timestamp id, read from the clock by the caller. If cleaning leaves no
     * exercise, nothing changes; otherwise exactly one workout, holding the
     * cleaned exercises, is added and the form is emptied and hidden.
     */
    method SaveWorkout(store: WorkoutContext.WorkoutStore, date: string, id: string) returns (outcome: SaveOutcome)
      modifies this, store
      ensures var cleaned := CleanExercises(old(exercises));
              && (outcome == SaveError <==> cleaned == [])
              && (outcome == SaveError ==>
                    store.workouts == old(store.workouts)
                    && exercises == old(exercises) && modalVisible == old(modalVisible))
              && (outcome == Saved ==>
                    store.workouts == [Types.Workout(id, date, Seqs.Map(ToStoredExercise, cleaned))] + old(store.workouts)
                    && exercises == [] && !modalVisible)
    {
      var cleaned := CleanExercises(exercises);
      if |cleaned| == 0 {
        outcome := SaveError;
        return;
      }
      store.AddWorkout(date, Seqs.Map(ToStoredExercise, cleaned), id);
      exercises := [];
      modalVisible := false;
      outcome := Saved;
    }
  }
}
