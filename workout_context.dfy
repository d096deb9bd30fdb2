/**
 * The workout store behind the app's context provider: the list of recorded
 * workouts, newest first, with the add operation and the index of distinct
 * exercise names that feeds autocompletion.
 */
module WorkoutContext {

  import opened Types
  import Seqs
  import Strings

  /** The lower-cased names of a workout's exercises, in order. */
  function LowerNames(exercises: seq<Exercise>): seq<string>
  {
    Seqs.Map((e: Exercise) => Strings.ToLower(e.name), exercises)
  }

  /** Every exercise's lower-cased name, workout by workout, then exercise by exercise. */
  function AllLowerNames(workouts: seq<Workout>): seq<string>
  {
    if workouts == [] then []
    else AllLowerNames(workouts[..|workouts| - 1]) + LowerNames(workouts[|workouts| - 1].exercises)
  }

  lemma LowerNamesSnoc(exercises: seq<Exercise>, j: nat)
    requires j < |exercises|
    ensures LowerNames(exercises[..j + 1]) == LowerNames(exercises[..j]) + [Strings.ToLower(exercises[j].name)]
  {
  }

  lemma AllLowerNamesSnoc(workouts: seq<Workout>, k: nat)
    requires k < |workouts|
    ensures AllLowerNames(workouts[..k + 1]) == AllLowerNames(workouts[..k]) + LowerNames(workouts[k].exercises)
  {
    assert workouts[..k + 1][..k] == workouts[..k];
  }

  /** The distinct lower-cased exercise names, in first-occurrence order. */
  function ExerciseNameIndex(workouts: seq<Workout>): seq<string>
  {
    Seqs.Dedup(AllLowerNames(workouts))
  }

  /** Some exercise of some workout has `name` as its lower-cased name. */
  ghost predicate NamedIn(workouts: seq<Workout>, name: string)
  {
    exists k, j :: 0 <= k < |workouts| && 0 <= j < |workouts[k].exercises|
      && Strings.ToLower(workouts[k].exercises[j].name) == name
  }

  lemma NamedInSnoc(prefix: seq<Workout>, w: Workout, name: string)
    ensures NamedIn(prefix + [w], name) <==> NamedIn(prefix, name) || name in LowerNames(w.exercises)
  {
    var all := prefix + [w];
    if NamedIn(all, name) {
      var k, j :| 0 <= k < |all| && 0 <= j < |all[k].exercises| && Strings.ToLower(all[k].exercises[j].name) == name;
      if k < |prefix| {
        assert all[k] == prefix[k];
      } else {
        assert LowerNames(w.exercises)[j] == name;
      }
    }
    if NamedIn(prefix, name) {
      var k, j :| 0 <= k < |prefix| && 0 <= j < |prefix[k].exercises| && Strings.ToLower(prefix[k].exercises[j].name) == name;
      assert all[k] == prefix[k];
    }
    if name in LowerNames(w.exercises) {
      var j :| 0 <= j < |w.exercises| && LowerNames(w.exercises)[j] == name;
      assert all[|prefix|] == w;
    }
  }

  lemma {:induction false} AllLowerNamesMembers(workouts: seq<Workout>)
    ensures forall name :: name in AllLowerNames(workouts) <==> NamedIn(workouts, name)
  {
    if workouts != [] {
      var prefix, w := workouts[..|workouts| - 1], workouts[|workouts| - 1];
      AllLowerNamesMembers(prefix);
      assert workouts == prefix + [w];
      assert AllLowerNames(workouts) == AllLowerNames(prefix) + LowerNames(w.exercises);
      forall name ensures name in AllLowerNames(workouts) <==> NamedIn(workouts, name) {
        NamedInSnoc(prefix, w, name);
      }
    }
  }

  lemma ExerciseNameIndexMembers(workouts: seq<Workout>)
    ensures forall name :: name in ExerciseNameIndex(workouts) <==> NamedIn(workouts, name)
  {
    Seqs.DedupMembers(AllLowerNames(workouts));
    AllLowerNamesMembers(workouts);
  }

  /**
   * The name index has no duplicates, holds exactly the lower-cased names of
   * all exercises, and lists them in order of first occurrence.
   */
  lemma ExerciseNameIndexSpec(workouts: seq<Workout>)
    ensures Seqs.NoDuplicates(ExerciseNameIndex(workouts))
    ensures forall name :: name in ExerciseNameIndex(workouts) <==> NamedIn(workouts, name)
    ensures forall name :: name in ExerciseNameIndex(workouts) ==> name in AllLowerNames(workouts)
    ensures forall i, j :: 0 <= i < j < |ExerciseNameIndex(workouts)| ==>
              Seqs.FirstIndex(AllLowerNames(workouts), ExerciseNameIndex(workouts)[i])
              < Seqs.FirstIndex(AllLowerNames(workouts), ExerciseNameIndex(workouts)[j])
  {
    Seqs.DedupNoDuplicates(AllLowerNames(workouts));
    Seqs.DedupMembers(AllLowerNames(workouts));
    Seqs.DedupFirstOccurrenceOrder(AllLowerNames(workouts));
    ExerciseNameIndexMembers(workouts);
  }

  /** Two names that differ only in letter case share one index entry. */
  lemma CaseInsensitiveIndex(workouts: seq<Workout>, a: string, b: string)
    requires NamedIn(workouts, Strings.ToLower(a))
    requires Strings.ToLower(a) == Strings.ToLower(b)
    ensures Strings.ToLower(b) in ExerciseNameIndex(workouts)
    ensures |Seqs.IndicesOf(ExerciseNameIndex(workouts), Strings.ToLower(b))| == 1
  {
    Seqs.DedupNoDuplicates(AllLowerNames(workouts));
    ExerciseNameIndexMembers(workouts);
    Seqs.SingleIndex(ExerciseNameIndex(workouts), Strings.ToLower(b));
  }

  lemma NamedInPrepend(workouts: seq<Workout>, w: Workout, name: string)
    ensures NamedIn([w] + workouts, name) <==> NamedIn(workouts, name) || name in LowerNames(w.exercises)
  {
    var all := [w] + workouts;
    if NamedIn(all, name) {
      var k, j :| 0 <= k < |all| && 0 <= j < |all[k].exercises| && Strings.ToLower(all[k].exercises[j].name) == name;
      if k == 0 {
        assert LowerNames(w.exercises)[j] == name;
      } else {
        assert all[k] == workouts[k - 1];
      }
    }
    if NamedIn(workouts, name) {
      var k, j :| 0 <= k < |workouts| && 0 <= j < |workouts[k].exercises| && Strings.ToLower(workouts[k].exercises[j].name) == name;
      assert all[k + 1] == workouts[k];
    }
    if name in LowerNames(w.exercises) {
      var j :| 0 <= j < |w.exercises| && LowerNames(w.exercises)[j] == name;
      assert all[0] == w;
    }
  }

  /**
   * Adding a workout in front keeps every indexed name and adds the
   * lower-cased names of the new workout's exercises, and no others.
   */
  lemma IndexAfterAdd(workouts: seq<Workout>, w: Workout)
    ensures forall name :: name in ExerciseNameIndex([w] + workouts) <==>
              name in ExerciseNameIndex(workouts) || name in LowerNames(w.exercises)
  {
    ExerciseNameIndexMembers(workouts);
    ExerciseNameIndexMembers([w] + workouts);
    forall name ensures NamedIn([w] + workouts, name) <==> NamedIn(workouts, name) || name in LowerNames(w.exercises) {
      NamedInPrepend(workouts, w, name);
    }
  }

  class WorkoutStore {

    /** All recorded workouts, newest first. */
    var workouts: seq<Workout>

    /** The store starts from the seed list, which is empty. */
    constructor ()
      ensures workouts == []
    {
      workouts := [];
    }

    /** Records a workout under the caller-supplied `id`, in front of all earlier ones. */
    method AddWorkout(date: string, exercises: seq<Exercise>, id: string)
      modifies this
      ensures workouts == [Workout(id, date, exercises)] + old(workouts)
      ensures |workouts| == |old(workouts)| + 1
      ensures workouts[0].id == id && workouts[0].date == date && workouts[0].exercises == exercises
      ensures workouts[1..] == old(workouts)
    {
      workouts := [Workout(id, date, exercises)] + workouts;
    }

    /**
     * The distinct lower-cased exercise names, accumulated in a set whose
     * insertion order is kept. Reads the store and changes nothing.
     */
    method GetAllExerciseNames() returns (names: seq<string>)
      ensures names == ExerciseNameIndex(workouts)
      ensures Seqs.NoDuplicates(names)
      ensures forall name :: name in names <==> NamedIn(workouts, name)
    {
      var seen: set<string> := {};
      names := [];
      var k := 0;
      while k < |workouts|
        invariant 0 <= k <= |workouts|
        invariant names == Seqs.Dedup(AllLowerNames(workouts[..k]))
        invariant forall n :: n in seen <==> n in names
      {
        var exercises := workouts[k].exercises;
        ghost var before := AllLowerNames(workouts[..k]);
        var j := 0;
        assert before + LowerNames(exercises[..0]) == before;
        while j < |exercises|
          invariant 0 <= j <= |exercises|
          invariant names == Seqs.Dedup(before + LowerNames(exercises[..j]))
          invariant forall n :: n in seen <==> n in names
        {
          var name := Strings.ToLower(exercises[j].name);
          LowerNamesSnoc(exercises, j);
          Seqs.DedupSnoc(before + LowerNames(exercises[..j]), name);
          assert before + LowerNames(exercises[..j + 1]) == (before + LowerNames(exercises[..j])) + [name];
          if name !in seen {
            seen := seen + {name};
            names := names + [name];
          }
          j := j + 1;
        }
        AllLowerNamesSnoc(workouts, k);
        assert exercises[..j] == exercises;
        k := k + 1;
      }
      assert workouts[..k] == workouts;
      ExerciseNameIndexSpec(workouts);
    }
  }
}
