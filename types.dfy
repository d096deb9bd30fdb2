/** The records the store keeps: a workout session, its exercises, and their sets. */
module Types {

  import opened Wrappers

  /**
   * One set. `reps` and `weight` are the text typed into the form; `weight`
   * is a decimal number or the word "bodyweight". `rir` (reps in reserve) is
   * optional.
   */
  datatype SetEntry = SetEntry(reps: string, rir: Option<string>, weight: string)

  /** An exercise with its sets in the order they were entered. */
  datatype Exercise = Exercise(name: string, sets: seq<SetEntry>)

  /** A workout session; `date` is the text "M/D/YYYY". */
  datatype Workout = Workout(id: string, date: string, exercises: seq<Exercise>)
}
