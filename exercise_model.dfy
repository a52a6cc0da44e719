/**
 * The exercise record of FitnessApp/Core/Model/Exercise.swift: a definition
 * (name, weight, reps, sets, seat setting) plus live progress (current reps,
 * completion flag). Its initializer stores what it is given, without any
 * clamping. The session view models work on this variant: they assign its
 * fields directly.
 */
module ExerciseModel {
  import opened Optional

  /** `UUID` values are produced by the platform; here they are plain numbers passed in. */
  type Uuid = nat

  datatype Exercise = Exercise(
    id: Uuid,
    name: string,
    weight: int,
    reps: int,
    sets: int,
    seatSetting: Option<string>,
    isCompleted: bool,
    currentReps: int)

  /**
   * `Exercise(id:name:weight:reps:sets:seatSetting:isCompleted:currentReps:)`.
   * The caller supplies the id that `UUID()` would generate.
   */
  function Make(
    id: Uuid,
    name: string,
    weight: int,
    reps: int,
    sets: int,
    seatSetting: Option<string> := None,
    isCompleted: bool := false,
    currentReps: Option<int> := None): (e: Exercise)
    ensures e.id == id && e.name == name
    ensures e.weight == weight && e.reps == reps && e.sets == sets
    ensures e.seatSetting == seatSetting && e.isCompleted == isCompleted
    ensures e.currentReps == currentReps.GetOr(reps)
  {
    Exercise(id, name, weight, reps, sets, seatSetting, isCompleted, currentReps.GetOr(reps))
  }

  /** A freshly created exercise, with every default taken, starts unfinished at its planned reps. */
  lemma MakeDefaults(id: Uuid, name: string, weight: int, reps: int, sets: int)
    ensures var e := Make(id, name, weight, reps, sets);
      !e.isCompleted && e.seatSetting.None? && e.currentReps == e.reps
  {
  }

  /** Two exercises made from different inputs differ: the initializer loses nothing. */
  lemma MakeInjective(
    id: Uuid, name: string, weight: int, reps: int, sets: int,
    seat: Option<string>, done: bool, current: int,
    id': Uuid, name': string, weight': int, reps': int, sets': int,
    seat': Option<string>, done': bool, current': int)
    requires Make(id, name, weight, reps, sets, seat, done, Some(current))
          == Make(id', name', weight', reps', sets', seat', done', Some(current'))
    ensures id == id' && name == name' && weight == weight' && reps == reps'
    ensures sets == sets' && seat == seat' && done == done' && current == current'
  {
  }
}
