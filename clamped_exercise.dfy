/**
 * The clamping variant of the exercise value (FitnessApp/Core/Models/Exercise.swift).
 * It has the same fields as `ExerciseModel.Exercise`, but its initializer
 * clamps weight to at least 0 and reps and sets to at least 1, and every
 * change goes through that initializer again by returning a fresh copy.
 */
module ClampedExercise {
  import opened Optional
  import opened ExerciseModel

  function Max(a: int, b: int): int {
    if a >= b then a else b
  }

  /** The field ranges the clamping initializer guarantees. */
  predicate Legal(e: Exercise) {
    e.weight >= 0 && e.reps >= 1 && e.sets >= 1
  }

  /**
   * The initializer as written: weight, reps and sets are clamped, but a
   * missing `currentReps` defaults to the reps ARGUMENT, before clamping.
   */
  function Init(
    id: Uuid,
    name: string,
    weight: int,
    reps: int,
    sets: int,
    seatSetting: Option<string> := None,
    isCompleted: bool := false,
    currentReps: Option<int> := None): (e: Exercise)
    ensures Legal(e)
    ensures e.id == id && e.name == name
    ensures e.seatSetting == seatSetting && e.isCompleted == isCompleted
    ensures e.weight == Max(0, weight) && e.reps == Max(1, reps) && e.sets == Max(1, sets)
    ensures e.currentReps == currentReps.GetOr(reps)
  {
    Exercise(id, name, Max(0, weight), Max(1, reps), Max(1, sets),
             seatSetting, isCompleted, currentReps.GetOr(reps))
  }

  /** Witness of the defect: reps 0 is stored as 1, but current reps start at 0. */
  lemma InitDefaultsToRawReps()
    ensures var e := Init(0, "Rowing", 40, 0, 3);
      e.reps == 1 && e.currentReps == 0 && e.currentReps != e.reps
  {
  }

  /**
   * The initializer as evidently intended: a missing `currentReps` defaults
   * to the clamped reps, so a new exercise starts at its planned reps.
   */
  function InitCorrected(
    id: Uuid,
    name: string,
    weight: int,
    reps: int,
    sets: int,
    seatSetting: Option<string> := None,
    isCompleted: bool := false,
    currentReps: Option<int> := None): (e: Exercise)
    ensures Legal(e)
    ensures e.id == id && e.name == name
    ensures e.seatSetting == seatSetting && e.isCompleted == isCompleted
    ensures e.weight == Max(0, weight) && e.reps == Max(1, reps) && e.sets == Max(1, sets)
    ensures currentReps.None? ==> e.currentReps == e.reps && e.currentReps >= 1
    ensures currentReps.Some? ==> e.currentReps == currentReps.value
  {
    Exercise(id, name, Max(0, weight), Max(1, reps), Max(1, sets),
             seatSetting, isCompleted, currentReps.GetOr(Max(1, reps)))
  }

  /** Both initializers agree whenever current reps are given, or reps are already legal. */
  lemma InitCorrectedAgrees(
    id: Uuid, name: string, weight: int, reps: int, sets: int,
    seat: Option<string>, done: bool, current: Option<int>)
    requires current.Some? || reps >= 1
    ensures Init(id, name, weight, reps, sets, seat, done, current)
         == InitCorrected(id, name, weight, reps, sets, seat, done, current)
  {
  }

  /** On legal arguments the clamping initializer is the raw one of Core/Model. */
  lemma InitMatchesRawOnLegalInput(
    id: Uuid, name: string, weight: int, reps: int, sets: int,
    seat: Option<string>, done: bool, current: Option<int>)
    requires weight >= 0 && reps >= 1 && sets >= 1
    ensures InitCorrected(id, name, weight, reps, sets, seat, done, current)
         == Make(id, name, weight, reps, sets, seat, done, current)
  {
  }

  /**
   * `e.updating(...)`: every argument left out keeps the current value, the
   * supplied ones pass through the initializer's clamps, and `id` and `name`
   * never change.
   */
  function Updating(
    e: Exercise,
    weight: Option<int> := None,
    reps: Option<int> := None,
    sets: Option<int> := None,
    seatSetting: Option<string> := None,
    isCompleted: Option<bool> := None,
    currentReps: Option<int> := None): (r: Exercise)
    ensures Legal(r)
    ensures r.id == e.id && r.name == e.name
    ensures r.weight == Max(0, weight.GetOr(e.weight))
    ensures r.reps == Max(1, reps.GetOr(e.reps))
    ensures r.sets == Max(1, sets.GetOr(e.sets))
    ensures r.seatSetting == (if seatSetting.Some? then seatSetting else e.seatSetting)
    ensures r.isCompleted == isCompleted.GetOr(e.isCompleted)
    ensures r.currentReps == currentReps.GetOr(e.currentReps)
  {
    Init(
      e.id, e.name,
      weight.GetOr(e.weight),
      reps.GetOr(e.reps),
      sets.GetOr(e.sets),
      if seatSetting.Some? then seatSetting else e.seatSetting,
      isCompleted.GetOr(e.isCompleted),
      Some(currentReps.GetOr(e.currentReps)))
  }

  /** Updating a legal exercise with nothing supplied returns it unchanged. */
  lemma UpdatingNothingIsIdentity(e: Exercise)
    requires Legal(e)
    ensures Updating(e) == e
  {
  }

  /** A nil seat argument never clears a stored seat setting. */
  lemma UpdatingKeepsSeat(e: Exercise, weight: Option<int>, reps: Option<int>, sets: Option<int>,
                          done: Option<bool>, current: Option<int>)
    requires e.seatSetting.Some?
    ensures Updating(e, weight, reps, sets, None, done, current).seatSetting == e.seatSetting
  {
  }

  /** `markCompleted()`: on a legal exercise, only the completion flag changes, to true. */
  function MarkCompleted(e: Exercise): (r: Exercise)
    ensures r.isCompleted
    ensures Legal(e) ==> r == e.(isCompleted := true)
  {
    Updating(e, isCompleted := Some(true))
  }

  /** `reset()`: the exercise is unfinished again and its current reps are back at its reps. */
  function Reset(e: Exercise): (r: Exercise)
    ensures !r.isCompleted && r.currentReps == e.reps
    ensures Legal(e) ==> r == e.(isCompleted := false, currentReps := e.reps)
  {
    Updating(e, isCompleted := Some(false), currentReps := Some(e.reps))
  }

  /** Resetting a legal exercise twice is the same as resetting it once. */
  lemma ResetIdempotent(e: Exercise)
    requires Legal(e)
    ensures Reset(Reset(e)) == Reset(e)
  {
  }

  /** `updateCurrentReps(_:)`: stores the new current reps, raised to 0 when negative. */
  function UpdateCurrentReps(e: Exercise, newReps: int): (r: Exercise)
    ensures r.currentReps >= 0
    ensures r.currentReps == (if newReps < 0 then 0 else newReps)
    ensures Legal(e) ==> r == e.(currentReps := r.currentReps)
  {
    Updating(e, currentReps := Some(Max(0, newReps)))
  }

  datatype ValidationError = InvalidWeight | InvalidReps | InvalidSets

  /**
   * `Exercise.validate(weight:reps:sets:)`: `None` when it returns normally,
   * otherwise the error it throws. The checks run in the order weight, reps,
   * sets, and the first failing one wins.
   */
  function Validate(weight: int, reps: int, sets: int): (r: Option<ValidationError>)
    ensures r.None? <==> weight >= 0 && reps >= 1 && sets >= 1
    ensures r == Some(InvalidWeight) <==> weight < 0
    ensures r == Some(InvalidReps) <==> weight >= 0 && reps < 1
    ensures r == Some(InvalidSets) <==> weight >= 0 && reps >= 1 && sets < 1
  {
    if weight < 0 then Some(InvalidWeight)
    else if reps < 1 then Some(InvalidReps)
    else if sets < 1 then Some(InvalidSets)
    else None
  }

  /** Whatever the initializer is given, validating its fields never throws. */
  lemma InitPassesValidation(
    id: Uuid, name: string, weight: int, reps: int, sets: int,
    seat: Option<string>, done: bool, current: Option<int>)
    ensures var e := Init(id, name, weight, reps, sets, seat, done, current);
      Validate(e.weight, e.reps, e.sets).None?
  {
  }
}
