/**
 * The set-by-set log of one exercise in progress
 * (FitnessApp/Features/ExerciseDetail/ViewModel/ActiveSetViewModel.swift),
 * with its stopwatch (FitnessApp/Features/Service/TimerService.swift) and the
 * editing state of the "worse" / "better" input sheet.
 */
module ActiveSet {
  import opened Optional
  import opened Decimal
  import opened ExerciseModel
  import opened SetLog

  /** `SetEditingMode`: the sheet records a worse (`.less`) or a better (`.more`) set. */
  datatype SetEditingMode = LessMode | MoreMode

  /** The stopwatch's displayed count; the one-second ticks of its `Timer` are not modelled. */
  class TimerService {
    var timerSeconds: int

    constructor ()
      ensures timerSeconds == 0
    {
      timerSeconds := 0;
    }

    /** `startTimer()`: the count restarts from 0. */
    method StartTimer()
      modifies this
      ensures timerSeconds == 0
    {
      timerSeconds := 0;
    }

    /** `stopTimer()`: the count is set back to 0. */
    method StopTimer()
      modifies this
      ensures timerSeconds == 0
    {
      timerSeconds := 0;
    }
  }

  /**
   * Storing `p` for set number `index`: appended when the log has no entry
   * there yet, overwriting the entry otherwise.
   */
  function Recorded(log: seq<SetProgress>, index: nat, p: SetProgress): (r: seq<SetProgress>)
    ensures |r| == if |log| <= index then |log| + 1 else |log|
    ensures r[if |log| <= index then |log| else index] == p
    ensures forall k :: 0 <= k < |log| && k != index ==> r[k] == log[k]
  {
    if |log| <= index then log + [p] else log[index := p]
  }

  /** When the log holds exactly one entry per finished set, a new set is appended. */
  lemma RecordedAppendsInStep(log: seq<SetProgress>, p: SetProgress)
    ensures Recorded(log, |log|, p) == log + [p]
  {
  }

  /** The action of an edited set: `.less` below the planned reps, otherwise `.more`. */
  function ActionFor(newReps: int, plannedReps: int): (a: SetAction)
    ensures a == Less <==> newReps < plannedReps
    ensures a == More <==> newReps >= plannedReps
  {
    if newReps < plannedReps then Less else More
  }

  /**
   * `isInputValid`: both inputs parse as integers, there is a current
   * exercise, and the entry is strictly worse (`.less`) or strictly better
   * (`.more`) than planned in reps or in weight.
   */
  function InputValid(repsInput: string, weightInput: string, exercise: Option<Exercise>,
                      mode: SetEditingMode): bool
  {
    match (ParseInt(repsInput), ParseInt(weightInput), exercise)
    case (Some(reps), Some(weight), Some(e)) =>
      if mode == LessMode then reps < e.reps || weight < e.weight
      else reps > e.reps || weight > e.weight
    case _ => false
  }

  /** The iff form of `isInputValid` for the worse-set sheet. */
  lemma InputValidLess(repsInput: string, weightInput: string, e: Exercise)
    ensures InputValid(repsInput, weightInput, Some(e), LessMode) <==>
      && ParseInt(repsInput).Some? && ParseInt(weightInput).Some?
      && (ParseInt(repsInput).value < e.reps || ParseInt(weightInput).value < e.weight)
  {
  }

  /** The iff form of `isInputValid` for the better-set sheet. */
  lemma InputValidMore(repsInput: string, weightInput: string, e: Exercise)
    ensures InputValid(repsInput, weightInput, Some(e), MoreMode) <==>
      && ParseInt(repsInput).Some? && ParseInt(weightInput).Some?
      && (ParseInt(repsInput).value > e.reps || ParseInt(weightInput).value > e.weight)
  {
  }

  /** Without a current exercise, or with an input that is not a number, nothing can be saved. */
  lemma InputInvalidCases(repsInput: string, weightInput: string, exercise: Option<Exercise>,
                          mode: SetEditingMode)
    requires exercise.None? || ParseInt(repsInput).None? || ParseInt(weightInput).None?
    ensures !InputValid(repsInput, weightInput, exercise, mode)
  {
  }

  /** The prefilled inputs, the planned reps and weight, are never a valid entry in either mode. */
  lemma PrefilledInputInvalid(e: Exercise, mode: SetEditingMode)
    ensures !InputValid(IntToString(e.reps), IntToString(e.weight), Some(e), mode)
  {
    IntToStringRoundTrip(e.reps);
    IntToStringRoundTrip(e.weight);
  }

  class ActiveSetViewModel {
    var currentExercise: Option<Exercise>
    var setProgress: seq<SetProgress>
    /** Swift `Int`; only ever set to 0 or incremented, so never negative. */
    var currentSet: nat
    var isSetInProgress: bool
    var isLastSetCompleted: bool
    const timerService: TimerService
    var isEditing: bool
    var repsInput: string
    var weightInput: string
    var editMode: SetEditingMode

    /**
     * The log holds one entry per finished set; without an exercise nothing is
     * logged or running; the last set is only reported done once the counter
     * has reached the exercise's sets.
     */
    ghost predicate Valid()
      reads this
    {
      && |setProgress| == currentSet
      && (currentExercise.None? ==> currentSet == 0 && !isSetInProgress && !isLastSetCompleted)
      && (isLastSetCompleted ==> currentExercise.Some? && currentSet >= currentExercise.value.sets)
    }

    /** No exercise, no log, nothing running. */
    predicate Idle()
      reads this
    {
      currentExercise.None? && setProgress == [] && currentSet == 0
      && !isSetInProgress && !isLastSetCompleted
    }

    /** `timerSeconds` reads through to the timer service. */
    function TimerSeconds(): int
      reads this, timerService
    {
      timerService.timerSeconds
    }

    /** `isInputValid`: only a parsable entry for a current exercise can be valid. */
    function IsInputValid(): (r: bool)
      reads this
      ensures r ==> currentExercise.Some? && ParseInt(repsInput).Some? && ParseInt(weightInput).Some?
    {
      InputValid(repsInput, weightInput, currentExercise, editMode)
    }

    /** `init()`: idle, with a fresh stopwatch and the editing defaults. */
    constructor ()
      ensures Valid() && Idle()
      ensures fresh(timerService) && TimerSeconds() == 0
      ensures !isEditing && repsInput == "" && weightInput == "" && editMode == LessMode
    {
      timerService := new TimerService();
      currentExercise := None;
      setProgress := [];
      currentSet := 0;
      isSetInProgress := false;
      isLastSetCompleted := false;
      isEditing := false;
      repsInput := "";
      weightInput := "";
      editMode := LessMode;
    }

    /** `startSet(for:)`: a new exercise starts from its first set with an empty log. */
    method StartSet(exercise: Exercise)
      modifies this
      ensures Valid()
      ensures currentExercise == Some(exercise) && currentSet == 0 && setProgress == []
      ensures isSetInProgress && !isLastSetCompleted
      ensures isEditing == old(isEditing) && repsInput == old(repsInput)
      ensures weightInput == old(weightInput) && editMode == old(editMode)
    {
      currentExercise := Some(exercise);
      currentSet := 0;
      setProgress := [];
      isSetInProgress := true;
      isLastSetCompleted := false;
    }

    /** `startNextSet()`: a set is running again, when there is an exercise. */
    method StartNextSet()
      modifies this
      ensures old(Valid()) ==> Valid()
      ensures isSetInProgress == (old(isSetInProgress) || old(currentExercise).Some?)
      ensures currentExercise == old(currentExercise) && setProgress == old(setProgress)
      ensures currentSet == old(currentSet) && isLastSetCompleted == old(isLastSetCompleted)
      ensures isEditing == old(isEditing) && repsInput == old(repsInput)
      ensures weightInput == old(weightInput) && editMode == old(editMode)
    {
      if currentExercise.Some? {
        isSetInProgress := true;
      }
    }

    /**
     * The step both ways of finishing a set share: store `progress` for the
     * current set, count the set, stop it, and report the last set done once
     * the counter reaches the exercise's sets.
     */
    method LogSet(progress: SetProgress, exercise: Exercise)
      requires currentExercise == Some(exercise)
      modifies this
      ensures setProgress == Recorded(old(setProgress), old(currentSet), progress)
      ensures currentSet == old(currentSet) + 1 && !isSetInProgress
      ensures isLastSetCompleted == (old(isLastSetCompleted) || currentSet >= exercise.sets)
      ensures old(Valid()) ==> Valid() && setProgress == old(setProgress) + [progress]
      ensures currentExercise == old(currentExercise)
      ensures isEditing == old(isEditing) && repsInput == old(repsInput)
      ensures weightInput == old(weightInput) && editMode == old(editMode)
    {
      if |setProgress| <= currentSet {
        setProgress := setProgress + [progress];
      } else {
        setProgress := setProgress[currentSet := progress];
      }
      currentSet := currentSet + 1;
      if currentSet >= exercise.sets {
        isSetInProgress := false;
        isLastSetCompleted := true;
      } else {
        isSetInProgress := false;
      }
    }

    /**
     * `completeCurrentSet()`: logs the set as done at the planned reps and
     * weight. Without a current exercise nothing changes.
     */
    method CompleteCurrentSet()
      modifies this
      ensures old(currentExercise).None? ==> unchanged(this)
      ensures old(currentExercise).Some? ==>
        var e := old(currentExercise).value;
        && setProgress == Recorded(old(setProgress), old(currentSet), SetProgress(Done, e.reps, e.weight))
        && currentSet == old(currentSet) + 1 && !isSetInProgress
        && isLastSetCompleted == (old(isLastSetCompleted) || currentSet >= e.sets)
        && currentExercise == old(currentExercise)
        && isEditing == old(isEditing) && repsInput == old(repsInput)
        && weightInput == old(weightInput) && editMode == old(editMode)
      ensures old(Valid()) ==> Valid()
    {
      if currentExercise.None? {
        return;
      }
      var exercise := currentExercise.value;
      LogSet(SetProgress(Done, exercise.reps, exercise.weight), exercise);
    }

    /**
     * `updateCurrentReps(_:_:)`: logs the set with the reps and weight actually
     * done, as `.less` below the planned reps and `.more` otherwise. Without a
     * current exercise nothing changes.
     */
    method UpdateCurrentReps(newReps: int, newWeight: int)
      modifies this
      ensures old(currentExercise).None? ==> unchanged(this)
      ensures old(currentExercise).Some? ==>
        var e := old(currentExercise).value;
        && setProgress == Recorded(old(setProgress), old(currentSet),
                                   SetProgress(ActionFor(newReps, e.reps), newReps, newWeight))
        && currentSet == old(currentSet) + 1 && !isSetInProgress
        && isLastSetCompleted == (old(isLastSetCompleted) || currentSet >= e.sets)
        && currentExercise == old(currentExercise)
        && isEditing == old(isEditing) && repsInput == old(repsInput)
        && weightInput == old(weightInput) && editMode == old(editMode)
      ensures old(Valid()) ==> Valid()
    {
      if currentExercise.None? {
        return;
      }
      var exercise := currentExercise.value;
      var action := if newReps < exercise.reps then Less else More;
      LogSet(SetProgress(action, newReps, newWeight), exercise);
    }

    /** `finishExercise()`: back to idle; the editing state stays. */
    method FinishExercise()
      modifies this
      ensures Valid() && Idle()
      ensures isEditing == old(isEditing) && repsInput == old(repsInput)
      ensures weightInput == old(weightInput) && editMode == old(editMode)
    {
      currentExercise := None;
      setProgress := [];
      currentSet := 0;
      isSetInProgress := false;
      isLastSetCompleted := false;
    }

    /** `resetProgress()`: the same return to idle as finishing. */
    method ResetProgress()
      modifies this
      ensures Valid() && Idle()
      ensures isEditing == old(isEditing) && repsInput == old(repsInput)
      ensures weightInput == old(weightInput) && editMode == old(editMode)
    {
      FinishExercise();
    }

    /** `startTimer()`. */
    method StartTimer()
      modifies timerService
      ensures TimerSeconds() == 0
    {
      timerService.StartTimer();
    }

    /** `stopTimer()`. */
    method StopTimer()
      modifies timerService
      ensures TimerSeconds() == 0
    {
      timerService.StopTimer();
    }

    /** `resetEditingState()`: empties both inputs, so nothing can be saved. */
    method ResetEditingState()
      modifies this
      ensures repsInput == "" && weightInput == "" && !IsInputValid()
      ensures isEditing == old(isEditing) && editMode == old(editMode)
      ensures currentExercise == old(currentExercise) && setProgress == old(setProgress)
      ensures currentSet == old(currentSet) && isSetInProgress == old(isSetInProgress)
      ensures isLastSetCompleted == old(isLastSetCompleted)
    {
      repsInput := "";
      weightInput := "";
    }

    /**
     * `startEditing(mode:)`: opens the sheet in `mode`, prefilled with the
     * planned reps and weight as decimal text, which is not yet a valid entry.
     * Without a current exercise nothing changes.
     */
    method StartEditing(mode: SetEditingMode)
      modifies this
      ensures old(currentExercise).None? ==> unchanged(this)
      ensures old(currentExercise).Some? ==>
        var e := old(currentExercise).value;
        && isEditing && editMode == mode
        && repsInput == IntToString(e.reps) && weightInput == IntToString(e.weight)
        && ParseInt(repsInput) == Some(e.reps) && ParseInt(weightInput) == Some(e.weight)
        && !IsInputValid()
        && currentExercise == old(currentExercise) && setProgress == old(setProgress)
        && currentSet == old(currentSet) && isSetInProgress == old(isSetInProgress)
        && isLastSetCompleted == old(isLastSetCompleted)
    {
      if currentExercise.None? {
        return;
      }
      var exercise := currentExercise.value;
      isEditing := true;
      editMode := mode;
      repsInput := IntToString(exercise.reps);
      weightInput := IntToString(exercise.weight);
      IntToStringRoundTrip(exercise.reps);
      IntToStringRoundTrip(exercise.weight);
      PrefilledInputInvalid(exercise, mode);
    }
  }

  /** A three-set exercise done as planned: three entries, last set reported, nothing running. */
  method ThreeSetsAsPlanned() {
    var vm := new ActiveSetViewModel();
    var e := Make(1, "Rowing", 40, 11, 3);
    vm.StartSet(e);
    vm.CompleteCurrentSet();
    vm.StartNextSet();
    vm.UpdateCurrentReps(9, 40);
    assert !vm.isLastSetCompleted;
    vm.StartNextSet();
    vm.CompleteCurrentSet();
    assert vm.setProgress == [SetProgress(Done, 11, 40), SetProgress(Less, 9, 40), SetProgress(Done, 11, 40)];
    assert vm.isLastSetCompleted && !vm.isSetInProgress && vm.currentSet == 3;
    vm.FinishExercise();
    assert vm.Idle();
  }
}
