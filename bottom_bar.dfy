/**
 * Which controls the bottom action bar shows
 * (FitnessApp/Features/BottomBar/BottomActionBarViewModel.swift): a value
 * built from the screen's session state, with one flag per control.
 */
module BottomBar {
  import opened Optional
  import opened Decimal
  import opened ExerciseModel

  datatype BottomActionBar = BottomActionBar(
    isSetInProgress: bool,
    currentSet: int,
    currentExercise: Option<Exercise>,
    hasActiveExercise: bool,
    exercises: seq<Exercise>,
    isLastSetCompleted: bool)
  {
    /** The bar is shown when any of its controls is. */
    predicate ShouldShow() {
      ShowStartButton() || ShowSetControls() || ShowResetProgress()
      || ShowFinishButton() || ShowAddExerciseButton()
    }

    predicate ShowStartButton() {
      hasActiveExercise && !isSetInProgress && !isLastSetCompleted
    }

    predicate ShowSetControls() {
      isSetInProgress && hasActiveExercise && !isLastSetCompleted
    }

    predicate ShowResetProgress() {
      !hasActiveExercise && !isSetInProgress && exercises != []
    }

    predicate ShowFinishButton() {
      isLastSetCompleted && currentExercise.Some?
    }

    predicate ShowAddExerciseButton() {
      exercises == [] || (ShowStartButton() && currentSet == 0) || ShowResetProgress()
    }

    function StartButtonTitle(): string {
      if currentSet == 0 then "Start Training"
      else "Start set " + IntToString(currentSet + 1)
    }
  }

  /** Start and the set controls never show together, and neither once the last set is done. */
  lemma StartAndSetControlsExclusive(bar: BottomActionBar)
    ensures !(bar.ShowStartButton() && bar.ShowSetControls())
    ensures bar.isLastSetCompleted ==> !bar.ShowStartButton() && !bar.ShowSetControls()
    ensures bar.hasActiveExercise && !bar.isLastSetCompleted ==>
      (bar.ShowStartButton() <==> !bar.ShowSetControls())
  {
  }

  /** Reset is offered only when no exercise is active, nothing runs and the list is not empty. */
  lemma ResetProgressExclusive(bar: BottomActionBar)
    ensures bar.ShowResetProgress() ==>
      && !bar.ShowStartButton() && !bar.ShowSetControls()
      && bar.exercises != [] && bar.ShowAddExerciseButton()
  {
  }

  /** While a set runs over a non-empty list, no exercise can be added. */
  lemma NoAddDuringSet(bar: BottomActionBar)
    requires bar.ShowSetControls() && bar.exercises != []
    ensures !bar.ShowAddExerciseButton()
  {
  }

  /**
   * When the bar shows: an empty list, an active exercise whose last set is
   * not done, an idle screen, or a finished exercise still current.
   */
  lemma ShouldShowCases(bar: BottomActionBar)
    ensures bar.ShouldShow() <==>
      || bar.exercises == []
      || (bar.hasActiveExercise && !bar.isLastSetCompleted)
      || (!bar.hasActiveExercise && !bar.isSetInProgress)
      || (bar.isLastSetCompleted && bar.currentExercise.Some?)
  {
  }

  /** "Start Training" exactly before the first set; afterwards the number of the next set. */
  lemma StartButtonTitleCases(bar: BottomActionBar)
    ensures bar.StartButtonTitle() == "Start Training" <==> bar.currentSet == 0
    ensures bar.currentSet != 0 ==>
      var t := bar.StartButtonTitle();
      |t| > 10 && t[..10] == "Start set " && ParseInt(t[10..]) == Some(bar.currentSet + 1)
  {
    if bar.currentSet != 0 {
      var t := bar.StartButtonTitle();
      assert t[10..] == IntToString(bar.currentSet + 1);
      assert t[6] == 's' && "Start Training"[6] == 'T';
      IntToStringRoundTrip(bar.currentSet + 1);
    }
  }
}
