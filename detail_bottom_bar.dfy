/**
 * The exercise-detail screen's bottom bar
 * (FitnessApp/Features/ExerciseDetail/ViewModel/BottomActionBarViewModel.swift).
 */
module DetailBottomBar {
  import opened Optional
  import opened ExerciseModel
  import MuscleCategorySession

  datatype DetailBottomBar = DetailBottomBar(
    isSetInProgress: bool,
    currentSet: int,
    currentExercise: Option<Exercise>,
    hasActiveExercise: bool)
  {
    predicate ShowResetProgress() {
      !hasActiveExercise && !isSetInProgress
    }

    predicate ShowSetControls() {
      hasActiveExercise && isSetInProgress
    }

    predicate ShowStartButton() {
      hasActiveExercise && !isSetInProgress
    }

    /** `startTitle`: the same text as the session's start button title. */
    function StartTitle(): (r: string)
      ensures r == "Start Sets" <==> currentSet == 0
    {
      MuscleCategorySession.StartTitle(currentSet)
    }
  }

  /**
   * With an active exercise exactly one of start and set controls shows; reset
   * shows alone; with no active exercise but a set running, nothing shows.
   */
  lemma ControlsExclusive(bar: DetailBottomBar)
    ensures bar.hasActiveExercise ==> (bar.ShowStartButton() <==> !bar.ShowSetControls())
    ensures bar.ShowResetProgress() ==> !bar.ShowStartButton() && !bar.ShowSetControls()
    ensures (bar.ShowResetProgress() || bar.ShowStartButton() || bar.ShowSetControls())
      <==> bar.hasActiveExercise || !bar.isSetInProgress
  {
  }
}
