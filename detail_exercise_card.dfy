/**
 * The exercise card of the exercise-detail screen
 * (FitnessApp/Features/ExerciseDetail/ViewModel/ExerciseCardViewModel.swift):
 * like the list's card, but without a `didSet`, so each change reaches
 * `onUpdate` once. `notified` records the callback's arguments in call order.
 */
module DetailExerciseCard {
  import opened Optional
  import opened ExerciseModel

  class ExerciseCardViewModel {
    var exercise: Exercise
    var notified: seq<Exercise>

    constructor (exercise: Exercise)
      ensures this.exercise == exercise && notified == []
    {
      this.exercise := exercise;
      notified := [];
    }

    method UpdateSeat(newSeat: string)
      modifies this
      ensures exercise == old(exercise).(seatSetting := Some(newSeat))
      ensures notified == old(notified) + [exercise]
    {
      exercise := exercise.(seatSetting := Some(newSeat));
      notified := notified + [exercise];
    }

    method UpdateWeight(newWeight: int)
      modifies this
      ensures exercise == old(exercise).(weight := newWeight)
      ensures notified == old(notified) + [exercise]
    {
      exercise := exercise.(weight := newWeight);
      notified := notified + [exercise];
    }

    method UpdateSets(newSets: int)
      modifies this
      ensures exercise == old(exercise).(sets := newSets)
      ensures notified == old(notified) + [exercise]
    {
      exercise := exercise.(sets := newSets);
      notified := notified + [exercise];
    }

    method UpdateReps(newReps: int)
      modifies this
      ensures exercise == old(exercise).(reps := newReps)
      ensures notified == old(notified) + [exercise]
    {
      exercise := exercise.(reps := newReps);
      notified := notified + [exercise];
    }
  }
}
