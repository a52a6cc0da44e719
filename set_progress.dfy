/** The outcome of one performed set (FitnessApp/Core/Model/SetProgress.swift). */
module SetLog {
  /** How a set went: `.none`, `.done` (as planned), `.less` or `.more`. */
  datatype SetAction = NoAction | Done | Less | More

  /** The reps actually performed and the weight actually used in one set. */
  datatype SetProgress = SetProgress(action: SetAction, currentReps: int, weight: int)
}
