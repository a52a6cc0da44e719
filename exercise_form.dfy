/**
 * The add / edit exercise form
 * (FitnessApp/Features/ExerciseDetail/ViewModel/ExerciseFormViewModel.swift).
 * The form's fields are edited through bindings; the view model clears them,
 * loads an exercise into them, and builds an exercise from them.
 */
module ExerciseForm {
  import opened Optional
  import opened ExerciseModel

  /** The form's editable fields and the exercise being edited, if any. */
  datatype FormFields = FormFields(
    name: string,
    weight: int,
    reps: int,
    sets: int,
    seat: string,
    editingExercise: Option<Exercise>)

  /** The empty form: no name, weight 0, one rep, one set, no seat, nothing edited. */
  const Cleared := FormFields("", 0, 1, 1, "", None)

  /** `isFormValid`: a name, and at least one rep and one set. */
  predicate FormValid(f: FormFields) {
    f.name != [] && f.reps > 0 && f.sets > 0
  }

  /** The seat text as an optional setting: an empty text is no setting. */
  function SeatSetting(seat: string): (r: Option<string>)
    ensures r.None? <==> seat == ""
    ensures r.Some? ==> r.value == seat
  {
    if seat == "" then None else Some(seat)
  }

  /**
   * `createOrUpdateExercise()`: nothing for an invalid form; otherwise the
   * form's values with current reps at the reps. An edit keeps the edited
   * exercise's id and completion; a new exercise takes `newId` (the `UUID()`
   * the initializer draws) and starts unfinished.
   */
  function Build(f: FormFields, newId: Uuid): (r: Option<Exercise>)
    ensures r.None? <==> !FormValid(f)
    ensures r.Some? ==>
      && r.value.name == f.name && r.value.weight == f.weight
      && r.value.reps == f.reps && r.value.sets == f.sets
      && r.value.currentReps == f.reps
      && r.value.seatSetting == SeatSetting(f.seat)
      && r.value.id == (if f.editingExercise.Some? then f.editingExercise.value.id else newId)
      && r.value.isCompleted == (f.editingExercise.Some? && f.editingExercise.value.isCompleted)
  {
    if !FormValid(f) then None
    else match f.editingExercise
      case Some(existing) =>
        Some(Make(existing.id, f.name, f.weight, f.reps, f.sets,
                  SeatSetting(f.seat), existing.isCompleted))
      case None =>
        Some(Make(newId, f.name, f.weight, f.reps, f.sets, SeatSetting(f.seat)))
  }

  /** The fields `loadExercise(_:)` fills in from an exercise. */
  function Loaded(e: Exercise): (f: FormFields)
    ensures f.editingExercise == Some(e)
  {
    FormFields(e.name, e.weight, e.reps, e.sets, e.seatSetting.GetOr(""), Some(e))
  }

  /**
   * Loading an exercise and saving the form unchanged gives the exercise back,
   * with its current reps reset to its reps, whenever the form accepts it and
   * its seat is not an empty text.
   */
  lemma LoadThenBuildRoundTrip(e: Exercise, newId: Uuid)
    requires e.name != [] && e.reps > 0 && e.sets > 0
    requires e.seatSetting != Some("")
    ensures Build(Loaded(e), newId) == Some(e.(currentReps := e.reps))
  {
  }

  /** An exercise the form refuses cannot be saved back unchanged. */
  lemma LoadInvalidRefused(e: Exercise, newId: Uuid)
    requires e.name == [] || e.reps <= 0 || e.sets <= 0
    ensures Build(Loaded(e), newId).None?
  {
  }

  /** A cleared form builds nothing: it has no name. */
  lemma ClearedBuildsNothing(newId: Uuid)
    ensures Build(Cleared, newId).None?
  {
  }

  class ExerciseFormViewModel {
    var showForm: bool
    var name: string
    var weight: int
    var reps: int
    var sets: int
    var seat: string
    var editingExercise: Option<Exercise>

    function Fields(): FormFields
      reads this
    {
      FormFields(name, weight, reps, sets, seat, editingExercise)
    }

    constructor ()
      ensures Fields() == Cleared && !showForm
    {
      showForm := false;
      name := "";
      weight := 0;
      reps := 1;
      sets := 1;
      seat := "";
      editingExercise := None;
    }

    /** `isFormValid`: a name, and at least one rep and one set; the weight is not checked. */
    function IsFormValid(): (r: bool)
      reads this
      ensures r <==> name != "" && reps >= 1 && sets >= 1
    {
      FormValid(Fields())
    }

    /** `createOrUpdateExercise()`, with `newId` standing for the fresh `UUID()`. */
    function CreateOrUpdateExercise(newId: Uuid): (r: Option<Exercise>)
      reads this
      ensures r.None? <==> !IsFormValid()
      ensures r.Some? ==>
        && r.value.name == name && r.value.weight == weight
        && r.value.reps == reps && r.value.sets == sets && r.value.currentReps == reps
        && r.value.seatSetting == SeatSetting(seat)
        && r.value.id == (if editingExercise.Some? then editingExercise.value.id else newId)
        && r.value.isCompleted == (editingExercise.Some? && editingExercise.value.isCompleted)
    {
      Build(Fields(), newId)
    }

    /** `clearForm()`: empty fields, nothing edited, form hidden. */
    method ClearForm()
      modifies this
      ensures Fields() == Cleared && !showForm
    {
      name := "";
      weight := 0;
      reps := 1;
      sets := 1;
      seat := "";
      editingExercise := None;
      showForm := false;
    }

    /** `toggleForm()`: opening keeps the fields; closing clears them. */
    method ToggleForm()
      modifies this
      ensures showForm == !old(showForm)
      ensures showForm ==> Fields() == old(Fields())
      ensures !showForm ==> Fields() == Cleared
    {
      showForm := !showForm;
      if !showForm {
        ClearForm();
      }
    }

    /**
     * `loadExercise(_:)`: fills the fields from the exercise and remembers it
     * as the one being edited; with no exercise, clears (and hides) the form.
     */
    method LoadExercise(exercise: Option<Exercise>)
      modifies this
      ensures exercise.Some? ==> Fields() == Loaded(exercise.value) && showForm == old(showForm)
      ensures exercise.None? ==> Fields() == Cleared && !showForm
    {
      if exercise.Some? {
        var e := exercise.value;
        name := e.name;
        weight := e.weight;
        reps := e.reps;
        sets := e.sets;
        seat := e.seatSetting.GetOr("");
        editingExercise := Some(e);
      } else {
        ClearForm();
        editingExercise := None;
      }
    }
  }

  /** The add button's sequence: load nothing, open the form, fill it in, save. */
  method AddFlow() {
    var form := new ExerciseFormViewModel();
    form.LoadExercise(None);
    form.ToggleForm();
    assert form.showForm && !form.IsFormValid();
    form.name := "Rowing";
    form.weight := 40;
    form.reps := 11;
    form.sets := 3;
    var built := form.CreateOrUpdateExercise(7);
    assert built == Some(Make(7, "Rowing", 40, 11, 3));
  }
}
