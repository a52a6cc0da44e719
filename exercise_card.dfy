/**
 * The exercise card of the exercise list
 * (FitnessApp/Features/Exercise/ExerciseCard/ExerciseCardViewModel.swift),
 * with the interaction ids of FitnessApp/Shared/Design/ExerciseCardConfig.swift
 * and the field data of FitnessApp/Shared/Model/ExerciseFieldData.swift.
 *
 * The card reports every change of its exercise to an `onUpdate` callback.
 * The callback is outside the model: the card keeps the list of exercises it
 * has passed to it, in call order.
 */
module ExerciseCard {
  import opened Optional
  import opened Decimal
  import opened ExerciseModel

  datatype EditType = SeatChip | WeightChip | SetsChip | RepsChip {
    function RawValue(): string {
      match this
      case SeatChip => "seatChip"
      case WeightChip => "weightChip"
      case SetsChip => "setsChip"
      case RepsChip => "repsChip"
    }
  }

  datatype ActionType = AnalyticsIcon | AnalyticsText | ExerciseCardTitleText {
    function RawValue(): string {
      match this
      case AnalyticsIcon => "analyticsIcon"
      case AnalyticsText => "analyticsText"
      case ExerciseCardTitleText => "exerciseCardTitleText"
    }
  }

  datatype InteractionField = Edit(editType: EditType) | Action(actionType: ActionType) {
    function Id(): string {
      match this
      case Edit(t) => "edit_" + t.RawValue()
      case Action(a) => "action_" + a.RawValue()
    }
  }

  /** Interaction ids are unique: different fields never share one. */
  lemma InteractionIdsDistinct(a: InteractionField, b: InteractionField)
    ensures a.Id() == b.Id() <==> a == b
  {
    if a != b {
      match (a, b)
      case (Edit(t), Edit(u)) =>
        assert a.Id()[5..] == t.RawValue() && b.Id()[5..] == u.RawValue();
      case (Action(t), Action(u)) =>
        assert a.Id()[7..] == t.RawValue() && b.Id()[7..] == u.RawValue();
      case (Edit(_), Action(_)) =>
        assert a.Id()[0] != b.Id()[0];
      case (Action(_), Edit(_)) =>
        assert a.Id()[0] != b.Id()[0];
    }
  }

  /** `ExerciseFieldData`: a field and its value. */
  datatype ExerciseFieldData = ExerciseFieldData(field: InteractionField, value: int) {
    function Id(): string {
      field.Id()
    }

    function PrefilledValue(): string {
      IntToString(value)
    }
  }

  /** The seat chip's placeholder (`L10n.seatChipDefaultvalue`). */
  const SeatChipDefaultValue := "+"

  /**
   * The data rows of `generateStyledFieldData()`: weight, sets and reps of the
   * exercise, in that order. The styles are presentation only.
   */
  function FieldData(e: Exercise): (r: seq<ExerciseFieldData>)
    ensures |r| == 3
  {
    [ExerciseFieldData(Edit(WeightChip), e.weight),
     ExerciseFieldData(Edit(SetsChip), e.sets),
     ExerciseFieldData(Edit(RepsChip), e.reps)]
  }

  /** The rows are weight, sets and reps, with their edit ids, and no two share an id. */
  lemma FieldDataIds(e: Exercise)
    ensures var r := FieldData(e);
      && r[0].Id() == "edit_weightChip" && r[1].Id() == "edit_setsChip" && r[2].Id() == "edit_repsChip"
      && forall i, j :: 0 <= i < j < |r| ==> r[i].Id() != r[j].Id()
  {
  }

  /** The rows show the exercise's weight, sets and reps, prefilled as text that reads back as the value. */
  lemma FieldDataValues(e: Exercise)
    ensures var r := FieldData(e);
      && r[0].value == e.weight && r[1].value == e.sets && r[2].value == e.reps
      && forall i :: 0 <= i < |r| ==> ParseInt(r[i].PrefilledValue()) == Some(r[i].value)
  {
    IntToStringRoundTrip(e.weight);
    IntToStringRoundTrip(e.sets);
    IntToStringRoundTrip(e.reps);
  }

  /** `displaySeatText`: the seat setting when there is a non-empty one, otherwise "+". */
  function DisplaySeatText(seatSetting: Option<string>): (r: string)
    ensures seatSetting.Some? && seatSetting.value != "" ==> r == seatSetting.value
    ensures seatSetting.None? || seatSetting.value == "" ==> r == SeatChipDefaultValue
    ensures r != ""
  {
    if seatSetting.Some? && seatSetting.value != "" then seatSetting.value
    else SeatChipDefaultValue
  }

  class ExerciseCardViewModel {
    var exercise: Exercise
    /** The arguments of every `onUpdate` call so far. */
    var notified: seq<Exercise>

    /** `init(exercise:onUpdate:)`: property observers do not run in an initializer. */
    constructor (exercise: Exercise)
      ensures this.exercise == exercise && notified == []
    {
      this.exercise := exercise;
      notified := [];
    }

    /** Assigning the exercise from outside: `didSet` reports it once. */
    method SetExercise(e: Exercise)
      modifies this
      ensures exercise == e && notified == old(notified) + [e]
    {
      exercise := e;
      notified := notified + [exercise];
    }

    /**
     * The update methods change one field; `didSet` reports the new exercise
     * and the method reports it again, so each change reaches `onUpdate` twice.
     */
    method UpdateSeat(newSeat: string)
      modifies this
      ensures exercise == old(exercise).(seatSetting := Some(newSeat))
      ensures notified == old(notified) + [exercise, exercise]
    {
      SetExercise(exercise.(seatSetting := Some(newSeat)));
      notified := notified + [exercise];
    }

    method UpdateWeight(newWeight: int)
      modifies this
      ensures exercise == old(exercise).(weight := newWeight)
      ensures notified == old(notified) + [exercise, exercise]
    {
      SetExercise(exercise.(weight := newWeight));
      notified := notified + [exercise];
    }

    method UpdateSets(newSets: int)
      modifies this
      ensures exercise == old(exercise).(sets := newSets)
      ensures notified == old(notified) + [exercise, exercise]
    {
      SetExercise(exercise.(sets := newSets));
      notified := notified + [exercise];
    }

    method UpdateReps(newReps: int)
      modifies this
      ensures exercise == old(exercise).(reps := newReps)
      ensures notified == old(notified) + [exercise, exercise]
    {
      SetExercise(exercise.(reps := newReps));
      notified := notified + [exercise];
    }

    /** The card's rows: its weight, sets and reps, each prefilled as text that reads back. */
    function GenerateFieldData(): (r: seq<ExerciseFieldData>)
      reads this
      ensures |r| == 3
      ensures r[0].value == exercise.weight && r[1].value == exercise.sets && r[2].value == exercise.reps
      ensures forall i :: 0 <= i < |r| ==> ParseInt(r[i].PrefilledValue()) == Some(r[i].value)
    {
      FieldDataValues(exercise);
      FieldData(exercise)
    }

    /** The seat chip's text: the card's non-empty seat setting, or the placeholder. */
    function DisplayedSeatText(): (r: string)
      reads this
      ensures r != ""
      ensures exercise.seatSetting.Some? && exercise.seatSetting.value != "" ==> r == exercise.seatSetting.value
    {
      DisplaySeatText(exercise.seatSetting)
    }
  }

  /** Editing the seat: the chip shows the new text, and the callback saw the change twice. */
  method SeatEditReportsTwice() {
    var card := new ExerciseCardViewModel(Make(1, "Rowing", 40, 11, 3));
    assert card.DisplayedSeatText() == "+";
    card.UpdateSeat("4");
    assert card.DisplayedSeatText() == "4";
    assert |card.notified| == 2 && card.notified[0] == card.notified[1] == card.exercise;
    card.UpdateSeat("");
    assert card.DisplayedSeatText() == "+" && |card.notified| == 4;
  }
}
