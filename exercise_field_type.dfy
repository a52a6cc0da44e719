/**
 * The editable numeric fields of an exercise card
 * (FitnessApp/Core/Model/ExerciseFieldType.swift): each carries its value and
 * an optional frame height, and knows its id, edit field, texts and column.
 */
module ExerciseFieldTypes {
  import opened Optional
  import opened Decimal

  datatype FieldColumn = Left | Right

  /** The fields a sheet edits; only the cases this file maps to are modelled. */
  datatype EditField = WeightField | SetsField | RepsField

  /** `ExerciseFieldType`; the height is a `CGFloat?` the layout passes through. */
  datatype ExerciseFieldType =
    | Weight(value: int, height: Option<real>)
    | Sets(value: int, height: Option<real>)
    | Reps(value: int, height: Option<real>)
  {
    function Id(): string {
      match this
      case Weight(_, _) => "weight"
      case Sets(_, _) => "sets"
      case Reps(_, _) => "reps"
    }

    function EditField(): EditField {
      match this
      case Weight(_, _) => WeightField
      case Sets(_, _) => SetsField
      case Reps(_, _) => RepsField
    }

    /** The value as decimal text, for prefilling an input. */
    function PrefilledValue(): string {
      IntToString(value)
    }

    /** The chip text: weight with " kg", sets with "x", reps bare. */
    function ValueText(): string {
      match this
      case Weight(v, _) => IntToString(v) + " kg"
      case Sets(v, _) => IntToString(v) + "x"
      case Reps(v, _) => IntToString(v)
    }

    function Column(): FieldColumn {
      match this
      case Weight(_, _) => Right
      case Sets(_, _) | Reps(_, _) => Left
    }
  }

  /** Two fields share an id exactly when they are of the same kind, which is also their edit field. */
  lemma IdsIdentifyKind(a: ExerciseFieldType, b: ExerciseFieldType)
    ensures a.Id() == b.Id() <==> a.EditField() == b.EditField()
  {
  }

  /** The prefilled text reads back as the field's value. */
  lemma PrefilledValueRoundTrip(f: ExerciseFieldType)
    ensures ParseInt(f.PrefilledValue()) == Some(f.value)
  {
    IntToStringRoundTrip(f.value);
  }

  /** The chip text starts with the prefilled text and adds the field's unit. */
  lemma ValueTextCarriesValue(f: ExerciseFieldType)
    ensures var p := f.PrefilledValue(); var t := f.ValueText();
      && |p| <= |t| && t[..|p|] == p
      && ParseInt(t[..|p|]) == Some(f.value)
      && t[|p|..] == (match f case Weight(_, _) => " kg" case Sets(_, _) => "x" case Reps(_, _) => "")
  {
    var p, t := f.PrefilledValue(), f.ValueText();
    assert t[..|p|] == p;
    PrefilledValueRoundTrip(f);
  }

  /** Weight sits in the right column, sets and reps in the left one. */
  lemma Columns(f: ExerciseFieldType)
    ensures f.Column() == Right <==> f.Weight?
  {
  }
}
