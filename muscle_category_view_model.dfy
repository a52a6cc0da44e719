/**
 * The workout session of one muscle group
 * (FitnessApp/Features/ExerciseDetail/ViewModel/MuscleCategoryViewModel.swift).
 * It owns the group's exercise list, drives one current exercise through its
 * sets, moves a finished exercise to the end of the list, resets progress,
 * and writes the list back to storage after each change of the list.
 */
module MuscleCategorySession {
  import opened Optional
  import opened Decimal
  import opened ExerciseModel
  import opened MuscleCategories
  import ClampedExercise
  import Sequences

  /**
   * The exercise storage collaborator (`ExerciseStoring`): one saved list per
   * group, and a count of `save` calls, as the test suite's mock keeps it.
   */
  class ExerciseStore {
    var saved: map<MuscleCategoryGroup, seq<Exercise>>
    var saveCount: nat

    constructor (initial: map<MuscleCategoryGroup, seq<Exercise>>)
      ensures saved == initial && saveCount == 0
    {
      saved := initial;
      saveCount := 0;
    }

    /** `load(for:)`: the list saved for the group, or an empty list when there is none. */
    function Load(group: MuscleCategoryGroup): seq<Exercise>
      reads this
    {
      if group in saved then saved[group] else []
    }

    /** `save(_:for:)`: replaces the group's list and counts the call. */
    method Save(exercises: seq<Exercise>, group: MuscleCategoryGroup)
      modifies this
      ensures saved == old(saved)[group := exercises]
      ensures saveCount == old(saveCount) + 1
      ensures Load(group) == exercises
      ensures forall g :: g != group ==> Load(g) == old(Load(g))
    {
      saved := saved[group := exercises];
      saveCount := saveCount + 1;
    }
  }

  /** `firstIndex(where: { $0.id == id })`. */
  function FirstIndexOf(s: seq<Exercise>, id: Uuid): (r: Option<nat>)
    ensures r.Some? ==> r.value < |s| && s[r.value].id == id
    ensures r.Some? ==> forall j :: 0 <= j < r.value ==> s[j].id != id
    ensures r.None? ==> forall j :: 0 <= j < |s| ==> s[j].id != id
  {
    if s == [] then None
    else if s[0].id == id then Some(0)
    else match FirstIndexOf(s[1..], id)
      case None => None
      case Some(k) => Some(k + 1)
  }

  /** The ids present in a list. */
  function IdSet(s: seq<Exercise>): set<Uuid> {
    set k | 0 <= k < |s| :: s[k].id
  }

  /** The list after the entry at `index` is removed and `e`, marked completed, is appended. */
  function MovedToEndCompleted(s: seq<Exercise>, index: nat, e: Exercise): seq<Exercise>
    requires index < |s|
  {
    s[..index] + s[index + 1..] + [e.(isCompleted := true)]
  }

  /**
   * Moving a finished exercise to the end keeps the length and the ids of the
   * list, puts the completed exercise last and keeps the others in order.
   */
  lemma MovedToEndKeepsIds(s: seq<Exercise>, index: nat, e: Exercise)
    requires index < |s| && s[index].id == e.id
    ensures var r := MovedToEndCompleted(s, index, e);
      && |r| == |s|
      && IdSet(r) == IdSet(s)
      && r[|r| - 1] == e.(isCompleted := true) && r[|r| - 1].isCompleted
      && r[..|r| - 1] == s[..index] + s[index + 1..]
  {
    var r := MovedToEndCompleted(s, index, e);
    forall id | id in IdSet(s)
      ensures id in IdSet(r)
    {
      var k :| 0 <= k < |s| && s[k].id == id;
      if k < index {
        assert r[k] == s[k];
      } else if k == index {
        assert r[|r| - 1].id == id;
      } else {
        assert r[k - 1] == s[k];
      }
    }
    forall id | id in IdSet(r)
      ensures id in IdSet(s)
    {
      var k :| 0 <= k < |r| && r[k].id == id;
      if k < index {
        assert s[k] == r[k];
      } else if k == |r| - 1 {
        assert s[index].id == id;
      } else {
        assert s[k + 1] == r[k];
      }
    }
  }

  /** What `resetProgress` does to one entry: unfinished, current reps back at its reps. */
  function ResetEntry(e: Exercise): (r: Exercise)
    ensures !r.isCompleted && r.currentReps == r.reps
    ensures r.id == e.id && r.name == e.name && r.weight == e.weight && r.reps == e.reps
    ensures r.sets == e.sets && r.seatSetting == e.seatSetting
  {
    e.(isCompleted := false, currentReps := e.reps)
  }

  /** Every entry of the list reset. */
  function ResetAll(s: seq<Exercise>): (r: seq<Exercise>)
    ensures |r| == |s|
    ensures forall k :: 0 <= k < |s| ==> r[k] == ResetEntry(s[k])
  {
    seq(|s|, k requires 0 <= k < |s| => ResetEntry(s[k]))
  }

  /** Resetting an already reset list changes nothing. */
  lemma ResetAllIdempotent(s: seq<Exercise>)
    ensures ResetAll(ResetAll(s)) == ResetAll(s)
  {
  }

  /** On exercises the clamping variant could hold, the field-wise reset here is its `reset()`. */
  lemma ResetEntryIsClampedReset(e: Exercise)
    requires ClampedExercise.Legal(e)
    ensures ResetEntry(e) == ClampedExercise.Reset(e)
  {
  }

  /**
   * The start button's title: "Start Sets" before the first set, otherwise
   * "Set <n> Start" naming the set about to start.
   */
  function StartTitle(currentSet: int): (r: string)
    ensures r == "Start Sets" <==> currentSet == 0
    ensures currentSet != 0 ==>
      && |r| > 10
      && r[..4] == "Set " && r[|r| - 6..] == " Start"
      && ParseInt(r[4..|r| - 6]) == Some(currentSet + 1)
  {
    if currentSet == 0 then "Start Sets"
    else
      var number := IntToString(currentSet + 1);
      var r := "Set " + number + " Start";
      assert r[1] == 'e' && "Start Sets"[1] == 't';
      assert r[4..|r| - 6] == number;
      IntToStringRoundTrip(currentSet + 1);
      r
  }

  class MuscleCategoryViewModel {
    var exercises: seq<Exercise>
    var isSetInProgress: bool
    var currentExercise: Option<Exercise>
    var currentSet: nat
    const group: MuscleCategoryGroup
    const storage: ExerciseStore

    /** With no current exercise the session is idle: set counter at 0, no set running. */
    ghost predicate Valid()
      reads this
    {
      currentExercise.None? ==> currentSet == 0 && !isSetInProgress
    }

    /** `startButtonTitle`. */
    function StartButtonTitle(): string
      reads this
    {
      StartTitle(currentSet)
    }

    /** `init(group:storage:)`: loads the group's list; nothing is in progress. */
    constructor (group: MuscleCategoryGroup, storage: ExerciseStore)
      ensures Valid()
      ensures this.group == group && this.storage == storage
      ensures exercises == storage.Load(group)
      ensures !isSetInProgress && currentExercise.None? && currentSet == 0
    {
      this.group := group;
      this.storage := storage;
      exercises := storage.Load(group);
      isSetInProgress := false;
      currentExercise := None;
      currentSet := 0;
    }

    /** `save()`: hands the whole list to storage. */
    method Save()
      modifies storage
      ensures storage.saved == old(storage.saved)[group := exercises]
      ensures storage.saveCount == old(storage.saveCount) + 1
    {
      storage.Save(exercises, group);
    }

    /**
     * `startSet(for:)`: the set counter restarts only for a different exercise;
     * the exercise becomes current and a set is running. Nothing is saved.
     */
    method StartSet(exercise: Exercise)
      requires Valid()
      modifies this
      ensures Valid()
      ensures currentExercise == Some(exercise) && isSetInProgress
      ensures currentSet == (if old(currentExercise).Some? && old(currentExercise).value.id == exercise.id
                             then old(currentSet) else 0)
      ensures exercises == old(exercises)
      ensures unchanged(storage)
    {
      if currentExercise.None? || currentExercise.value.id != exercise.id {
        currentSet := 0;
      }
      currentExercise := Some(exercise);
      isSetInProgress := true;
    }

    /**
     * What `completeCurrentSet` does. Without a current exercise: nothing. Otherwise
     * the set counter goes up and the set stops; once it reaches the exercise's
     * sets and the exercise is in the list, that entry is moved to the end marked
     * completed, the session goes idle and the list is saved once.
     */
    twostate predicate SetCompleted()
      reads this, storage
    {
      if old(currentExercise).None? then
        && exercises == old(exercises) && currentExercise == old(currentExercise)
        && currentSet == old(currentSet) && isSetInProgress == old(isSetInProgress)
        && storage.saved == old(storage.saved) && storage.saveCount == old(storage.saveCount)
      else
        var e := old(currentExercise).value;
        var index := FirstIndexOf(old(exercises), e.id);
        && !isSetInProgress
        && if old(currentSet) + 1 >= e.sets && index.Some? then
             && exercises == MovedToEndCompleted(old(exercises), index.value, e)
             && currentExercise.None? && currentSet == 0
             && storage.saved == old(storage.saved)[group := exercises]
             && storage.saveCount == old(storage.saveCount) + 1
           else
             && exercises == old(exercises) && currentExercise == old(currentExercise)
             && currentSet == old(currentSet) + 1
             && storage.saved == old(storage.saved) && storage.saveCount == old(storage.saveCount)
    }

    /** `completeCurrentSet()`. */
    method CompleteCurrentSet()
      requires Valid()
      modifies this, storage
      ensures Valid()
      ensures SetCompleted()
    {
      if currentExercise.None? {
        return;
      }
      var exercise := currentExercise.value;
      currentSet := currentSet + 1;
      isSetInProgress := false;
      if currentSet >= exercise.sets {
        var index := FirstIndexOf(exercises, exercise.id);
        if index.Some? {
          var updated := exercise.(isCompleted := true);
          exercises := exercises[..index.value] + exercises[index.value + 1..];
          exercises := exercises + [updated];
          currentExercise := None;
          currentSet := 0;
          Save();
        }
      }
    }

    /** `updateCurrentSetReps(_:)`: ignores the reps and completes the current set. */
    method UpdateCurrentSetReps(newReps: int)
      requires Valid()
      modifies this, storage
      ensures Valid()
      ensures SetCompleted()
    {
      CompleteCurrentSet();
    }

    /**
     * `updateCurrentReps(_:)`: when the current exercise is in the list, its
     * entry there is replaced by the current exercise with the new current
     * reps, which also becomes the current exercise, and the list is saved
     * once. Otherwise nothing changes and nothing is saved.
     */
    method UpdateCurrentReps(newReps: int)
      requires Valid()
      modifies this, storage
      ensures Valid()
      ensures currentSet == old(currentSet) && isSetInProgress == old(isSetInProgress)
      ensures old(currentExercise).Some? && FirstIndexOf(old(exercises), old(currentExercise).value.id).Some? ==>
        var updated := old(currentExercise).value.(currentReps := newReps);
        var index := FirstIndexOf(old(exercises), updated.id).value;
        && exercises == old(exercises)[index := updated]
        && currentExercise == Some(updated)
        && storage.saved == old(storage.saved)[group := exercises]
        && storage.saveCount == old(storage.saveCount) + 1
      ensures old(currentExercise).None? || FirstIndexOf(old(exercises), old(currentExercise).value.id).None? ==>
        unchanged(this, storage)
    {
      if currentExercise.Some? {
        var exercise := currentExercise.value;
        var index := FirstIndexOf(exercises, exercise.id);
        if index.Some? {
          var updated := exercise.(currentReps := newReps);
          exercises := exercises[index.value := updated];
          currentExercise := Some(updated);
          Save();
        }
      }
    }

    /** `add(_:)`: appends at the end and saves once. */
    method Add(exercise: Exercise)
      requires Valid()
      modifies this, storage
      ensures Valid()
      ensures exercises == old(exercises) + [exercise]
      ensures currentExercise == old(currentExercise) && currentSet == old(currentSet)
      ensures isSetInProgress == old(isSetInProgress)
      ensures storage.saved == old(storage.saved)[group := exercises]
      ensures storage.saveCount == old(storage.saveCount) + 1
    {
      exercises := exercises + [exercise];
      Save();
    }

    /**
     * `delete(at:)`: removes exactly the entries at the given offsets, keeping
     * the others in order, and saves once. Swift traps on an offset outside the
     * list, so every offset must be a valid position.
     */
    method Delete(offsets: set<int>)
      requires Valid()
      requires forall o :: o in offsets ==> 0 <= o < |exercises|
      modifies this, storage
      ensures Valid()
      ensures exercises == Sequences.RemoveOffsets(old(exercises), offsets)
      ensures |exercises| == |old(exercises)| - |offsets|
      ensures currentExercise == old(currentExercise) && currentSet == old(currentSet)
      ensures isSetInProgress == old(isSetInProgress)
      ensures storage.saved == old(storage.saved)[group := exercises]
      ensures storage.saveCount == old(storage.saveCount) + 1
    {
      Sequences.RemoveOffsetsLength(exercises, offsets);
      exercises := Sequences.RemoveOffsets(exercises, offsets);
      Save();
    }

    /**
     * `updateExercise(_:)`: replaces the first entry with the same id and saves
     * once; with no such entry nothing changes and nothing is saved.
     */
    method UpdateExercise(updated: Exercise)
      requires Valid()
      modifies this, storage
      ensures Valid()
      ensures currentExercise == old(currentExercise) && currentSet == old(currentSet)
      ensures isSetInProgress == old(isSetInProgress)
      ensures FirstIndexOf(old(exercises), updated.id).Some? ==>
        && exercises == old(exercises)[FirstIndexOf(old(exercises), updated.id).value := updated]
        && storage.saved == old(storage.saved)[group := exercises]
        && storage.saveCount == old(storage.saveCount) + 1
      ensures FirstIndexOf(old(exercises), updated.id).None? ==> unchanged(this, storage)
    {
      var index := FirstIndexOf(exercises, updated.id);
      if index.None? {
        return;
      }
      exercises := exercises[index.value := updated];
      Save();
    }

    /**
     * `resetProgress()`: the session goes idle, every entry is reset (other
     * fields untouched) and the list is saved once.
     */
    method ResetProgress()
      requires Valid()
      modifies this, storage
      ensures Valid()
      ensures exercises == ResetAll(old(exercises))
      ensures !isSetInProgress && currentExercise.None? && currentSet == 0
      ensures storage.saved == old(storage.saved)[group := exercises]
      ensures storage.saveCount == old(storage.saveCount) + 1
    {
      isSetInProgress := false;
      currentExercise := None;
      currentSet := 0;
      for index := 0 to |exercises|
        modifies this`exercises
        invariant |exercises| == |old(exercises)|
        invariant forall k :: 0 <= k < index ==> exercises[k] == ResetEntry(old(exercises)[k])
        invariant forall k :: index <= k < |exercises| ==> exercises[k] == old(exercises)[k]
      {
        exercises := exercises[index := exercises[index].(isCompleted := false)];
        exercises := exercises[index := exercises[index].(currentReps := exercises[index].reps)];
      }
      Save();
    }
  }
}

/**
 * The scenarios of FitnessAppTests/ViewModels/MuscleCategoryViewModelTests.swift,
 * written as client code of the model with the tests' expectations as assertions.
 */
module MuscleCategoryScenarios {
  import opened Optional
  import opened ExerciseModel
  import opened MuscleCategories
  import opened MuscleCategorySession

  /** The tests' sample exercise: "Rowing", 40 kg, 11 reps, 3 sets. */
  function Rowing(id: Uuid): (e: Exercise)
    ensures e.sets == 3 && e.currentReps == 11 && !e.isCompleted
  {
    Make(id, "Rowing", 40, 11, 3)
  }

  method InitLoadsExercisesFromStorage() {
    var e := Rowing(1);
    var store := new ExerciseStore(map[MuscleCategoryGroup.Arms := [e]]);
    var vm := new MuscleCategoryViewModel(MuscleCategoryGroup.Arms, store);
    assert |vm.exercises| == 1 && vm.exercises[0].id == e.id;
  }

  method StartSetUpdatesStateWithoutSaving() {
    var store := new ExerciseStore(map[]);
    var vm := new MuscleCategoryViewModel(MuscleCategoryGroup.Arms, store);
    var e := Rowing(1);
    vm.Add(e);
    vm.StartSet(e);
    assert vm.isSetInProgress && vm.currentExercise == Some(e);
    assert store.saveCount == 1;
  }

  method CompleteSetStopsTheSetWithoutSaving() {
    var store := new ExerciseStore(map[]);
    var vm := new MuscleCategoryViewModel(MuscleCategoryGroup.Arms, store);
    var e := Rowing(1);
    vm.Add(e);
    vm.StartSet(e);
    vm.CompleteCurrentSet();
    assert !vm.isSetInProgress && vm.currentSet == 1;
    assert store.saveCount == 1;
  }

  method CompleteAllSetsMarksExerciseCompleted() {
    var store := new ExerciseStore(map[]);
    var vm := new MuscleCategoryViewModel(MuscleCategoryGroup.Arms, store);
    var e := Rowing(1);
    vm.Add(e);
    vm.StartSet(vm.exercises[0]);
    vm.CompleteCurrentSet();
    vm.StartSet(vm.exercises[0]);
    vm.CompleteCurrentSet();
    assert vm.currentSet == 2 && store.saveCount == 1;
    vm.StartSet(vm.exercises[0]);
    vm.CompleteCurrentSet();
    assert vm.exercises == [e.(isCompleted := true)];
    assert vm.currentExercise.None? && vm.currentSet == 0;
    assert store.saveCount == 2 && store.Load(MuscleCategoryGroup.Arms) == vm.exercises;
  }

  method ResetProgressResetsAllExercises() {
    var store := new ExerciseStore(map[]);
    var vm := new MuscleCategoryViewModel(MuscleCategoryGroup.Arms, store);
    var e := Rowing(1);
    vm.Add(e);
    vm.StartSet(vm.exercises[0]);
    vm.CompleteCurrentSet();
    vm.ResetProgress();
    assert !vm.exercises[0].isCompleted && vm.currentSet == 0;
    assert store.saveCount == 2;
  }

  method UpdateRepsUpdatesTheListEntry() {
    var store := new ExerciseStore(map[]);
    var vm := new MuscleCategoryViewModel(MuscleCategoryGroup.Arms, store);
    var e := Rowing(1);
    vm.Add(e);
    vm.StartSet(e);
    vm.UpdateCurrentReps(8);
    assert vm.exercises[0].currentReps == 8;
    assert store.saveCount == 2;
  }
}
