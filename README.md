# FitnessApp workout session — a Dafny model

This project models the logic core of FitnessApp, an iOS strength-training
log written in Swift. A user picks a muscle group, keeps a list of exercises
for it (name, weight, reps, sets, an optional seat setting), and works through
one exercise at a time set by set. Each finished set is logged as done, worse
("less") or better ("more"). A finished exercise moves to the end of the list
marked completed. Progress can be reset. The list is saved per group, and a
finished exercise's set log goes into a per-exercise history.

The model has one Dafny module per Swift file of that core:

- `MuscleCategorySession` (muscle_category_view_model.dfy): the group's
  session view model, as a class over its exercise list, with the exercise
  storage as a second class. The storage holds one list per group, as the
  app's storage service does (it keys each list by the group's raw value).
  It also counts saves, as the test suite's mock does. `MuscleCategoryScenarios` restates
  the test suite's cases as client code with its expected save counts.
- `ActiveSet` (active_set.dfy): the per-set log view model, as a class with
  its stopwatch, plus the "worse / better" input check.
- `ActiveSetPanel` (active_set_view.dfy): the `mm:ss` clock text and the
  logged-or-pending rows of the active-set panel.
- `ExerciseModel` and `ClampedExercise`: the two `Exercise` structs. They have
  the same fields: the first stores its arguments as given, the second clamps
  them.
- `BottomBar` and `DetailBottomBar`: which bottom-bar buttons are visible.
- `ExerciseForm`: the add / edit form.
- `ExerciseCard` and `DetailExerciseCard`: the two exercise-card view models
  and their change notifications.
- `Analytics`: the per-exercise history log.
- `Profile`: the nickname screen.
- `MuscleCategories`: categories, groups and the mapping between them.
- `ExerciseFieldTypes`: the numeric chip fields and their texts.
- Support modules: `Optional` (Swift's `Optional`), `Decimal` (`"\(n)"` and
  `Int(String)`), `Sequences` (`remove(atOffsets:)` and order-preserving
  filters) and `SetLog` (`SetProgress`).

The platform's values are parameters: `UUID()` is a `Uuid` argument, `Date()`
is a `Date` argument, and `Calendar.isDate(_:inSameDayAs:)` is a `sameDay`
function argument. Storage is a map in a class, and `onUpdate` callbacks are
recorded as a list of the exercises they received.

## Model

| member | source | states |
|---|---|---|
| ExerciseModel.Make | FitnessApp/Core/Model/Exercise.swift:13-31 | stores id, name, weight, reps, sets, seat and completion exactly as given, with no clamping; current reps are the given value, or the reps when none is given |
| ExerciseModel.MakeDefaults | FitnessApp/Core/Model/Exercise.swift:19-21 | with every default taken, an exercise starts unfinished, with no seat setting, and with current reps equal to its reps |
| ExerciseModel.MakeInjective | FitnessApp/Core/Model/Exercise.swift:23-30 | the initializer loses no argument: equal results come only from equal arguments |
| ClampedExercise.Init | FitnessApp/Core/Models/Exercise.swift:15-33 | the result is always legal (weight >= 0, reps >= 1, sets >= 1), with weight, reps and sets clamped and the other fields kept; as written, missing current reps take the unclamped reps argument |
| ClampedExercise.InitDefaultsToRawReps | FitnessApp/Core/Models/Exercise.swift:28-32 | witness: reps 0 is stored as 1, but the current reps start at 0 |
| ClampedExercise.InitCorrected | FitnessApp/Core/Models/Exercise.swift:15-33 | corrected initializer: legal result, same clamps, and missing current reps equal the clamped reps (so at least 1) |
| ClampedExercise.InitCorrectedAgrees | FitnessApp/Core/Models/Exercise.swift:28-32 | both initializers agree whenever current reps are given or reps are already at least 1 |
| ClampedExercise.InitMatchesRawOnLegalInput | FitnessApp/Core/Models/Exercise.swift:15-33 | on arguments already in range, the clamping initializer is the raw one |
| ClampedExercise.Updating | FitnessApp/Core/Models/Exercise.swift:38-56 | keeps id and name and every field left out; supplied weight, reps and sets pass through the clamps; a nil seat keeps the stored one; the result is legal |
| ClampedExercise.UpdatingNothingIsIdentity | FitnessApp/Core/Models/Exercise.swift:38-56 | updating a legal exercise with nothing supplied returns it unchanged |
| ClampedExercise.UpdatingKeepsSeat | FitnessApp/Core/Models/Exercise.swift:52 | passing nil for the seat can never clear a stored seat setting |
| ClampedExercise.MarkCompleted | FitnessApp/Core/Models/Exercise.swift:58-60 | the result is completed; on a legal exercise nothing else changes |
| ClampedExercise.Reset | FitnessApp/Core/Models/Exercise.swift:62-67 | the result is unfinished with current reps back at the reps; on a legal exercise nothing else changes |
| ClampedExercise.ResetIdempotent | FitnessApp/Core/Models/Exercise.swift:62-67 | resetting twice equals resetting once |
| ClampedExercise.UpdateCurrentReps | FitnessApp/Core/Models/Exercise.swift:69-71 | stores max(0, n) as current reps and changes nothing else on a legal exercise |
| ClampedExercise.Validate | FitnessApp/Core/Models/Exercise.swift:90-94 | throws nothing iff weight >= 0, reps >= 1 and sets >= 1; otherwise the first failing check in the order weight, reps, sets names the error |
| ClampedExercise.InitPassesValidation | FitnessApp/Core/Models/Exercise.swift:15-33 | validating the fields of any initialized exercise never throws |
| MuscleCategories.InGroupExact | FitnessApp/Core/Models/MuscleCategory.swift:49-51 | the filter keeps exactly the categories of the group, as a subsequence in declaration order |
| MuscleCategories.MuscleCategory.Group | FitnessApp/Core/Models/MuscleCategory.swift:25-33 | no contract of its own: the mapping is stated in MuscleCategories.GroupCategoryLists and MuscleCategories.GroupsPartitionCategories |
| MuscleCategories.MuscleCategory.ImageName | FitnessApp/Core/Models/MuscleCategory.swift:14-23 | no contract of its own: stated in MuscleCategories.ImageNames |
| MuscleCategories.MuscleCategoryGroup.ImageName | FitnessApp/Core/Models/MuscleCategory.swift:45-47 | no contract of its own: stated in MuscleCategories.ImageNames |
| MuscleCategories.MuscleCategoryGroup.Categories | FitnessApp/Core/Models/MuscleCategory.swift:49-51 | no contract of its own: stated in MuscleCategories.CategoriesOfGroup and MuscleCategories.GroupCategoryLists |
| MuscleCategories.CategoriesOfGroup | FitnessApp/Core/Models/MuscleCategory.swift:49-51 | a category is in a group's list iff that is its group |
| MuscleCategories.GroupsPartitionCategories | FitnessApp/Core/Models/MuscleCategory.swift:25-33 | every category is listed under exactly one group, and no group's list is empty |
| MuscleCategories.GroupCategoryLists | FitnessApp/Core/Models/MuscleCategory.swift:25-33 | the mapping: biceps and triceps to arms, back and shoulders to back, chest, legs and abs to their namesakes |
| MuscleCategories.IdsDistinct | FitnessApp/Core/Models/MuscleCategory.swift:3-12 | ids are the raw values, and distinct cases have distinct ids in both enumerations |
| MuscleCategories.ImageNames | FitnessApp/Core/Models/MuscleCategory.swift:14-23 | group pictures are the lower-cased raw values; shoulders has its own, every other category shows its group's |
| Sequences.SubsequenceElements | FitnessApp/Features/Analytics/AnalyticsViewModel.swift:37-39 | a filtered list is no longer than its source and holds only its elements |
| Sequences.KeptIndicesCount | FitnessApp/Features/ExerciseDetail/ViewModel/MuscleCategoryViewModel.swift:91 | removing a set of valid offsets keeps exactly n minus their number of positions |
| Sequences.RemoveOffsetsKeeps | FitnessApp/Features/ExerciseDetail/ViewModel/MuscleCategoryViewModel.swift:91 | the k-th element left by `remove(atOffsets:)` is the element at the k-th position not removed |
| Sequences.RemoveOffsetsLength | FitnessApp/Features/ExerciseDetail/ViewModel/MuscleCategoryViewModel.swift:90-93 | removing valid offsets shortens the list by exactly their number |
| MuscleCategorySession.ExerciseStore.Save | FitnessApp/Features/ExerciseDetail/Storage/ExerciseStorageService.swift:19-23 | the group's list is replaced and other groups are untouched, as the storage service keys lists by group; the save count goes up by one, as the test mock's `save` (FitnessAppTests/ViewModels/MuscleCategoryViewModelTests.swift lines 142-147) counts calls |
| MuscleCategorySession.FirstIndexOf | FitnessApp/Features/ExerciseDetail/ViewModel/MuscleCategoryViewModel.swift:44 | the first position holding the id, or none when no entry has it |
| MuscleCategorySession.MovedToEndKeepsIds | FitnessApp/Features/ExerciseDetail/ViewModel/MuscleCategoryViewModel.swift:43-52 | moving a finished exercise to the end keeps the list's length and ids, puts it last marked completed, and keeps the others in order |
| MuscleCategorySession.ResetEntry | FitnessApp/Features/ExerciseDetail/ViewModel/MuscleCategoryViewModel.swift:110-111 | an entry becomes unfinished with current reps equal to its reps; its other fields are unchanged |
| MuscleCategorySession.ResetAll | FitnessApp/Features/ExerciseDetail/ViewModel/MuscleCategoryViewModel.swift:109-112 | every entry is reset, the length is kept |
| MuscleCategorySession.ResetAllIdempotent | FitnessApp/Features/ExerciseDetail/ViewModel/MuscleCategoryViewModel.swift:105-114 | resetting an already reset list changes nothing |
| MuscleCategorySession.ResetEntryIsClampedReset | FitnessApp/Core/Models/Exercise.swift:62-67 | on legal exercises the session's field-wise reset is the value type's `reset()` |
| MuscleCategorySession.StartTitle | FitnessApp/Features/ExerciseDetail/ViewModel/MuscleCategoryViewModel.swift:13-18 | "Start Sets" iff the set counter is 0; otherwise "Set <n> Start" whose number reads back as counter + 1 (the detail bottom bar's `startTitle` uses the same text) |
| MuscleCategorySession.MuscleCategoryViewModel.StartButtonTitle | FitnessApp/Features/ExerciseDetail/ViewModel/MuscleCategoryViewModel.swift:13-18 | no contract of its own: the title of the session's set counter, as MuscleCategorySession.StartTitle states it |
| MuscleCategorySession.MuscleCategoryViewModel.constructor | FitnessApp/Features/ExerciseDetail/ViewModel/MuscleCategoryViewModel.swift:20-27 | the list is what storage holds for the group (empty if nothing); idle session |
| MuscleCategorySession.MuscleCategoryViewModel.StartSet | FitnessApp/Features/ExerciseDetail/ViewModel/MuscleCategoryViewModel.swift:29-35 | the counter restarts only for a different exercise id; the exercise becomes current and a set runs; list and storage unchanged (no save) |
| MuscleCategorySession.MuscleCategoryViewModel.CompleteCurrentSet | FitnessApp/Features/ExerciseDetail/ViewModel/MuscleCategoryViewModel.swift:37-54 | no current exercise: nothing changes. Otherwise the counter goes up and the set stops; at the threshold with the exercise in the list it moves to the end completed, the session goes idle and exactly one save happens; below it no save |
| MuscleCategorySession.MuscleCategoryViewModel.UpdateCurrentSetReps | FitnessApp/Features/ExerciseDetail/ViewModel/MuscleCategoryViewModel.swift:56-58 | ignores the reps and completes the current set |
| MuscleCategorySession.MuscleCategoryViewModel.UpdateCurrentReps | FitnessApp/Features/ExerciseDetail/ViewModel/MuscleCategoryViewModel.swift:60-69 | with the current exercise in the list, its entry and the current exercise get the new current reps, other entries stay, one save; otherwise nothing changes and nothing is saved |
| MuscleCategorySession.MuscleCategoryViewModel.Add | FitnessApp/Features/ExerciseDetail/ViewModel/MuscleCategoryViewModel.swift:85-88 | appends at the end and saves once |
| MuscleCategorySession.MuscleCategoryViewModel.Delete | FitnessApp/Features/ExerciseDetail/ViewModel/MuscleCategoryViewModel.swift:90-93 | removes exactly the given offsets, keeping the rest in order, so the list shrinks by their number; saves once |
| MuscleCategorySession.MuscleCategoryViewModel.UpdateExercise | FitnessApp/Features/ExerciseDetail/ViewModel/MuscleCategoryViewModel.swift:99-103 | replaces the first entry with the same id in place and saves once; with no such id nothing changes and nothing is saved |
| MuscleCategorySession.MuscleCategoryViewModel.ResetProgress | FitnessApp/Features/ExerciseDetail/ViewModel/MuscleCategoryViewModel.swift:105-114 | idle session, every entry reset with other fields unchanged, one save |
| MuscleCategorySession.MuscleCategoryViewModel.Save | FitnessApp/Features/ExerciseDetail/ViewModel/MuscleCategoryViewModel.swift:95-97 | storage now holds the session's list under its group, and one more save is counted |
| MuscleCategoryScenarios.Rowing | FitnessAppTests/ViewModels/MuscleCategoryViewModelTests.swift:21-28 | the tests' sample exercise: 3 sets, 11 current reps, unfinished |
| ActiveSet.TimerService.StartTimer | FitnessApp/Features/Service/TimerService.swift:7-13 | the displayed count restarts at 0 |
| ActiveSet.TimerService.StopTimer | FitnessApp/Features/Service/TimerService.swift:15-19 | the displayed count goes back to 0 |
| ActiveSet.Recorded | FitnessApp/Features/ExerciseDetail/ViewModel/ActiveSetViewModel.swift:67-71 | a set's progress lands at its index when the log reaches it, else at the end; no other entry changes |
| ActiveSet.RecordedAppendsInStep | FitnessApp/Features/ExerciseDetail/ViewModel/ActiveSetViewModel.swift:67-71 | when the log has exactly one entry per finished set, recording appends |
| ActiveSet.ActionFor | FitnessApp/Features/ExerciseDetail/ViewModel/ActiveSetViewModel.swift:86 | `.less` iff below the planned reps, `.more` iff at or above them (a tie is `.more`) |
| ActiveSet.InputValid | FitnessApp/Features/ExerciseDetail/ViewModel/ActiveSetViewModel.swift:20-34 | no contract of its own: stated as if-and-only-if in ActiveSet.InputValidLess, ActiveSet.InputValidMore and ActiveSet.InputInvalidCases |
| ActiveSet.InputValidLess | FitnessApp/Features/ExerciseDetail/ViewModel/ActiveSetViewModel.swift:20-30 | in the worse-set sheet the input is valid iff both parse and reps or weight is below plan |
| ActiveSet.InputValidMore | FitnessApp/Features/ExerciseDetail/ViewModel/ActiveSetViewModel.swift:20-32 | in the better-set sheet the input is valid iff both parse and reps or weight is above plan |
| ActiveSet.InputInvalidCases | FitnessApp/Features/ExerciseDetail/ViewModel/ActiveSetViewModel.swift:21-23 | without an exercise or with an input that is not a number, the input is invalid |
| ActiveSet.PrefilledInputInvalid | FitnessApp/Features/ExerciseDetail/ViewModel/ActiveSetViewModel.swift:137-143 | the prefilled planned values are never a valid entry in either mode |
| ActiveSet.ActiveSetViewModel.constructor | FitnessApp/Features/ExerciseDetail/ViewModel/ActiveSetViewModel.swift:36-43 | idle state that satisfies the invariant (log length equals the set counter), fresh stopwatch at 0 |
| ActiveSet.ActiveSetViewModel.IsInputValid | FitnessApp/Features/ExerciseDetail/ViewModel/ActiveSetViewModel.swift:20-34 | only a parsable reps and weight entry for a current exercise can be valid; the mode-dependent comparison is ActiveSet.InputValidLess and ActiveSet.InputValidMore |
| ActiveSet.ActiveSetViewModel.TimerSeconds | FitnessApp/Features/ExerciseDetail/ViewModel/ActiveSetViewModel.swift:11-13 | no contract of its own: reads the timer service's count, which StartTimer and StopTimer reset to 0 |
| ActiveSet.ActiveSetViewModel.StartSet | FitnessApp/Features/ExerciseDetail/ViewModel/ActiveSetViewModel.swift:45-51 | always: exercise current, counter 0, empty log, a set running, last set not done |
| ActiveSet.ActiveSetViewModel.StartNextSet | FitnessApp/Features/ExerciseDetail/ViewModel/ActiveSetViewModel.swift:53-57 | only the running flag changes, and only when there is an exercise; the invariant is kept |
| ActiveSet.ActiveSetViewModel.LogSet | FitnessApp/Features/ExerciseDetail/ViewModel/ActiveSetViewModel.swift:67-80 | stores the progress at the counter, increments it, stops the set, and the last-set flag becomes true once the counter reaches the sets, else keeps its value; under the invariant the progress is appended |
| ActiveSet.ActiveSetViewModel.CompleteCurrentSet | FitnessApp/Features/ExerciseDetail/ViewModel/ActiveSetViewModel.swift:59-81 | logs `.done` with the planned reps and weight at the counter; without an exercise nothing changes; the invariant is kept |
| ActiveSet.ActiveSetViewModel.UpdateCurrentReps | FitnessApp/Features/ExerciseDetail/ViewModel/ActiveSetViewModel.swift:83-106 | logs the reps and weight done with `.less` or `.more` at the counter; without an exercise nothing changes; the invariant is kept |
| ActiveSet.ActiveSetViewModel.FinishExercise | FitnessApp/Features/ExerciseDetail/ViewModel/ActiveSetViewModel.swift:108-114 | all five session fields back to their initial values, so calling it again changes nothing |
| ActiveSet.ActiveSetViewModel.ResetProgress | FitnessApp/Features/ExerciseDetail/ViewModel/ActiveSetViewModel.swift:116-122 | the same return to the initial session state |
| ActiveSet.ActiveSetViewModel.StartTimer | FitnessApp/Features/ExerciseDetail/ViewModel/ActiveSetViewModel.swift:124-126 | the shown seconds restart at 0 |
| ActiveSet.ActiveSetViewModel.StopTimer | FitnessApp/Features/ExerciseDetail/ViewModel/ActiveSetViewModel.swift:128-130 | the shown seconds are 0 |
| ActiveSet.ActiveSetViewModel.ResetEditingState | FitnessApp/Features/ExerciseDetail/ViewModel/ActiveSetViewModel.swift:132-135 | both inputs empty, so the input is invalid; nothing else changes |
| ActiveSet.ActiveSetViewModel.StartEditing | FitnessApp/Features/ExerciseDetail/ViewModel/ActiveSetViewModel.swift:137-143 | opens the sheet in the mode with the planned reps and weight as text that parses back, which is not yet valid; without an exercise nothing changes |
| ActiveSetPanel.TruncDivRem | FitnessApp/Features/ActiceSet/ActiveSetView.swift:118-119 | Swift's truncating `/` and `%` recombine to the dividend; for non-negative seconds the remainder is in 0..59 |
| ActiveSetPanel.Pad2 | FitnessApp/Features/ActiceSet/ActiveSetView.swift:120 | `%02d` output has at least two characters, exactly two digits for 0..99 |
| ActiveSetPanel.Pad2RoundTrip | FitnessApp/Features/ActiceSet/ActiveSetView.swift:120 | a padded number reads back as the number |
| ActiveSetPanel.FormatTime | FitnessApp/Features/ActiceSet/ActiveSetView.swift:117-121 | no contract of its own: stated in ActiveSetPanel.FormatTimeRoundTrip and ActiveSetPanel.FormatTimeShape |
| ActiveSetPanel.FormatTimeRoundTrip | FitnessApp/Features/ActiceSet/ActiveSetView.swift:117-121 | for seconds >= 0 the text is minutes, ':' and two digits, and the parts read back as m and s with 0 <= s < 60 and 60m + s = seconds |
| ActiveSetPanel.FormatTimeShape | FitnessApp/Features/ActiceSet/ActiveSetView.swift:117-121 | for 0 <= seconds < 6000 the text is "mm:ss": length 5, ':' at index 2, digits elsewhere |
| ActiveSetPanel.Header | FitnessApp/Features/ActiceSet/ActiveSetView.swift:19-35 | the timer header is shown iff the seconds are positive |
| ActiveSetPanel.IconsDistinct | FitnessApp/Features/ActiceSet/ActiveSetView.swift:40-73 | each outcome has its own icon and none is the pending icon |
| ActiveSetPanel.RowOf | FitnessApp/Features/ActiceSet/ActiveSetView.swift:65-91 | no contract of its own: stated in ActiveSetPanel.RowsShowLog |
| ActiveSetPanel.Rows | FitnessApp/Features/ActiceSet/ActiveSetView.swift:37 | one row per planned set |
| ActiveSetPanel.RowsShowLog | FitnessApp/Features/ActiceSet/ActiveSetView.swift:37-91 | row i shows the pending marker iff i is past the log; a logged row shows its outcome's icon and texts that read back as weight ("… KG"), reps done and planned reps ("/  …") |
| BottomBar.StartAndSetControlsExclusive | FitnessApp/Features/BottomBar/BottomActionBarViewModel.swift:15-21 | start and set controls never show together, neither once the last set is done, and with an active unfinished exercise exactly one shows |
| BottomBar.BottomActionBar.ShouldShow | FitnessApp/Features/BottomBar/BottomActionBarViewModel.swift:11-13 | no contract of its own: simplified and proved in BottomBar.ShouldShowCases |
| BottomBar.BottomActionBar.ShowStartButton | FitnessApp/Features/BottomBar/BottomActionBarViewModel.swift:15-17 | no contract of its own: stated in BottomBar.StartAndSetControlsExclusive and BottomBar.ResetProgressExclusive |
| BottomBar.BottomActionBar.ShowSetControls | FitnessApp/Features/BottomBar/BottomActionBarViewModel.swift:19-21 | no contract of its own: stated in BottomBar.StartAndSetControlsExclusive and BottomBar.NoAddDuringSet |
| BottomBar.BottomActionBar.ShowResetProgress | FitnessApp/Features/BottomBar/BottomActionBarViewModel.swift:23-25 | no contract of its own: stated in BottomBar.ResetProgressExclusive |
| BottomBar.BottomActionBar.ShowFinishButton | FitnessApp/Features/BottomBar/BottomActionBarViewModel.swift:27-29 | no contract of its own: one of the cases of BottomBar.ShouldShowCases |
| BottomBar.BottomActionBar.ShowAddExerciseButton | FitnessApp/Features/BottomBar/BottomActionBarViewModel.swift:31-33 | no contract of its own: stated in BottomBar.NoAddDuringSet and BottomBar.ResetProgressExclusive |
| BottomBar.BottomActionBar.StartButtonTitle | FitnessApp/Features/BottomBar/BottomActionBarViewModel.swift:35-41 | no contract of its own: stated in BottomBar.StartButtonTitleCases |
| BottomBar.ResetProgressExclusive | FitnessApp/Features/BottomBar/BottomActionBarViewModel.swift:23-33 | reset shows only with a non-empty list, excludes start and set controls, and brings the add button |
| BottomBar.NoAddDuringSet | FitnessApp/Features/BottomBar/BottomActionBarViewModel.swift:19-33 | while a set runs over a non-empty list the add button is hidden |
| BottomBar.ShouldShowCases | FitnessApp/Features/BottomBar/BottomActionBarViewModel.swift:11-33 | the bar shows iff the list is empty, an active exercise is unfinished, the screen is idle, or a finished exercise is still current |
| BottomBar.StartButtonTitleCases | FitnessApp/Features/BottomBar/BottomActionBarViewModel.swift:35-41 | "Start Training" iff the counter is 0; otherwise "Start set <n>" whose number reads back as counter + 1 |
| DetailBottomBar.ControlsExclusive | FitnessApp/Features/ExerciseDetail/ViewModel/BottomActionBarViewModel.swift:9-19 | with an active exercise exactly one of start and set controls shows; reset shows alone; some control shows iff there is an active exercise or no set runs |
| DetailBottomBar.DetailBottomBar.ShowResetProgress | FitnessApp/Features/ExerciseDetail/ViewModel/BottomActionBarViewModel.swift:9-11 | no contract of its own: stated in DetailBottomBar.ControlsExclusive |
| DetailBottomBar.DetailBottomBar.ShowSetControls | FitnessApp/Features/ExerciseDetail/ViewModel/BottomActionBarViewModel.swift:13-15 | no contract of its own: stated in DetailBottomBar.ControlsExclusive |
| DetailBottomBar.DetailBottomBar.ShowStartButton | FitnessApp/Features/ExerciseDetail/ViewModel/BottomActionBarViewModel.swift:17-19 | no contract of its own: stated in DetailBottomBar.ControlsExclusive |
| DetailBottomBar.DetailBottomBar.StartTitle | FitnessApp/Features/ExerciseDetail/ViewModel/BottomActionBarViewModel.swift:21-23 | "Start Sets" iff the counter is 0; otherwise the text of MuscleCategorySession.StartTitle |
| ExerciseForm.SeatSetting | FitnessApp/Features/ExerciseDetail/ViewModel/ExerciseFormViewModel.swift:44 | an empty seat text is no setting; any other text is stored as is |
| ExerciseForm.Build | FitnessApp/Features/ExerciseDetail/ViewModel/ExerciseFormViewModel.swift:33-57 | nothing iff the form is invalid (no name, or reps or sets below 1; weight unchecked); an edit keeps the edited id and completion, a new exercise takes the fresh id and starts unfinished; other fields from the form |
| ExerciseForm.Loaded | FitnessApp/Features/ExerciseDetail/ViewModel/ExerciseFormViewModel.swift:59-66 | loading remembers the exercise as the one being edited |
| ExerciseForm.LoadThenBuildRoundTrip | FitnessApp/Features/ExerciseDetail/ViewModel/ExerciseFormViewModel.swift:33-71 | loading an acceptable exercise and saving unchanged gives it back, with current reps reset to its reps |
| ExerciseForm.LoadInvalidRefused | FitnessApp/Features/ExerciseDetail/ViewModel/ExerciseFormViewModel.swift:12-14 | an exercise the form refuses cannot be saved back |
| ExerciseForm.ClearedBuildsNothing | FitnessApp/Features/ExerciseDetail/ViewModel/ExerciseFormViewModel.swift:16-24 | a cleared form builds nothing |
| ExerciseForm.ExerciseFormViewModel.constructor | FitnessApp/Features/ExerciseDetail/ViewModel/ExerciseFormViewModel.swift:4-10 | starts cleared and hidden |
| ExerciseForm.ExerciseFormViewModel.ClearForm | FitnessApp/Features/ExerciseDetail/ViewModel/ExerciseFormViewModel.swift:16-24 | empty name, weight 0, reps 1, sets 1, empty seat, nothing edited, form hidden |
| ExerciseForm.ExerciseFormViewModel.ToggleForm | FitnessApp/Features/ExerciseDetail/ViewModel/ExerciseFormViewModel.swift:26-31 | flips visibility; opening keeps the fields, closing clears them |
| ExerciseForm.ExerciseFormViewModel.LoadExercise | FitnessApp/Features/ExerciseDetail/ViewModel/ExerciseFormViewModel.swift:59-71 | an exercise fills the fields (nil seat as empty text) and becomes the edited one; none clears and hides the form |
| ExerciseForm.ExerciseFormViewModel.IsFormValid | FitnessApp/Features/ExerciseDetail/ViewModel/ExerciseFormViewModel.swift:12-14 | valid iff the name is non-empty and reps and sets are at least 1; the weight is not checked |
| ExerciseForm.ExerciseFormViewModel.CreateOrUpdateExercise | FitnessApp/Features/ExerciseDetail/ViewModel/ExerciseFormViewModel.swift:33-57 | nothing iff the form is invalid; otherwise the form's fields with current reps at the reps, keeping the edited id and completion or taking the fresh id unfinished |
| ExerciseCard.InteractionIdsDistinct | FitnessApp/Shared/Design/ExerciseCardConfig.swift:15-24 | two interaction fields have the same id iff they are the same field |
| ExerciseCard.FieldData | FitnessApp/Features/Exercise/ExerciseCard/ExerciseCardViewModel.swift:37-42 | exactly three rows |
| ExerciseCard.FieldDataIds | FitnessApp/Features/Exercise/ExerciseCard/ExerciseCardViewModel.swift:37-50 | the rows are weight, sets and reps in that order, with distinct edit ids |
| ExerciseCard.FieldDataValues | FitnessApp/Features/Exercise/ExerciseCard/ExerciseCardViewModel.swift:38-42 | the rows carry the exercise's weight, sets and reps, prefilled as text that reads back as the value |
| ExerciseCard.DisplaySeatText | FitnessApp/Features/Exercise/ExerciseCard/ExerciseCardViewModel.swift:52-58 | the seat when it is non-empty, otherwise "+"; never empty |
| ExerciseCard.ExerciseCardViewModel.constructor | FitnessApp/Features/Exercise/ExerciseCard/ExerciseCardViewModel.swift:12-15 | construction reports nothing |
| ExerciseCard.ExerciseCardViewModel.SetExercise | FitnessApp/Features/Exercise/ExerciseCard/ExerciseCardViewModel.swift:4-8 | assigning the exercise reports it once |
| ExerciseCard.ExerciseCardViewModel.UpdateSeat | FitnessApp/Features/Exercise/ExerciseCard/ExerciseCardViewModel.swift:17-20 | only the seat changes; the new exercise is reported twice |
| ExerciseCard.ExerciseCardViewModel.UpdateWeight | FitnessApp/Features/Exercise/ExerciseCard/ExerciseCardViewModel.swift:22-25 | only the weight changes, to any value; reported twice |
| ExerciseCard.ExerciseCardViewModel.UpdateSets | FitnessApp/Features/Exercise/ExerciseCard/ExerciseCardViewModel.swift:27-30 | only the sets change, to any value; reported twice |
| ExerciseCard.ExerciseCardViewModel.UpdateReps | FitnessApp/Features/Exercise/ExerciseCard/ExerciseCardViewModel.swift:32-35 | only the reps change, to any value; reported twice |
| ExerciseCard.ExerciseCardViewModel.GenerateFieldData | FitnessApp/Features/Exercise/ExerciseCard/ExerciseCardViewModel.swift:37-50 | three rows carrying the card's weight, sets and reps, each prefilled as text that reads back as its value |
| ExerciseCard.ExerciseCardViewModel.DisplayedSeatText | FitnessApp/Features/Exercise/ExerciseCard/ExerciseCardViewModel.swift:52-58 | never empty; the card's seat setting whenever it is non-empty |
| DetailExerciseCard.ExerciseCardViewModel.UpdateSeat | FitnessApp/Features/ExerciseDetail/ViewModel/ExerciseCardViewModel.swift:13-16 | only the seat changes; the new exercise is reported once |
| DetailExerciseCard.ExerciseCardViewModel.UpdateWeight | FitnessApp/Features/ExerciseDetail/ViewModel/ExerciseCardViewModel.swift:18-21 | only the weight changes; reported once |
| DetailExerciseCard.ExerciseCardViewModel.UpdateSets | FitnessApp/Features/ExerciseDetail/ViewModel/ExerciseCardViewModel.swift:23-26 | only the sets change; reported once |
| DetailExerciseCard.ExerciseCardViewModel.UpdateReps | FitnessApp/Features/ExerciseDetail/ViewModel/ExerciseCardViewModel.swift:28-31 | only the reps change, the id never; reported once |
| ExerciseFieldTypes.IdsIdentifyKind | FitnessApp/Core/Model/ExerciseFieldType.swift:15-29 | two fields share an id iff they are of the same kind (whatever their values), which is also iff their edit fields agree |
| ExerciseFieldTypes.PrefilledValueRoundTrip | FitnessApp/Core/Model/ExerciseFieldType.swift:31-37 | the prefilled text reads back as the field's value |
| ExerciseFieldTypes.ValueTextCarriesValue | FitnessApp/Core/Model/ExerciseFieldType.swift:39-45 | the chip text is the prefilled text followed by " kg", "x" or nothing |
| ExerciseFieldTypes.Columns | FitnessApp/Core/Model/ExerciseFieldType.swift:67-72 | weight is in the right column, sets and reps in the left |
| ExerciseFieldTypes.ExerciseFieldType.Id | FitnessApp/Core/Model/ExerciseFieldType.swift:15-21 | no contract of its own: stated in ExerciseFieldTypes.IdsIdentifyKind |
| ExerciseFieldTypes.ExerciseFieldType.EditField | FitnessApp/Core/Model/ExerciseFieldType.swift:23-29 | no contract of its own: stated in ExerciseFieldTypes.IdsIdentifyKind |
| ExerciseFieldTypes.ExerciseFieldType.PrefilledValue | FitnessApp/Core/Model/ExerciseFieldType.swift:31-37 | no contract of its own: stated in ExerciseFieldTypes.PrefilledValueRoundTrip |
| ExerciseFieldTypes.ExerciseFieldType.ValueText | FitnessApp/Core/Model/ExerciseFieldType.swift:39-45 | no contract of its own: stated in ExerciseFieldTypes.ValueTextCarriesValue |
| ExerciseFieldTypes.ExerciseFieldType.Column | FitnessApp/Core/Model/ExerciseFieldType.swift:67-72 | no contract of its own: stated in ExerciseFieldTypes.Columns |
| Analytics.AnalyticsStore.Save | FitnessApp/Features/Analytics/AnalyticsStorageService.swift:29-40 | replaces the exercise's file and counts the write |
| Analytics.EntriesOn | FitnessApp/Features/Analytics/AnalyticsViewModel.swift:37-39 | the day filter returns no more entries than it is given |
| Analytics.EntriesOnExact | FitnessApp/Features/Analytics/AnalyticsViewModel.swift:34-42 | the day-filtered load holds exactly the entries of that day, each as many times as it is stored, as an order-preserving subsequence |
| Analytics.EntriesOnAppend | FitnessApp/Features/Analytics/AnalyticsViewModel.swift:22-24 | after appending an entry, the day filter shows it last exactly when it is of that day |
| Analytics.AnalyticsViewModel.SaveAnalytics | FitnessApp/Features/Analytics/AnalyticsViewModel.swift:10-26 | an empty log leaves storage unchanged; otherwise the exercise's file becomes its old entries plus one new entry carrying the given id, date and log, in one write; other files are untouched; stored entries stay with their exercise |
| Analytics.AnalyticsViewModel.LoadAnalytics | FitnessApp/Features/Analytics/AnalyticsViewModel.swift:28-32 | no contract of its own: the exercise's stored entries, whose shape Analytics.AnalyticsViewModel.SaveAnalytics states |
| Analytics.AnalyticsViewModel.LoadAnalyticsOn | FitnessApp/Features/Analytics/AnalyticsViewModel.swift:34-42 | holds exactly the loaded entries of that day, each as many times as it is stored |
| Profile.UserDefaultsStore.Set | FitnessApp/Features/Profile/ProfileViewModel.swift:44-46 | the value is stored under the key |
| Profile.GreetingTitle | FitnessApp/Features/Profile/ProfileViewModel.swift:18-20 | "Profile" iff the nickname is empty; otherwise "Hallo <nickname>!" |
| Profile.GreetingMessage | FitnessApp/Features/Profile/ProfileViewModel.swift:22-24 | empty iff the nickname is empty; otherwise "Willkommen zurück, <nickname>!" |
| Profile.GreetingTitleInjective | FitnessApp/Features/Profile/ProfileViewModel.swift:18-20 | different nicknames get different titles |
| Profile.SaveOutcomeAsWritten | FitnessApp/Features/Profile/ProfileViewModel.swift:26-38 | no contract of its own: its outcomes are stated in Profile.SaveAsWrittenNeverPersists |
| Profile.SaveAsWrittenNeverPersists | FitnessApp/Features/Profile/ProfileViewModel.swift:26-38 | as written, a save is refused as "already set" iff the nickname is non-empty, and is never persisted |
| Profile.SaveOutcomeCorrected | FitnessApp/Features/Profile/ProfileViewModel.swift:26-38 | corrected save: persisted iff nothing is stored yet and the nickname is non-empty; refused as already set iff a nickname is stored; alert iff nothing is stored and the nickname is empty |
| Profile.ProfileViewModel.constructor | FitnessApp/Features/Profile/ProfileViewModel.swift:10-12 | the nickname is the stored one, or empty |
| Profile.ProfileViewModel.IsNicknameSet | FitnessApp/Features/Profile/ProfileViewModel.swift:14-16 | no contract of its own: the typed nickname is non-empty; used by Profile.ProfileViewModel.Title and Profile.ProfileViewModel.Message |
| Profile.ProfileViewModel.Title | FitnessApp/Features/Profile/ProfileViewModel.swift:18-20 | "Profile" iff no nickname is typed; the text is Profile.GreetingTitle |
| Profile.ProfileViewModel.Message | FitnessApp/Features/Profile/ProfileViewModel.swift:22-24 | empty iff no nickname is typed; the text is Profile.GreetingMessage |
| Profile.ProfileViewModel.SaveNickname | FitnessApp/Features/Profile/ProfileViewModel.swift:26-46 | corrected save: returns true iff the corrected outcome persists, and then the nickname is stored; otherwise the store is unchanged; the alert is raised for an empty nickname |
| Decimal.NatToString | FitnessApp/Core/Model/ExerciseFieldType.swift:33 | digits only, without leading zeros; one digit iff below 10 |
| Decimal.IntToStringRoundTrip | FitnessApp/Features/ExerciseDetail/ViewModel/ActiveSetViewModel.swift:21-22 | `Int(String(n)) == n` for every integer |
| Decimal.IntToStringInjective | FitnessApp/Features/ExerciseDetail/ViewModel/ActiveSetViewModel.swift:141-142 | distinct integers print differently |

## Left out

- Storage I/O: the `print` logging of the storage services and view models, JSON encoding to UserDefaults and to files, and decoding failures (which load as an empty list), are not modelled. Storage is a map. Analytics files are keyed per exercise; the user id in the file name is not modelled.
- `Exercise` decoding through `Codable` bypasses the clamping initializer; it is not modelled.
- Swift's `Int` is 64 bits wide. Here integers are unbounded, so the overflow traps of `currentSet += 1` and the nil that `Int(String)` returns on overflow are not modelled.
- ActiveSet.ActiveSetViewModel: `currentSet` is a `nat`. The class only ever sets it to 0 or increments it. A negative value written from outside is not modelled.
- ActiveSet.TimerService: the repeating one-second `Timer` and its scheduled increments are not modelled. Only the resets to 0 are.
- The published-property notifications of SwiftUI (`@Published`, `ObservableObject`) and the threading (`@MainActor`) are not modelled.
- The private `completeExercise` of the session view model is not modelled, because nothing calls it.
- The error texts (`errorDescription`) of `Exercise.ValidationError` are not modelled. Validation returns which error is thrown.
- `ExerciseFieldType.icon(for:)`, the styles of `generateStyledFieldData` and all colours, fonts and sizes are presentation only and are not modelled. The frame heights are carried as data but not used.
- `calculateHeight()` of the active-set panel is floating-point layout and is not modelled.
- Views, navigation and the view model behind FitnessApp/Features/Exercise/MuscleCategory/MuscleCategoryView.swift are not part of this model.
- `SetEditingMode` is declared outside the modelled files. It is modelled with the two cases `.less` and `.more` that are used. `EditField` is modelled with only the three cases that `ExerciseFieldType` maps to.
- ActiveSetPanel.Rows: `ForEach(0..<sets)` traps in Swift when the sets are negative, so a non-negative count is required.
- MuscleCategorySession.MuscleCategoryViewModel.Delete: `remove(atOffsets:)` traps on an offset outside the list, so every offset must be a valid position.
- Profile.ProfileViewModel.SaveNickname: it models the corrected save (see Findings). The save as written is `Profile.SaveOutcomeAsWritten`.

## Findings

| source | as written | input that shows it | evidently intended | confidence | as-written member | corrected member |
|---|---|---|---|---|---|---|
| FitnessApp/Core/Models/Exercise.swift:32 | a missing `currentReps` defaults to the `reps` argument before clamping | `Exercise(name: "Rowing", weight: 40, reps: 0, sets: 3)`: reps 1, current reps 0 | default to the clamped reps, so a new exercise starts at its planned reps | medium, not executed | ClampedExercise.InitDefaultsToRawReps | ClampedExercise.InitCorrected |
| FitnessApp/Features/Profile/ProfileViewModel.swift:27-34 | the first guard refuses any non-empty typed nickname; the second refuses the empty one, so `persistNickname` is unreachable and the save never succeeds | typed nickname "Max" with nothing stored: returns false and stores nothing | refuse only when a nickname is already stored; persist a non-empty one | high, not executed | Profile.SaveAsWrittenNeverPersists | Profile.SaveOutcomeCorrected |
