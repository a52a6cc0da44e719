/**
 * The training history (FitnessApp/Features/Analytics/AnalyticsViewModel.swift,
 * AnalyticsEntry.swift and AnalyticsStorageService.swift): one entry per
 * finished exercise, holding its logged sets, kept in one file per exercise.
 */
module Analytics {
  import opened ExerciseModel
  import opened SetLog
  import Sequences

  /** A point in time, as seconds; only compared through a same-day test. */
  type Date = int

  datatype AnalyticsEntry = AnalyticsEntry(
    id: Uuid,
    exerciseId: Uuid,
    date: Date,
    setProgress: seq<SetProgress>)

  /**
   * The analytics files: the decoded entries of each exercise's file (one
   * per exercise and user), and how many times a file was written.
   */
  class AnalyticsStore {
    var files: map<Uuid, seq<AnalyticsEntry>>
    var saveCount: nat

    constructor (initial: map<Uuid, seq<AnalyticsEntry>>)
      ensures files == initial && saveCount == 0
    {
      files := initial;
      saveCount := 0;
    }

    /** Every stored entry belongs to its file's exercise and logs at least one set. */
    ghost predicate WellFormed()
      reads this
    {
      forall id, k :: id in files && 0 <= k < |files[id]| ==>
        files[id][k].exerciseId == id && files[id][k].setProgress != []
    }

    /** `load(for:)`: the file's entries; no file reads as no entries. */
    function Load(exerciseId: Uuid): seq<AnalyticsEntry>
      reads this
    {
      if exerciseId in files then files[exerciseId] else []
    }

    /** `save(_:for:)`: replaces the exercise's file. */
    method Save(entries: seq<AnalyticsEntry>, exerciseId: Uuid)
      modifies this
      ensures files == old(files)[exerciseId := entries]
      ensures saveCount == old(saveCount) + 1
    {
      files := files[exerciseId := entries];
      saveCount := saveCount + 1;
    }
  }

  /**
   * The entries dated on the same day as `date`, in stored order;
   * `sameDay` stands for `Calendar.current.isDate(_:inSameDayAs:)`.
   */
  function EntriesOn(entries: seq<AnalyticsEntry>, date: Date, sameDay: (Date, Date) -> bool): (r: seq<AnalyticsEntry>)
    ensures |r| <= |entries|
  {
    if entries == [] then []
    else EntriesOn(entries[..|entries| - 1], date, sameDay)
         + (if sameDay(entries[|entries| - 1].date, date) then [entries[|entries| - 1]] else [])
  }

  /**
   * The day filter keeps exactly the entries of that day, each as often as it is stored,
   * in their stored order.
   */
  lemma {:induction false} EntriesOnExact(entries: seq<AnalyticsEntry>, date: Date, sameDay: (Date, Date) -> bool)
    ensures forall e :: e in EntriesOn(entries, date, sameDay) <==> e in entries && sameDay(e.date, date)
    ensures forall e :: multiset(EntriesOn(entries, date, sameDay))[e]
                     == if sameDay(e.date, date) then multiset(entries)[e] else 0
    ensures Sequences.IsSubsequence(EntriesOn(entries, date, sameDay), entries)
  {
    if entries != [] {
      var front, last := entries[..|entries| - 1], entries[|entries| - 1];
      EntriesOnExact(front, date, sameDay);
      assert entries == front + [last];
      var rf := EntriesOn(front, date, sameDay);
      Sequences.SubsequenceAppend(rf, front, if sameDay(last.date, date) then [last] else [], last);
    }
  }

  /** Filtering after an append: the new entry shows exactly when it is of that day. */
  lemma EntriesOnAppend(entries: seq<AnalyticsEntry>, entry: AnalyticsEntry, date: Date,
                        sameDay: (Date, Date) -> bool)
    ensures EntriesOn(entries + [entry], date, sameDay)
         == EntriesOn(entries, date, sameDay) + (if sameDay(entry.date, date) then [entry] else [])
  {
    assert (entries + [entry])[..|entries|] == entries;
  }

  class AnalyticsViewModel {
    const storage: AnalyticsStore

    constructor (storage: AnalyticsStore)
      ensures this.storage == storage
    {
      this.storage := storage;
    }

    /**
     * `saveAnalytics(exerciseId:setProgress:date:)`: an empty log is not saved;
     * otherwise a new entry (with `entryId` for the fresh `UUID()`) is appended
     * to the exercise's file, which is written once. Other files are untouched.
     */
    method SaveAnalytics(exerciseId: Uuid, setProgress: seq<SetProgress>, date: Date, entryId: Uuid)
      modifies storage
      ensures setProgress == [] ==> unchanged(storage)
      ensures setProgress != [] ==>
        && storage.files == old(storage.files)[exerciseId :=
             old(storage.Load(exerciseId)) + [AnalyticsEntry(entryId, exerciseId, date, setProgress)]]
        && storage.saveCount == old(storage.saveCount) + 1
      ensures old(storage.WellFormed()) ==> storage.WellFormed()
      ensures forall id :: id != exerciseId ==> storage.Load(id) == old(storage.Load(id))
    {
      if setProgress == [] {
        return;
      }
      var entry := AnalyticsEntry(entryId, exerciseId, date, setProgress);
      var existingEntries := storage.Load(exerciseId);
      existingEntries := existingEntries + [entry];
      storage.Save(existingEntries, exerciseId);
    }

    /** `loadAnalytics(for:)`. */
    function LoadAnalytics(exerciseId: Uuid): seq<AnalyticsEntry>
      reads this, storage
    {
      storage.Load(exerciseId)
    }

    /** `loadAnalytics(for:on:)`: the exercise's entries of that day, each as often as stored. */
    function LoadAnalyticsOn(exerciseId: Uuid, date: Date, sameDay: (Date, Date) -> bool): (r: seq<AnalyticsEntry>)
      reads this, storage
      ensures forall e :: e in r <==> e in LoadAnalytics(exerciseId) && sameDay(e.date, date)
      ensures forall e :: multiset(r)[e]
                       == if sameDay(e.date, date) then multiset(LoadAnalytics(exerciseId))[e] else 0
    {
      EntriesOnExact(LoadAnalytics(exerciseId), date, sameDay);
      EntriesOn(LoadAnalytics(exerciseId), date, sameDay)
    }
  }

  /** Saving a finished exercise makes its entry show up in that day's history, after the earlier ones. */
  method SavedEntryShowsOnItsDay(vm: AnalyticsViewModel, exerciseId: Uuid, log: seq<SetProgress>,
                                 date: Date, entryId: Uuid, sameDay: (Date, Date) -> bool)
    requires log != [] && sameDay(date, date)
    modifies vm.storage
  {
    var before := vm.LoadAnalyticsOn(exerciseId, date, sameDay);
    vm.SaveAnalytics(exerciseId, log, date, entryId);
    EntriesOnAppend(old(vm.storage.Load(exerciseId)), AnalyticsEntry(entryId, exerciseId, date, log), date, sameDay);
    assert vm.LoadAnalyticsOn(exerciseId, date, sameDay) == before + [AnalyticsEntry(entryId, exerciseId, date, log)];
  }
}
