/** The story-progression hook (src/features/game/hooks/useStoryProgression.ts):
    the level list a page shows, where it is loaded from (the database, then
    the browser cache, then the built-in levels), completing and resetting,
    and the derived current level and percentage. The database call is a
    parameter; the browser-storage entry is a field of the hook. */
module StoryProgression {
  import opened Prelude
  import opened GameTypes
  import LevelData
  import ProgressionHelpers

  /** What the browser-storage entry `bertrand-story-progress` holds:
      nothing (missing or the empty string), something that does not read
      back as a level list (a JSON error, or a JSON value without `some`),
      or a level list. Writing a list and reading it back gives the same list. */
  datatype CacheEntry = NoEntry | Unreadable | Parsed(levels: seq<StoryLevel>)

  /** What the progression query gave: the list, or an exception. */
  datatype FetchOutcome = FetchThrew | Fetched(levels: seq<StoryLevel>)

  /** The list the load settles on. */
  function ChooseLevels(db: FetchOutcome, cache: CacheEntry): (r: seq<StoryLevel>)
    ensures r != []
    ensures db.Fetched? && db.levels != [] ==> r == db.levels
    ensures db.FetchThrew? ==> r == LevelData.InitialStoryLevels
    ensures db.Fetched? && db.levels == [] ==>
      if cache.Parsed? && ProgressionHelpers.ValidateLevels(cache.levels)
      then r == cache.levels else r == LevelData.InitialStoryLevels
    ensures r == LevelData.InitialStoryLevels || ProgressionHelpers.ValidateLevels(r)
         || (db.Fetched? && r == db.levels)
  {
    match db
    case FetchThrew => LevelData.InitialStoryLevels
    case Fetched(dbLevels) =>
      if |dbLevels| > 0 then dbLevels
      else match cache
        case NoEntry => LevelData.InitialStoryLevels
        case Unreadable => LevelData.InitialStoryLevels
        case Parsed(parsedLevels) =>
          if ProgressionHelpers.ValidateLevels(parsedLevels) then parsedLevels
          else LevelData.InitialStoryLevels
  }

  /** The completion the hook applies to its own list. Unlike the shared
      helper it unlocks the next level whatever its status. */
  function HookComplete(levels: seq<StoryLevel>, levelId: string): (r: seq<StoryLevel>)
    ensures |r| == |levels| && SameIds(levels, r)
    ensures forall j :: 0 <= j < |levels| ==> r[j].(status := Locked) == levels[j].(status := Locked)
    ensures FindIndex(levels, levelId) == -1 ==> r == levels
    ensures var i := FindIndex(levels, levelId);
      i >= 0 && levels[i].status == Completed ==> r == levels
    ensures var i := FindIndex(levels, levelId);
      i >= 0 && levels[i].status != Completed ==>
        && r[i].status == Completed
        && (i + 1 < |levels| ==> r[i + 1].status == Unlocked)
        && forall j :: 0 <= j < |levels| && j != i && j != i + 1 ==> r[j] == levels[j]
  {
    var levelIndex := FindIndex(levels, levelId);
    if levelIndex == -1 then levels
    else if levels[levelIndex].status == Completed then levels
    else
      var newLevels := WithStatus(levels, levelIndex, Completed);
      var nextLevelIndex := levelIndex + 1;
      if nextLevelIndex < |newLevels| then WithStatus(newLevels, nextLevelIndex, Unlocked)
      else newLevels
  }

  lemma {:induction false} HookCompleteIdempotent(levels: seq<StoryLevel>, levelId: string)
    ensures HookComplete(HookComplete(levels, levelId), levelId) == HookComplete(levels, levelId)
  {
    FindIndexSameIds(levels, HookComplete(levels, levelId), levelId);
  }

  /** On a well-formed progression the hook and the shared helper agree, for
      every id. */
  lemma {:induction false} HookAgreesWithHelperOnLinear(levels: seq<StoryLevel>, k: int, levelId: string)
    requires ProgressionHelpers.LinearAt(levels, k)
    ensures HookComplete(levels, levelId) == ProgressionHelpers.UpdateLevelCompletion(levels, levelId)
  {
    var i := FindIndex(levels, levelId);
    if i >= 0 && levels[i].status != Completed && i + 1 < |levels| {
      assert i >= k;
      assert levels[i + 1].status == Locked;
      var a := HookComplete(levels, levelId);
      var b := ProgressionHelpers.UpdateLevelCompletion(levels, levelId);
      assert a[i] == b[i] && a[i + 1] == b[i + 1];
    }
  }

  /** Off that shape they differ: completing a level whose successor is
      already completed turns the successor back to unlocked. */
  lemma HookCompleteCanDemote()
    ensures var levels := [LevelData.HermioneLevel, LevelData.HagridLevel.(status := Completed)];
      && HookComplete(levels, HermioneLevelId)[1].status == Unlocked
      && ProgressionHelpers.UpdateLevelCompletion(levels, HermioneLevelId)[1].status == Completed
  {
    var levels := [LevelData.HermioneLevel, LevelData.HagridLevel.(status := Completed)];
    assert FindIndex(levels, HermioneLevelId) == 0;
  }

  /** `find(unlocked) || levels[levels.length - 1]`: the first playable level,
      else the last level; nothing only for an empty list. */
  function CurrentLevel(levels: seq<StoryLevel>): (r: Option<StoryLevel>)
    ensures r.None? <==> levels == []
    ensures r.Some? ==> r.value in levels
    ensures (exists j | 0 <= j < |levels| :: levels[j].status == Unlocked) ==>
      r.Some? && r.value.status == Unlocked && r == FirstUnlocked(levels)
    ensures levels != [] && (forall j :: 0 <= j < |levels| ==> levels[j].status != Unlocked) ==>
      r == Some(levels[|levels| - 1])
  {
    match FirstUnlocked(levels)
    case Some(l) => Some(l)
    case None => if levels == [] then None else Some(levels[|levels| - 1])
  }

  /** `completed / length * 100` without rounding; NaN (here `None`) for an
      empty list. */
  function ProgressPercentage(levels: seq<StoryLevel>): (r: Option<real>)
    ensures r.None? <==> levels == []
    ensures r.Some? ==> 0.0 <= r.value <= 100.0
    ensures r.Some? ==> IsPercentOf(r.value, CompletedCount(levels), |levels|)
  {
    if levels == [] then None
    else Some(Percent(CompletedCount(levels), |levels|))
  }

  /** `p` is `c` out of `n`, as a percentage. */
  predicate IsPercentOf(p: real, c: nat, n: nat) {
    p * n as real == 100.0 * c as real
  }

  /** `c / n * 100`. */
  function Percent(c: nat, n: nat): (p: real)
    requires 0 < n && c <= n
    ensures 0.0 <= p <= 100.0 && IsPercentOf(p, c, n)
  {
    FractionAtMostOne(c as real, n as real);
    c as real / n as real * 100.0
  }

  lemma FractionAtMostOne(c: real, n: real)
    requires 0.0 <= c <= n && 0.0 < n
    ensures 0.0 <= c / n <= 1.0
    ensures c / n * 100.0 * n == 100.0 * c
  {
    var q := c / n;
    assert q * n == c;
    assert q * 100.0 * n == 100.0 * (q * n);
  }

  /** The load paths that call `setLevels(INITIAL_STORY_LEVELS)` without
      writing storage: a thrown fetch, and an empty database with an
      unreadable entry. */
  predicate ResetsWithoutWriting(db: FetchOutcome, stored: CacheEntry) {
    db.FetchThrew? || (|db.levels| == 0 && stored.Unreadable?)
  }

  /** The two percentages differ: with one level of three completed the hook
      reports exactly 100/3 while the helper rounds to 33. */
  lemma PercentagesDiffer(a: StoryLevel, b: StoryLevel, c: StoryLevel)
    requires a.status == Completed && b.status != Completed && c.status != Completed
    ensures ProgressPercentage([a, b, c]) == Some(100.0 / 3.0)
    ensures ProgressionHelpers.CalculateProgress([a, b, c]) == ProgressionHelpers.Value(33)
  {
    assert CompletedCount([a, b, c]) == 1 by {
      assert [a, b, c][1..] == [b, c] && [b, c][1..] == [c] && [c][1..] == [];
    }
  }

  class StoryProgressionHook {
    var levels: seq<StoryLevel>
    var isLoading: bool
    /** The browser-storage entry the hook reads and writes. */
    var storage: CacheEntry

    /** First render: the built-in levels, loading, and whatever the browser
        had stored. */
    constructor(saved: CacheEntry)
      ensures levels == LevelData.InitialStoryLevels && isLoading && storage == saved
    {
      levels := LevelData.InitialStoryLevels;
      isLoading := true;
      storage := saved;
    }

    /** The storage entry mirrors the list. */
    predicate Synced()
      reads this
    {
      storage == Parsed(levels)
    }

    /** The mount as written: the load effect runs until it awaits the
        database, then the storage-sync effect writes the current list. */
    method Mount()
      modifies this
      ensures levels == old(levels) && isLoading && Synced()
    {
      isLoading := true;
      storage := Parsed(levels);
    }

    /** The mount with the storage-sync effect held back while loading. */
    method MountDeferringSync()
      modifies this
      ensures levels == old(levels) && isLoading && storage == old(storage)
    {
      isLoading := true;
    }

    /** The rest of the load once the database answered: pick the list, write
        it back, stop loading. When the list does not change on a path that
        does not write storage itself (the outer error path and the unreadable
        entry), React keeps the same state and nothing is written. */
    method Load(db: FetchOutcome)
      modifies this
      ensures levels == ChooseLevels(db, old(storage))
      ensures !isLoading
      // the two paths that only call `setLevels(INITIAL_STORY_LEVELS)` write
      // nothing themselves; the sync effect writes only if the list changed
      ensures storage == if ResetsWithoutWriting(db, old(storage)) && old(levels) == LevelData.InitialStoryLevels
                         then old(storage) else Parsed(levels)
    {
      match db {
        case FetchThrew =>
          if levels != LevelData.InitialStoryLevels {
            levels := LevelData.InitialStoryLevels;
            storage := Parsed(levels);
          }
        case Fetched(dbLevels) =>
          if |dbLevels| > 0 {
            levels := dbLevels;
            storage := Parsed(dbLevels);
          } else {
            match storage {
              case NoEntry =>
                levels := LevelData.InitialStoryLevels;
                storage := Parsed(LevelData.InitialStoryLevels);
              case Unreadable =>
                if levels != LevelData.InitialStoryLevels {
                  levels := LevelData.InitialStoryLevels;
                  storage := Parsed(levels);
                }
              case Parsed(parsedLevels) =>
                if ProgressionHelpers.ValidateLevels(parsedLevels) {
                  levels := parsedLevels;
                } else {
                  levels := LevelData.InitialStoryLevels;
                }
                storage := Parsed(levels);
            }
          }
      }
      isLoading := false;
    }

    /** Completing a level: the server call is made and its outcome ignored,
        then the hook's own completion is applied and stored. */
    method CompleteLevel(levelId: string)
      modifies this
      ensures levels == HookComplete(old(levels), levelId)
      ensures isLoading == old(isLoading)
      ensures storage == if levels == old(levels) then old(storage) else Parsed(levels)
      ensures old(Synced()) ==> Synced()
    {
      var newLevels := HookComplete(levels, levelId);
      if newLevels != levels {
        levels := newLevels;
        storage := Parsed(newLevels);
      }
    }

    /** Back to the built-in levels (locally only). */
    method ResetProgress()
      modifies this
      ensures levels == LevelData.InitialStoryLevels
      ensures isLoading == old(isLoading)
      ensures storage == if old(levels) == LevelData.InitialStoryLevels then old(storage) else Parsed(levels)
      ensures old(Synced()) ==> Synced()
    {
      if levels != LevelData.InitialStoryLevels {
        levels := LevelData.InitialStoryLevels;
        storage := Parsed(levels);
      }
    }
  }

  /** As written, a mount whose database query is empty always ends on the
      built-in levels, whatever progress the browser had stored: the sync
      effect overwrites the entry before the load reads it. */
  method MountWithEmptyDatabase(saved: CacheEntry) returns (shown: seq<StoryLevel>)
    ensures shown == LevelData.InitialStoryLevels
  {
    var hook := new StoryProgressionHook(saved);
    hook.Mount();
    LevelData.InitialStoryLevelsShape();
    ProgressionHelpers.DefaultLevelsAreValid();
    hook.Load(Fetched([]));
    shown := hook.levels;
  }

  /** Stored progress that is lost that way: Hermione completed, Hagrid playable. */
  method StoredProgressIsLost() returns (saved: seq<StoryLevel>, shown: seq<StoryLevel>)
    ensures ProgressionHelpers.ValidateLevels(saved) && shown != saved
  {
    saved := [LevelData.HermioneLevel.(status := Completed), LevelData.HagridLevel.(status := Unlocked)];
    assert saved[0].id == HermioneLevelId && saved[1].id == HagridLevelId;
    shown := MountWithEmptyDatabase(Parsed(saved));
    assert shown[0].status != saved[0].status;
  }

  /** With the sync held back until the load finishes, a valid stored list is
      what the page shows when the database has no levels. */
  method MountWithEmptyDatabaseDeferred(saved: CacheEntry) returns (shown: seq<StoryLevel>)
    ensures saved.Parsed? && ProgressionHelpers.ValidateLevels(saved.levels) ==> shown == saved.levels
    ensures !(saved.Parsed? && ProgressionHelpers.ValidateLevels(saved.levels)) ==>
      shown == LevelData.InitialStoryLevels
  {
    var hook := new StoryProgressionHook(saved);
    hook.MountDeferringSync();
    hook.Load(Fetched([]));
    shown := hook.levels;
  }
}
