/** The progression helpers (src/features/game/utils/progression-helpers.ts):
    list validation, completing a level and unlocking the one after it,
    progress as a rounded percentage, and the current level. */
module ProgressionHelpers {
  import opened Prelude
  import opened GameTypes
  import LevelData

  /** A list is usable when it holds both canonical levels. */
  function ValidateLevels(levels: seq<StoryLevel>): (r: bool)
    ensures r <==> HasId(levels, HermioneLevelId) && HasId(levels, HagridLevelId)
    ensures r ==> |levels| >= 2
  {
    var ok := HasId(levels, HermioneLevelId) && HasId(levels, HagridLevelId);
    if ok then
      assert HermioneLevelId[7] != HagridLevelId[7];
      var i :| 0 <= i < |levels| && levels[i].id == HermioneLevelId;
      var j :| 0 <= j < |levels| && levels[j].id == HagridLevelId;
      assert i != j;
      ok
    else ok
  }

  lemma DefaultLevelsAreValid()
    ensures ValidateLevels(LevelData.InitialStoryLevels)
  {
    assert LevelData.InitialStoryLevels[0].id == HermioneLevelId;
    assert LevelData.InitialStoryLevels[1].id == HagridLevelId;
  }

  /** locked < unlocked < completed. */
  function Rank(s: LevelStatus): nat {
    match s
    case Locked => 0
    case Unlocked => 1
    case Completed => 2
  }

  /** Marks the level `levelId` completed and promotes its successor from
      locked to unlocked; an unknown id or an already completed level leaves
      the list as it is. No status ever moves down. */
  function UpdateLevelCompletion(levels: seq<StoryLevel>, levelId: string): (r: seq<StoryLevel>)
    ensures |r| == |levels| && SameIds(levels, r)
    ensures forall j :: 0 <= j < |levels| ==> r[j].(status := Locked) == levels[j].(status := Locked)
    ensures FindIndex(levels, levelId) == -1 ==> r == levels
    ensures var i := FindIndex(levels, levelId);
      i >= 0 && levels[i].status == Completed ==> r == levels
    ensures var i := FindIndex(levels, levelId);
      i >= 0 && levels[i].status != Completed ==>
        && r[i] == levels[i].(status := Completed)
        && (i + 1 < |levels| ==>
              r[i + 1] == if levels[i + 1].status == Locked
                          then levels[i + 1].(status := Unlocked) else levels[i + 1])
        && forall j :: 0 <= j < |levels| && j != i && j != i + 1 ==> r[j] == levels[j]
    ensures forall j :: 0 <= j < |levels| ==> Rank(levels[j].status) <= Rank(r[j].status)
  {
    var levelIndex := FindIndex(levels, levelId);
    if levelIndex == -1 then levels
    else if levels[levelIndex].status == Completed then levels
    else
      var updated := WithStatus(levels, levelIndex, Completed);
      if levelIndex < |updated| - 1 && updated[levelIndex + 1].status == Locked
      then WithStatus(updated, levelIndex + 1, Unlocked)
      else updated
  }

  /** Completing the same level twice is the same as completing it once. */
  lemma {:induction false} UpdateLevelCompletionIdempotent(levels: seq<StoryLevel>, levelId: string)
    ensures UpdateLevelCompletion(UpdateLevelCompletion(levels, levelId), levelId)
         == UpdateLevelCompletion(levels, levelId)
  {
    var once := UpdateLevelCompletion(levels, levelId);
    FindIndexSameIds(levels, once, levelId);
  }

  /** Statuses of a well-formed progression: the first `k` levels completed,
      level `k` (if any) playable, every later level locked. */
  predicate LinearAt(levels: seq<StoryLevel>, k: int) {
    && 0 <= k <= |levels|
    && (forall j :: 0 <= j < k ==> levels[j].status == Completed)
    && (k < |levels| ==> levels[k].status == Unlocked)
    && (forall j :: k < j < |levels| ==> levels[j].status == Locked)
  }

  ghost predicate Linear(levels: seq<StoryLevel>) {
    exists k :: LinearAt(levels, k)
  }

  /** Completing the playable level of a well-formed progression keeps it
      well-formed, with the frontier one step further. */
  lemma {:induction false} CompletingCurrentKeepsLinear(levels: seq<StoryLevel>, k: int)
    requires DistinctIds(levels) && LinearAt(levels, k) && k < |levels|
    ensures LinearAt(UpdateLevelCompletion(levels, levels[k].id), k + 1)
  {
    var i := FindIndex(levels, levels[k].id);
    assert 0 <= i <= k;
    assert i == k;
  }

  /** The helper does not check that the target is playable: completing a
      locked level breaks the well-formed shape. */
  lemma CompletingLockedLevelBreaksLinear()
    ensures var levels := [LevelData.HermioneLevel, LevelData.HagridLevel];
      LinearAt(levels, 0) && !Linear(UpdateLevelCompletion(levels, HagridLevelId))
  {
    var levels := [LevelData.HermioneLevel, LevelData.HagridLevel];
    assert FindIndex(levels, HagridLevelId) == 1 by {
      assert levels[0].id[7] != HagridLevelId[7];
    }
    var r := UpdateLevelCompletion(levels, HagridLevelId);
    assert r[0].status == Unlocked && r[1].status == Completed;
    forall k | 0 <= k <= 2 ensures !LinearAt(r, k) {
    }
  }

  /** The three-level scenario: [unlocked, locked, locked] becomes
      [completed, unlocked, locked] after completing the first level. */
  lemma ThreeLevelScenario(a: StoryLevel, b: StoryLevel, c: StoryLevel)
    requires a.status == Unlocked && b.status == Locked && c.status == Locked
    ensures var r := UpdateLevelCompletion([a, b, c], a.id);
      r == [a.(status := Completed), b.(status := Unlocked), c]
  {
    assert FindIndex([a, b, c], a.id) == 0;
  }

  datatype Percentage = NaN | Value(v: int)

  /** `Math.round(completed / length * 100)`: the percentage rounded to the
      nearest integer (halves upwards); an empty list gives NaN. */
  function CalculateProgress(levels: seq<StoryLevel>): (r: Percentage)
    ensures r.NaN? <==> |levels| == 0
    ensures r.Value? ==> 0 <= r.v <= 100
    ensures r.Value? ==>
      var n, c := |levels|, CompletedCount(levels);
      2 * r.v * n - n <= 200 * c < 2 * r.v * n + n
  {
    if |levels| == 0 then NaN
    else
      var n, c := |levels|, CompletedCount(levels);
      var q := (200 * c + n) / (2 * n);
      RoundBounds(c, n, q);
      Value(q)
  }

  lemma RoundBounds(c: nat, n: nat, q: int)
    requires 0 < n && c <= n && q == (200 * c + n) / (2 * n)
    ensures 2 * q * n - n <= 200 * c < 2 * q * n + n
    ensures 0 <= q <= 100
  {
    var m := (200 * c + n) % (2 * n);
    assert 200 * c + n == q * (2 * n) + m && 0 <= m < 2 * n;
    assert q * (2 * n) < 202 * n;
  }

  /** `levels.find(l => l.status === 'unlocked')`, with no fallback. */
  function FindCurrentLevel(levels: seq<StoryLevel>): (r: Option<StoryLevel>)
    ensures r.None? <==> forall j :: 0 <= j < |levels| ==> levels[j].status != Unlocked
    ensures r.Some? ==> r.value.status == Unlocked && r.value in levels
    ensures r.Some? ==> exists j | 0 <= j < |levels| ::
      levels[j] == r.value && forall k :: 0 <= k < j ==> levels[k].status != Unlocked
  {
    FirstUnlocked(levels)
  }
}
