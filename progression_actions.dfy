/** The server actions on stored progression
    (src/features/game/actions/progression-actions.ts): reading the active
    levels merged with a player's completion rows, and recording that a
    player completed a level. The authentication service and the database
    are parameters: whether a user is signed in, what each query returned. */
module ProgressionActions {
  import opened Prelude
  import opened GameTypes
  import ProgressionHelpers

  /** A row of the active-levels query, already ordered by `orderIndex`. */
  datatype LevelRow = LevelRow(
    id: string,
    title: string,
    description: Option<string>,
    orderIndex: int,
    content: Option<LevelContent>)

  /** A row of the per-player progress table. */
  datatype ProgressRow = ProgressRow(levelId: string, isCompleted: bool)

  /** What a query returned: an error, or data that may be null. */
  datatype Query<T> = QueryError | Data(data: Option<T>)

  /** The ids of the completed rows. */
  function CompletedIds(rows: seq<ProgressRow>): (ids: set<string>)
    ensures forall id :: id in ids <==> exists j | 0 <= j < |rows| :: rows[j].levelId == id && rows[j].isCompleted
  {
    if rows == [] then {}
    else
      var rest := CompletedIds(rows[1..]);
      assert forall j :: 0 < j < |rows| ==> rows[j] == rows[1..][j - 1];
      (if rows[0].isCompleted then {rows[0].levelId} else {}) + rest
  }

  /** The status of row `i`: completed when its id is in the set; otherwise
      playable when there is no predecessor id (first row, or a predecessor
      whose id is the empty string) or the predecessor is completed. */
  function StatusAt(rows: seq<LevelRow>, i: int, completed: set<string>): (s: LevelStatus)
    requires 0 <= i < |rows|
    ensures s == Completed <==> rows[i].id in completed
    ensures s == Unlocked <==>
      rows[i].id !in completed && (i == 0 || rows[i - 1].id == "" || rows[i - 1].id in completed)
  {
    if rows[i].id in completed then Completed
    else
      var prevLevelId := if i > 0 then rows[i - 1].id else "";
      if prevLevelId == "" || prevLevelId in completed then Unlocked else Locked
  }

  /** A level row as a story level with the given status: the row's id,
      title, order and content, and its description, with an absent or
      empty one read as empty. */
  function ToStoryLevel(row: LevelRow, status: LevelStatus): (l: StoryLevel)
    ensures l.id == row.id && l.title == row.title && l.order == row.orderIndex && l.content == row.content
    ensures l.status == status
    ensures row.description.Some? ==> l.description == row.description.value
    ensures row.description.None? ==> l.description == ""
  {
    StoryLevel(row.id, row.title, OrElse(row.description, ""), status, row.orderIndex, row.content)
  }

  /** The merge of the level rows with the completed set, row by row. */
  function Merge(rows: seq<LevelRow>, completed: set<string>): (r: seq<StoryLevel>)
    ensures |r| == |rows|
    ensures forall i :: 0 <= i < |rows| ==>
      && r[i].id == rows[i].id && r[i].title == rows[i].title && r[i].order == rows[i].orderIndex
      && r[i].description == OrElse(rows[i].description, "")
      && r[i].content == rows[i].content
      && r[i].status == StatusAt(rows, i, completed)
  {
    seq(|rows|, i requires 0 <= i < |rows| => ToStoryLevel(rows[i], StatusAt(rows, i, completed)))
  }

  /** Signed out, or a failing level query, gives the empty list; a failing
      progress query only loses the completions. */
  function FetchUserProgression(signedIn: bool, levelsQuery: Query<seq<LevelRow>>,
                                progressQuery: Query<seq<ProgressRow>>): (r: seq<StoryLevel>)
    ensures !signedIn || levelsQuery.QueryError? ==> r == []
    ensures signedIn && levelsQuery.Data? ==>
      var rows := levelsQuery.data.GetOr([]);
      var progress := if progressQuery.Data? then progressQuery.data.GetOr([]) else [];
      r == Merge(rows, CompletedIds(progress))
  {
    if !signedIn then []
    else match levelsQuery
      case QueryError => []
      case Data(levelsData) =>
        var progressData := if progressQuery.Data? then progressQuery.data else None;
        Merge(levelsData.GetOr([]), CompletedIds(progressData.GetOr([])))
  }

  predicate DistinctRowIds(rows: seq<LevelRow>) {
    forall i, j :: 0 <= i < j < |rows| ==> rows[i].id != rows[j].id
  }

  predicate NonEmptyRowIds(rows: seq<LevelRow>) {
    forall i :: 0 <= i < |rows| ==> rows[i].id != ""
  }

  /** The completed set holds exactly the ids of the first `k` rows. */
  predicate CompletedPrefix(rows: seq<LevelRow>, completed: set<string>, k: nat) {
    k <= |rows| && forall j :: 0 <= j < |rows| ==> (rows[j].id in completed <==> j < k)
  }

  /** When the completed levels are exactly a prefix of the ordered list, the
      merge is a well-formed progression whose frontier is the end of that prefix. */
  lemma MergeOfPrefixIsLinear(rows: seq<LevelRow>, completed: set<string>, k: nat)
    requires NonEmptyRowIds(rows) && CompletedPrefix(rows, completed, k)
    ensures ProgressionHelpers.LinearAt(Merge(rows, completed), k)
  {
  }

  /** One position of the agreement below. */
  lemma MergeAgreesWithUpdateAt(rows: seq<LevelRow>, completed: set<string>, k: nat, i: nat)
    requires DistinctRowIds(rows) && NonEmptyRowIds(rows) && k < |rows| && i < |rows|
    requires CompletedPrefix(rows, completed, k)
    ensures Merge(rows, completed + {rows[k].id})[i]
         == ProgressionHelpers.UpdateLevelCompletion(Merge(rows, completed), rows[k].id)[i]
  {
    var before := Merge(rows, completed);
    var after := Merge(rows, completed + {rows[k].id});
    var upd := ProgressionHelpers.UpdateLevelCompletion(before, rows[k].id);
    assert FindIndex(before, rows[k].id) == k by {
      assert before[k].id == rows[k].id;
    }
    assert before[k].status == Unlocked;
    assert upd[i].(status := Locked) == before[i].(status := Locked);
    assert after[i].(status := Locked) == before[i].(status := Locked);
    if i < k {
      assert after[i].status == Completed == before[i].status;
    } else if i == k {
      assert after[i].status == Completed == upd[i].status;
    } else if i == k + 1 {
      assert after[i].status == Unlocked == upd[i].status;
    } else {
      assert rows[i].id != rows[k].id && rows[i - 1].id != rows[k].id;
      assert after[i].status == Locked == before[i].status;
    }
  }

  /** Recording the frontier level and merging again gives what the
      client-side helper computes from the previous merge. */
  lemma {:induction false} MergeAgreesWithUpdate(rows: seq<LevelRow>, completed: set<string>, k: nat)
    requires DistinctRowIds(rows) && NonEmptyRowIds(rows) && k < |rows|
    requires CompletedPrefix(rows, completed, k)
    ensures Merge(rows, completed + {rows[k].id})
         == ProgressionHelpers.UpdateLevelCompletion(Merge(rows, completed), rows[k].id)
  {
    forall i: nat | i < |rows|
      ensures Merge(rows, completed + {rows[k].id})[i]
           == ProgressionHelpers.UpdateLevelCompletion(Merge(rows, completed), rows[k].id)[i]
    {
      MergeAgreesWithUpdateAt(rows, completed, k, i);
    }
  }

  /** Completing levels out of order yields two playable levels at once. */
  lemma OutOfOrderCompletionUnlocksTwo()
    ensures var rows := [LevelRow("a", "A", None, 1, None), LevelRow("b", "B", None, 2, None),
                         LevelRow("c", "C", None, 3, None)];
      var r := Merge(rows, {"b"});
      r[0].status == Unlocked && r[1].status == Completed && r[2].status == Unlocked
  {
  }

  /** The outcome of recording a completion: the progress rows afterwards and
      whether the store reported success. */
  datatype Completion = Completion(rows: seq<ProgressRow>, success: bool)

  /** Whether the player already has a progress row for `levelId`. */
  predicate HasRow(rows: seq<ProgressRow>, levelId: string) {
    exists j | 0 <= j < |rows| :: rows[j].levelId == levelId
  }

  /** At most one row per level: the table's `(user_id, level_id)` key. */
  predicate OneRowPerLevel(rows: seq<ProgressRow>) {
    forall i, j | 0 <= i < j < |rows| :: rows[i].levelId != rows[j].levelId
  }

  /** The upsert on the conflict key `(user_id, level_id)`: an existing row
      for `levelId` is marked completed where it stands, and only when there
      is none is a completed row added. Every other row is kept, in order. */
  function Upsert(rows: seq<ProgressRow>, levelId: string): (r: seq<ProgressRow>)
    ensures |r| == |rows| + (if HasRow(rows, levelId) then 0 else 1)
    ensures forall i | 0 <= i < |rows| && rows[i].levelId != levelId :: r[i] == rows[i]
    ensures forall i | 0 <= i < |rows| && rows[i].levelId == levelId :: r[i] == ProgressRow(levelId, true)
    ensures !HasRow(rows, levelId) ==> r[|rows|] == ProgressRow(levelId, true)
    ensures HasRow(r, levelId)
    ensures OneRowPerLevel(rows) ==> OneRowPerLevel(r)
    ensures CompletedIds(r) == CompletedIds(rows) + {levelId}
  {
    var marked := seq(|rows|, i requires 0 <= i < |rows| =>
      if rows[i].levelId == levelId then ProgressRow(levelId, true) else rows[i]);
    var r := if HasRow(rows, levelId) then marked else marked + [ProgressRow(levelId, true)];
    assert forall i | 0 <= i < |rows| :: r[i] == marked[i];
    assert forall i | 0 <= i < |rows| :: r[i].levelId == rows[i].levelId;
    assert HasRow(r, levelId) by {
      if HasRow(rows, levelId) {
        var j :| 0 <= j < |rows| && rows[j].levelId == levelId;
        assert r[j].levelId == levelId;
      } else {
        assert r[|rows|].levelId == levelId;
      }
    }
    r
  }

  /** Recording the same completion twice changes nothing the second time:
      the conflict key turns the second insert into an update. */
  lemma UpsertIsIdempotent(rows: seq<ProgressRow>, levelId: string)
    ensures Upsert(Upsert(rows, levelId), levelId) == Upsert(rows, levelId)
  {
    var once := Upsert(rows, levelId);
    var twice := Upsert(once, levelId);
    assert HasRow(once, levelId);
    assert |twice| == |once|;
    forall i | 0 <= i < |once|
      ensures twice[i] == once[i]
    {
      if i == |rows| {
        assert once[i] == ProgressRow(levelId, true);
      }
    }
  }

  /** A level whose row is not yet completed is updated, not duplicated. */
  lemma UpsertUpdatesExistingRow()
    ensures Upsert([ProgressRow("a", false)], "a") == [ProgressRow("a", true)]
  {
    assert [ProgressRow("a", false)][0].levelId == "a";
  }

  /** Signed out is an error (thrown); a store failure is reported as
      `success: false` and leaves the rows as they were. */
  function CompleteLevelAction(signedIn: bool, rows: seq<ProgressRow>, levelId: string,
                               storeFails: bool): (r: Result<Completion, string>)
    ensures r.Err? <==> !signedIn
    ensures r.Err? ==> r.error == "Unauthorized"
    ensures r.Ok? ==> r.value.success == !storeFails
    ensures r.Ok? && storeFails ==> r.value.rows == rows
    ensures r.Ok? && !storeFails ==> CompletedIds(r.value.rows) == CompletedIds(rows) + {levelId}
    // the table keeps one row per level, so at most one row is added
    ensures r.Ok? ==> |rows| <= |r.value.rows| <= |rows| + 1
    ensures r.Ok? && OneRowPerLevel(rows) ==> OneRowPerLevel(r.value.rows)
  {
    if !signedIn then Err("Unauthorized")
    else if storeFails then Ok(Completion(rows, false))
    else Ok(Completion(Upsert(rows, levelId), true))
  }

  /** After a successful completion, the next fetch shows that level completed. */
  lemma CompletedThenFetched(rows: seq<LevelRow>, progress: seq<ProgressRow>, levelId: string, i: nat)
    requires i < |rows| && rows[i].id == levelId
    ensures var c := CompleteLevelAction(true, progress, levelId, false);
      FetchUserProgression(true, Data(Some(rows)), Data(Some(c.value.rows)))[i].status == Completed
  {
  }
}
