/** The records the game exchanges between its parts: story levels with their
    unlock status, the state of one conversation, and chat messages. */
module GameTypes {
  import opened Prelude

  datatype LevelStatus = Locked | Unlocked | Completed

  /** Optional configuration of a level; every field may be missing. */
  datatype LevelContent = LevelContent(
    character: Option<string>,
    location: Option<string>,
    initialMood: Option<string>,
    objective: Option<string>,
    difficulty: Option<string>,
    initialMessage: Option<string>,
    suggestedActions: Option<seq<string>>,
    context: Option<string>)

  datatype StoryLevel = StoryLevel(
    id: string,
    title: string,
    description: string,
    status: LevelStatus,
    order: int,
    content: Option<LevelContent>)

  /** The state of one conversation as the decision source returns it. The
      mood is kept as a string because the parsed response is not checked
      against the six moods the prompt names. */
  datatype GameState = GameState(
    characterReply: string,
    mood: string,
    departureRisk: int,
    gameOver: bool,
    gameWon: bool,
    suggestedActions: Option<seq<string>>)

  datatype Role = User | Assistant | System

  datatype ChatMessage = ChatMessage(role: Role, content: string)

  const HermioneLevelId: string := "level-hermione-1"
  const HagridLevelId: string := "level-hagrid-1"

  /** The same list with one level's status replaced. */
  function WithStatus(levels: seq<StoryLevel>, i: int, s: LevelStatus): (r: seq<StoryLevel>)
    requires 0 <= i < |levels|
    ensures |r| == |levels|
    ensures r[i] == levels[i].(status := s)
    ensures forall j :: 0 <= j < |levels| && j != i ==> r[j] == levels[j]
  {
    levels[i := levels[i].(status := s)]
  }

  /** `levels.findIndex(l => l.id === id)`: the first index holding the id, or -1. */
  function FindIndex(levels: seq<StoryLevel>, id: string): (r: int)
    ensures -1 <= r < |levels|
    ensures r >= 0 ==> levels[r].id == id
    ensures forall j :: 0 <= j < |levels| && (r == -1 || j < r) ==> levels[j].id != id
  {
    if levels == [] then -1
    else if levels[0].id == id then 0
    else
      var k := FindIndex(levels[1..], id);
      if k == -1 then -1 else k + 1
  }

  /** Lists whose ids agree position by position (statuses may differ). */
  predicate SameIds(a: seq<StoryLevel>, b: seq<StoryLevel>) {
    |a| == |b| && forall j :: 0 <= j < |a| ==> a[j].id == b[j].id
  }

  /** No id appears twice. */
  predicate DistinctIds(levels: seq<StoryLevel>) {
    forall i, j :: 0 <= i < j < |levels| ==> levels[i].id != levels[j].id
  }

  lemma {:induction false} FindIndexSameIds(a: seq<StoryLevel>, b: seq<StoryLevel>, id: string)
    requires SameIds(a, b)
    ensures FindIndex(a, id) == FindIndex(b, id)
  {
    if a != [] {
      assert a[0].id == b[0].id;
      if a[0].id != id {
        assert SameIds(a[1..], b[1..]) by {
          forall j | 0 <= j < |a[1..]| ensures a[1..][j].id == b[1..][j].id {
            assert a[1..][j] == a[j + 1] && b[1..][j] == b[j + 1];
          }
        }
        FindIndexSameIds(a[1..], b[1..], id);
      }
    }
  }

  /** `levels.some(l => l.id === id)`. */
  predicate HasId(levels: seq<StoryLevel>, id: string) {
    exists j | 0 <= j < |levels| :: levels[j].id == id
  }

  /** `levels.filter(l => l.status === 'completed').length`. */
  function CompletedCount(levels: seq<StoryLevel>): (n: nat)
    ensures n <= |levels|
    ensures n == |levels| <==> forall j :: 0 <= j < |levels| ==> levels[j].status == Completed
    ensures n == 0 <==> forall j :: 0 <= j < |levels| ==> levels[j].status != Completed
  {
    if levels == [] then 0
    else
      var rest := CompletedCount(levels[1..]);
      assert forall j :: 1 <= j < |levels| ==> levels[j] == levels[1..][j - 1];
      (if levels[0].status == Completed then 1 else 0) + rest
  }

  /** `levels.find(l => l.status === 'unlocked')`. */
  function FirstUnlocked(levels: seq<StoryLevel>): (r: Option<StoryLevel>)
    ensures r.None? <==> forall j :: 0 <= j < |levels| ==> levels[j].status != Unlocked
    ensures r.Some? ==> exists j | 0 <= j < |levels| ::
      levels[j] == r.value && levels[j].status == Unlocked
      && forall k :: 0 <= k < j ==> levels[k].status != Unlocked
  {
    if levels == [] then None
    else if levels[0].status == Unlocked then Some(levels[0])
    else
      var r := FirstUnlocked(levels[1..]);
      assert forall j :: 1 <= j < |levels| ==> levels[j] == levels[1..][j - 1];
      if r.Some? then
        assert exists j | 0 <= j < |levels[1..]| ::
          levels[1..][j] == r.value && levels[1..][j].status == Unlocked
          && forall k :: 0 <= k < j ==> levels[1..][k].status != Unlocked;
        var j :| 0 <= j < |levels[1..]| && levels[1..][j] == r.value && levels[1..][j].status == Unlocked
          && forall k :: 0 <= k < j ==> levels[1..][k].status != Unlocked;
        assert levels[j + 1] == r.value;
        r
      else r
  }
}
