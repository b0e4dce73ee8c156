/** The end-of-game overlay (src/features/game/components/GameOverOverlay.tsx):
    whether it shows, which level comes next, whether the current level counts
    as the last one, and which actions it offers. */
module GameOverOverlay {
  import opened Prelude
  import opened GameTypes
  import ProgressionHelpers
  import StoryProgression

  datatype Action = Restart | NextLevel(levelId: string) | Home

  /** What the overlay shows: the title and message keys it translates, the
      level after the current one, and the buttons from left to right. */
  datatype OverlayView =
    | Hidden
    | Shown(titleKey: string, messageKey: string, nextLevel: Option<StoryLevel>,
            isLastLevel: bool, actions: seq<Action>)

  /** `findIndex` on the current level's id; no current level matches nothing. */
  function CurrentIndex(levels: seq<StoryLevel>, currentLevel: Option<StoryLevel>): (i: int)
    ensures -1 <= i < |levels|
    ensures currentLevel.None? ==> i == -1
    ensures i >= 0 ==> currentLevel.Some? && levels[i].id == currentLevel.value.id
    ensures currentLevel.Some? ==> i == FindIndex(levels, currentLevel.value.id)
  {
    match currentLevel
    case None => -1
    case Some(l) => FindIndex(levels, l.id)
  }

  /** The level after the current one, when the current one is found before
      the end of the list. */
  function NextLevelOf(levels: seq<StoryLevel>, currentLevel: Option<StoryLevel>): (r: Option<StoryLevel>)
    ensures var i := CurrentIndex(levels, currentLevel);
      r.Some? <==> 0 <= i < |levels| - 1
    ensures var i := CurrentIndex(levels, currentLevel);
      r.Some? ==> r.value == levels[i + 1]
  {
    var i := CurrentIndex(levels, currentLevel);
    if i >= 0 && i < |levels| - 1 then Some(levels[i + 1]) else None
  }

  function TitleKey(gameWon: bool): string {
    if gameWon then "rpg.victory" else "rpg.gameOver"
  }

  function MessageKey(gameWon: bool, isHagrid: bool): string {
    if gameWon then (if isHagrid then "rpg.hagrid.victoryMessage" else "rpg.hermione.victoryMessage")
    else (if isHagrid then "rpg.hagrid.gameOverMessage" else "rpg.hermione.gameOverMessage")
  }

  function Overlay(gameWon: bool, gameOver: bool, isHagrid: bool,
                   currentLevel: Option<StoryLevel>, levels: seq<StoryLevel>): (v: OverlayView)
    // nothing is shown while the game goes on
    ensures v.Hidden? <==> !gameOver && !gameWon
    ensures v.Shown? ==> v.nextLevel == NextLevelOf(levels, currentLevel)
    // the last level: no next one, or a next one still locked
    ensures v.Shown? ==> (v.isLastLevel <==> v.nextLevel.None? || v.nextLevel.value.status == Locked)
    // restart always comes first
    ensures v.Shown? ==> |v.actions| >= 2 && v.actions[0] == Restart
    // moving on is offered exactly on a win that is not at the last level, towards the next level
    ensures v.Shown? ==>
      ((exists j | 0 <= j < |v.actions| :: v.actions[j].NextLevel?) <==> gameWon && !v.isLastLevel)
    ensures v.Shown? ==> forall j | 0 <= j < |v.actions| ::
      v.actions[j].NextLevel? ==> v.actions[j].levelId == v.nextLevel.value.id
    // home is offered on a defeat and on a win at the last level
    ensures v.Shown? ==> (Home in v.actions <==> gameOver || v.isLastLevel)
    ensures v.Shown? ==> v.titleKey == (if gameWon then "rpg.victory" else "rpg.gameOver")
  {
    if !gameOver && !gameWon then Hidden
    else
      var nextLevel := NextLevelOf(levels, currentLevel);
      var isLastLevel := nextLevel.None? || nextLevel.value.status == Locked;
      var winActions :=
        if !gameWon then []
        else if !isLastLevel && nextLevel.Some? then [NextLevel(nextLevel.value.id)]
        else [Home];
      var lossActions := if gameOver then [Home] else [];
      var actions := [Restart] + winActions + lossActions;
      assert gameWon && !isLastLevel ==> actions[1].NextLevel?;
      assert forall j | 0 <= j < |actions| :: actions[j].NextLevel? ==> j == 1 && winActions[0].NextLevel?;
      Shown(TitleKey(gameWon), MessageKey(gameWon, isHagrid), nextLevel, isLastLevel, actions)
  }

  /** After a win on a well-formed progression, the hook has completed the
      playable level and unlocked its successor, so the overlay offers that
      successor, and not the way home. */
  lemma {:induction false} WinOffersNextLevel(levels: seq<StoryLevel>, k: nat, isHagrid: bool)
    requires DistinctIds(levels) && ProgressionHelpers.LinearAt(levels, k) && k + 1 < |levels|
    ensures var after := StoryProgression.HookComplete(levels, levels[k].id);
      var v := Overlay(true, false, isHagrid, Some(levels[k]), after);
      v.Shown? && v.actions == [Restart, NextLevel(levels[k + 1].id)]
  {
    var after := StoryProgression.HookComplete(levels, levels[k].id);
    assert FindIndex(levels, levels[k].id) == k;
    FindIndexSameIds(levels, after, levels[k].id);
    assert after[k + 1].status == Unlocked;
    assert NextLevelOf(after, Some(levels[k])) == Some(after[k + 1]);
  }

  /** A defeat never offers the next level, whatever the progression. */
  lemma DefeatNeverMovesOn(isHagrid: bool, currentLevel: Option<StoryLevel>, levels: seq<StoryLevel>)
    ensures var v := Overlay(false, true, isHagrid, currentLevel, levels);
      v.Shown? && v.actions == [Restart, Home]
  {
  }
}
