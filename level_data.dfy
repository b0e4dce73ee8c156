/** The two built-in story levels used whenever no stored progression is
    available (src/features/game/data.ts). */
module LevelData {
  import opened Prelude
  import opened GameTypes

  const HermioneLevel: StoryLevel := StoryLevel(
    HermioneLevelId,
    "Bibliothèque de Poudlard - Hermione",
    "Hermione révise seule à la bibliothèque. Elle semble préoccupée et songe à partir.",
    Unlocked,
    1,
    Some(LevelContent(
      Some("Hermione Granger"),
      Some("Bibliothèque de Poudlard"),
      Some("sad"),
      Some("Convaincre Hermione de rester à Poudlard"),
      Some("medium"),
      None, None, None)))

  const HagridLevel: StoryLevel := StoryLevel(
    HagridLevelId,
    "La Cabane d'Hagrid - Secret Interdit",
    "Hagrid cache quelque chose dans sa cabane. Découvrez son secret sans le brusquer.",
    Locked,
    2,
    Some(LevelContent(
      Some("Hagrid"),
      Some("Cabane d'Hagrid"),
      Some("nervous"),
      Some("Découvrir le secret d'Hagrid tout en gardant sa confiance"),
      Some("hard"),
      None, None, None)))

  const InitialStoryLevels: seq<StoryLevel> := [HermioneLevel, HagridLevel]

  /** The default list: two levels, ordered 1 then 2, the first playable and
      the second locked, with distinct canonical ids and the moods sad and nervous. */
  lemma InitialStoryLevelsShape()
    ensures |InitialStoryLevels| == 2
    ensures InitialStoryLevels[0].order == 1 && InitialStoryLevels[1].order == 2
    ensures forall i, j :: 0 <= i < j < |InitialStoryLevels| ==>
      InitialStoryLevels[i].order < InitialStoryLevels[j].order
      && InitialStoryLevels[i].id != InitialStoryLevels[j].id
    ensures InitialStoryLevels[0].status == Unlocked && InitialStoryLevels[1].status == Locked
    ensures InitialStoryLevels[0].id == HermioneLevelId && InitialStoryLevels[1].id == HagridLevelId
    ensures InitialStoryLevels[0].content.Some? && InitialStoryLevels[0].content.value.initialMood == Some("sad")
    ensures InitialStoryLevels[1].content.Some? && InitialStoryLevels[1].content.value.initialMood == Some("nervous")
  {
    assert HermioneLevelId != HagridLevelId by {
      assert HermioneLevelId[7] == 'e' && HagridLevelId[7] == 'a';
    }
  }
}
