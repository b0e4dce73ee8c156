/** The scene service (src/shared/services/image-generation.service.ts):
    the descriptions of ten places of Hogwarts, the description a scene name
    leads to, and the place suggested for a character. */
module ImageGeneration {
  import opened Prelude

  const GrandeSalleDescription: string :=
    "La majestueuse Grande "
      + "Salle avec ses bougies "
      + "flottantes, ses quatre "
      + "longues tables et ses "
      + "bannières des maisons"

  const BibliothequeDescription: string :=
    "La bibliothèque antique de "
      + "Poudlard avec ses étagères "
      + "immenses remplies de "
      + "grimoires et parchemins "
      + "anciens"

  const ForetInterditeDescription: string :=
    "La mystérieuse Forêt "
      + "Interdite avec ses arbres "
      + "ancestraux tordus et son "
      + "brouillard ensorcelé"

  const SalleCommuneGryffondorDescription: string :=
    "La chaleureuse salle "
      + "commune de Gryffondor avec "
      + "sa cheminée crépitante et "
      + "ses fauteuils confortables"

  const BureauDumbledoreDescription: string :=
    "Le bureau circulaire de "
      + "Dumbledore rempli "
      + "d'instruments magiques "
      + "argentés et de portraits "
      + "animés"

  const CabaneHagridDescription: string :=
    "La cabane rustique de "
      + "Hagrid en bordure de forêt "
      + "avec son mobilier "
      + "surdimensionné"

  const SallePotionsDescription: string :=
    "Les cachots sombres de la "
      + "salle de potions avec "
      + "leurs étagères "
      + "d'ingrédients mystérieux"

  const CourPoudlardDescription: string :=
    "La cour pavée du château "
      + "avec ses arches de pierre "
      + "et ses tours majestueuses "
      + "en arrière-plan"

  const TourAstronomieDescription: string :=
    "La tour d'astronomie "
      + "circulaire avec son "
      + "télescope et ses cartes "
      + "célestes"

  const QuaiPoudlardDescription: string :=
    "La plateforme victorienne "
      + "du Quai 9¾ avec le "
      + "Poudlard Express rouge "
      + "étincelant"

  /** `HOGWARTS_LOCATIONS`, by key. */
  const HogwartsLocations: map<string, string> := map[
    "grande_salle" := GrandeSalleDescription,
    "bibliotheque" := BibliothequeDescription,
    "foret_interdite" := ForetInterditeDescription,
    "salle_commune_gryffondor" := SalleCommuneGryffondorDescription,
    "bureau_dumbledore" := BureauDumbledoreDescription,
    "cabane_hagrid" := CabaneHagridDescription,
    "salle_potions" := SallePotionsDescription,
    "cour_poudlard" := CourPoudlardDescription,
    "tour_astronomie" := TourAstronomieDescription,
    "quai_poudlard" := QuaiPoudlardDescription]

  /** The keys in the order the record literal declares them, which is the
      order `Object.keys` lists them in. */
  const LocationKeys: seq<string> := ["grande_salle", "bibliotheque", "foret_interdite", "salle_commune_gryffondor", "bureau_dumbledore", "cabane_hagrid", "salle_potions", "cour_poudlard", "tour_astronomie", "quai_poudlard"]

  /** `getAvailableScenes()`: every place once, and nothing else. */
  function AvailableScenes(): (r: seq<string>)
    ensures |r| == 10
    ensures forall i | 0 <= i < |r| :: r[i] in HogwartsLocations
    ensures forall k | k in HogwartsLocations :: k in r
    ensures forall i, j | 0 <= i < j < |r| :: r[i] != r[j]
  {
    LocationKeys
  }

  /** The key a scene name is looked up under: lower-cased, spaces turned
      into underscores. */
  function DescriptionKey(sceneName: string): string {
    ReplaceChar(Lower(sceneName), ' ', '_')
  }

  /** `getSceneDescription(sceneName)`: the description filed under the
      key, or the name itself, as given, when there is none. */
  function SceneDescription(sceneName: string): (r: string)
    ensures DescriptionKey(sceneName) in HogwartsLocations ==> r == HogwartsLocations[DescriptionKey(sceneName)]
    ensures DescriptionKey(sceneName) !in HogwartsLocations ==> r == sceneName
  {
    var key := DescriptionKey(sceneName);
    if key in HogwartsLocations && HogwartsLocations[key] != "" then HogwartsLocations[key] else sceneName
  }

  /** The places suggested for the characters that have one. */
  const CharacterLocations: map<string, string> := map[
    "hermione" := "bibliotheque_de_poudlard",
    "hagrid" := "cabane_hagrid",
    "ron" := "salle_commune_gryffondor",
    "luna" := "tour_de_serdaigle",
    "dumbledore" := "bureau_dumbledore",
    "snape" := "salle_potions"]

  const DefaultLocation: string := "grande_salle"

  /** The lower-cased first space-separated word of a name. */
  function CharacterKey(character: string): string {
    FirstWord(Lower(character))
  }

  /** `suggestLocationForCharacter(character)`. */
  function SuggestLocationForCharacter(character: string): (r: string)
    ensures CharacterKey(character) in CharacterLocations ==> r == CharacterLocations[CharacterKey(character)]
    ensures CharacterKey(character) !in CharacterLocations ==> r == "grande_salle"
  {
    var key := CharacterKey(character);
    if key in CharacterLocations && CharacterLocations[key] != "" then CharacterLocations[key] else DefaultLocation
  }

  /** Only the first word counts: `Rubeus Hagrid` gets the default place. */
  lemma RubeusHagridGetsTheGreatHall()
    ensures SuggestLocationForCharacter("Rubeus Hagrid") == "grande_salle"
  {
    KeyIsFirstWord("Rubeus Hagrid", 6);
    assert "Rubeus Hagrid"[..6] == "Rubeus";
    var lower := Lower("Rubeus");
    assert lower[0] == 'r' && lower[1] == 'u' && lower[2] == 'b';
    assert lower[3] == 'e' && lower[4] == 'u' && lower[5] == 's';
    assert lower == "rubeus";
  }

  /** ... and `Hagrid le garde-chasse` gets the hut. */
  lemma HagridFirstGetsTheHut()
    ensures SuggestLocationForCharacter("Hagrid le garde-chasse") == "cabane_hagrid"
  {
    KeyIsFirstWord("Hagrid le garde-chasse", 6);
    assert "Hagrid le garde-chasse"[..6] == "Hagrid";
    var lower := Lower("Hagrid");
    assert lower[0] == 'h' && lower[1] == 'a' && lower[2] == 'g';
    assert lower[3] == 'r' && lower[4] == 'i' && lower[5] == 'd';
    assert lower == "hagrid";
  }

  /** The key is the lower-cased first word, which ends at the first
      space. */
  lemma KeyIsFirstWord(character: string, n: nat)
    requires n < |character| && character[n] == ' '
    requires forall i | 0 <= i < n :: character[i] != ' '
    ensures CharacterKey(character) == Lower(character[..n])
  {
    var lower := Lower(character);
    assert lower[n] == ' ';
    assert ' ' !in lower[..n] by {
      forall i | 0 <= i < n
        ensures lower[..n][i] != ' '
      {
        assert lower[i] == LowerChar(character[i]);
      }
    }
    FirstWordOf(lower, n);
    assert lower[..n] == Lower(character[..n]);
  }

  /** `FirstWord` stops at the first space. */
  lemma FirstWordOf(s: string, n: nat)
    requires n < |s| && s[n] == ' ' && ' ' !in s[..n]
    ensures FirstWord(s) == s[..n]
  {
  }

  /** Every suggestion is one of the seven places. */
  lemma SuggestionIsAPlace(character: string)
    ensures SuggestLocationForCharacter(character) in CharacterLocations.Values + {"grande_salle"}
  {
  }

  /** A suggested place need not have a description: the library
      suggested for Hermione is described by its own key. */
  lemma SuggestedLibraryHasNoDescription()
    ensures "bibliotheque_de_poudlard" !in HogwartsLocations
    ensures SceneDescription("bibliotheque_de_poudlard") == "bibliotheque_de_poudlard"
  {
    assert DescriptionKey("bibliotheque_de_poudlard") == "bibliotheque_de_poudlard";
  }
}
