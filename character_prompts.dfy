/** The system prompt of a character (src/features/game/config/character-prompts.ts):
    the character's name picks one of four prompt configurations by a
    case-insensitive substring test, the level's content fills in the
    location, the objective and the extra context, and the language picks the
    French or the English template. A name that matches no configuration gets
    a one-line generic prompt. The template texts themselves are not part of
    this model: a chosen template is the record of what it is filled with. */
module CharacterPrompts {
  import opened Prelude
  import opened GameTypes
  import opened Language

  datatype CharacterKey = Hermione | Hagrid | Ron | Luna

  /** The key under which `CHARACTER_PROMPTS` files each configuration. */
  function KeyName(k: CharacterKey): string {
    match k
    case Hermione => "hermione"
    case Hagrid => "hagrid"
    case Ron => "ron"
    case Luna => "luna"
  }

  /** The `name` of each configuration. */
  function DisplayName(k: CharacterKey): string {
    match k
    case Hermione => "Hermione Granger"
    case Hagrid => "Hagrid"
    case Ron => "Ron Weasley"
    case Luna => "Luna Lovegood"
  }

  /** `CHARACTER_PROMPTS`, by key. */
  const CharacterPromptTable: map<string, CharacterKey> :=
    map["hermione" := Hermione, "hagrid" := Hagrid, "ron" := Ron, "luna" := Luna]

  /** The table holds exactly the four keys, each filing its own
      configuration. */
  lemma ExactlyFourKeys()
    ensures CharacterPromptTable.Keys == {"hermione", "hagrid", "ron", "luna"}
    ensures forall k: CharacterKey :: KeyName(k) in CharacterPromptTable && CharacterPromptTable[KeyName(k)] == k
    ensures forall a: CharacterKey, b: CharacterKey :: KeyName(a) == KeyName(b) ==> a == b
  {
  }

  /** The four keys in the order the name is tested against them. */
  const KeyOrder: seq<CharacterKey> := [Hermione, Hagrid, Ron, Luna]

  /** The first key, in `KeyOrder`, that the lower-cased name contains. */
  function SelectKey(character: string): (r: Option<CharacterKey>)
    ensures r.Some? ==> Contains(Lower(character), KeyName(r.value))
  {
    var lower := Lower(character);
    if Contains(lower, "hermione") then Some(Hermione)
    else if Contains(lower, "hagrid") then Some(Hagrid)
    else if Contains(lower, "ron") then Some(Ron)
    else if Contains(lower, "luna") then Some(Luna)
    else None
  }

  function IndexOf(k: CharacterKey): (i: nat)
    ensures i < |KeyOrder| && KeyOrder[i] == k
  {
    match k
    case Hermione => 0
    case Hagrid => 1
    case Ron => 2
    case Luna => 3
  }

  /** The chosen key occurs in the lower-cased name and no key tested
      before it does; no key at all is chosen only when none occurs. */
  lemma SelectKeyIsFirstMatch(character: string)
    ensures var r := SelectKey(character);
      && (r.Some? ==> Contains(Lower(character), KeyName(r.value))
                      && forall j | 0 <= j < IndexOf(r.value) :: !Contains(Lower(character), KeyName(KeyOrder[j])))
      && (r.None? <==> forall k: CharacterKey :: !Contains(Lower(character), KeyName(k)))
  {
  }

  /** The test is on the lower-cased name: two names that differ only in
      case get the same key. */
  lemma SelectKeyIgnoresCase(a: string, b: string)
    requires Lower(a) == Lower(b)
    ensures SelectKey(a) == SelectKey(b)
  {
  }

  /** Substring matching, not word matching: "Bloody Baron" gets Ron's
      prompt. */
  lemma BaronGetsRon()
    ensures SelectKey("Bloody Baron") == Some(Ron)
  {
    var lower := Lower("Bloody Baron");
    assert lower == "bloody baron";
    MissingLetter(lower, "hermione", 0);
    MissingLetter(lower, "hagrid", 0);
    assert OccursAt(lower, "ron", 9);
  }

  /** A name naming two characters gets the key tested first. */
  lemma EarlierKeyWins()
    ensures SelectKey("Ron et Hermione") == Some(Hermione)
  {
    assert OccursAt(Lower("Ron et Hermione"), "hermione", 7);
  }

  /** Case does not matter. */
  lemma UpperCaseMatches()
    ensures SelectKey("Rubeus HAGRID") == Some(Hagrid)
  {
    var lower := Lower("Rubeus HAGRID");
    assert lower == "rubeus hagrid";
    MissingLetter(lower, "hermione", 3);
    assert OccursAt(lower, "hagrid", 7);
  }

  /** A name with none of the keys gets no configuration. */
  lemma NevilleHasNoKey()
    ensures SelectKey("Neville") == None
  {
    var lower := Lower("Neville");
    assert lower == "neville";
    MissingLetter(lower, "hermione", 0);
    MissingLetter(lower, "hagrid", 0);
    MissingLetter(lower, "ron", 0);
    MissingLetter(lower, "luna", 1);
  }

  /** A string lacking one of the letters of `sub` does not contain it. */
  lemma MissingLetter(s: string, sub: string, j: int)
    requires 0 <= j < |sub| && forall i | 0 <= i < |s| :: s[i] != sub[j]
    ensures !Contains(s, sub)
  {
    forall i | 0 <= i <= |s| - |sub|
      ensures !OccursAt(s, sub, i)
    {
      assert s[i..i + |sub|][j] == s[i + j];
    }
  }

  /** The prompt handed to the model: a filled-in template of one of the four
      configurations, or the generic one-line prompt. */
  datatype Prompt =
    | Templated(key: CharacterKey, french: bool, location: string, objective: string, context: string)
    | Generic(text: string)

  const DefaultLocation: string := "Poudlard"
  const DefaultObjective: string := "Aider le personnage"

  /** The generic prompt, in French or English, around the name as given. */
  function GenericPrompt(character: string, language: Lang): string {
    if language == Fr then "Tu es " + character + " dans l'univers Harry Potter. Reste fidèle à ton personnage."
    else "You are " + character + " in the Harry Potter universe. Stay true to your character."
  }

  /** `levelContent?.field || fallback`. */
  function ContentField(content: Option<LevelContent>, field: LevelContent -> Option<string>, fallback: string): string {
    if content.Some? then OrElse(field(content.value), fallback) else fallback
  }

  /** `generateCharacterPrompt(character, levelContent, language)`. */
  function GenerateCharacterPrompt(character: string, levelContent: Option<LevelContent>, language: Lang): (p: Prompt)
    ensures p.Generic? <==> SelectKey(character).None?
    ensures p.Templated? ==> p.key == SelectKey(character).value && p.french == (language == Fr)
    ensures p.Templated? ==> p.location != "" && p.objective != ""
  {
    var key := SelectKey(character);
    if key.None? then Generic(GenericPrompt(character, language))
    else
      Templated(key.value, language == Fr,
                ContentField(levelContent, (c: LevelContent) => c.location, DefaultLocation),
                ContentField(levelContent, (c: LevelContent) => c.objective, DefaultObjective),
                ContentField(levelContent, (c: LevelContent) => c.context, ""))
  }

  /** A name matching no key gets the generic prompt in the requested
      language, with the name as given (not lower-cased) inside it. */
  lemma NoKeyGivesGenericPrompt(character: string, levelContent: Option<LevelContent>, language: Lang)
    requires forall k: CharacterKey :: !Contains(Lower(character), KeyName(k))
    ensures var p := GenerateCharacterPrompt(character, levelContent, language);
      && p.Generic?
      && Contains(p.text, character)
      && (language == Fr <==> p.text[..6] == "Tu es ")
  {
    var p := GenerateCharacterPrompt(character, levelContent, language);
    SelectKeyIsFirstMatch(character);
    assert p == Generic(GenericPrompt(character, language));
    if language == Fr {
      assert OccursAt(p.text, character, 6);
    } else {
      assert OccursAt(p.text, character, 8);
      assert p.text[..6] != "Tu es " by { assert p.text[0] == 'Y'; }
    }
  }

  /** A matching name gets its configuration's template: French exactly when
      the language is French, the level's location, objective and context
      when they are present and non-empty, and otherwise `Poudlard`,
      `Aider le personnage` and the empty context. */
  lemma MatchingKeyFillsTemplate(character: string, levelContent: Option<LevelContent>, language: Lang)
    requires SelectKey(character).Some?
    ensures var p := GenerateCharacterPrompt(character, levelContent, language);
      && p.Templated? && p.key == SelectKey(character).value
      && p.french == (language == Fr)
      && (levelContent.None? ==> p.location == "Poudlard" && p.objective == "Aider le personnage" && p.context == "")
      && (levelContent.Some? ==>
            p.location == OrElse(levelContent.value.location, "Poudlard")
            && p.objective == OrElse(levelContent.value.objective, "Aider le personnage")
            && p.context == OrElse(levelContent.value.context, ""))
  {
  }

  /** An empty location or objective counts as missing. */
  lemma EmptyFieldsFallBack(character: string, c: LevelContent, language: Lang)
    requires SelectKey(character).Some?
    requires c.location == Some("") && c.objective == None
    ensures var p := GenerateCharacterPrompt(character, Some(c), language);
      p.Templated? && p.location == "Poudlard" && p.objective == "Aider le personnage"
  {
  }
}
