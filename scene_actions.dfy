/** The scene-image actions (src/features/game/actions/scene-actions.ts): a
    scene name is normalised into a key, and the key picks one of the static
    images under `/scenes/`, or the placeholder. Diacritics are stripped as
    Unicode canonical decomposition followed by the removal of the combining
    marks U+0300..U+036F would strip them, for the accented letters of
    Latin-1. */
module SceneActions {
  import opened Prelude

  /** The combining diacritical marks the source removes. */
  predicate IsCombiningMark(c: char) {
    '\U{0300}' <= c <= '\U{036F}'
  }

  /** The base letter a lower-case Latin-1 letter decomposes to, or the
      letter itself when it does not decompose. */
  function BaseLetter(c: char): (r: char)
    requires !IsCombiningMark(c)
    ensures r == c || 'a' <= r <= 'z'
  {
    if 'à' <= c <= 'å' then 'a'
    else if c == 'ç' then 'c'
    else if 'è' <= c <= 'ë' then 'e'
    else if 'ì' <= c <= 'ï' then 'i'
    else if c == 'ñ' then 'n'
    else if 'ò' <= c <= 'ö' then 'o'
    else if 'ù' <= c <= 'ü' then 'u'
    else if c == 'ý' || c == 'ÿ' then 'y'
    else c
  }

  /** Canonical decomposition, then removal of every combining mark. */
  function StripDiacritics(s: string): string {
    if s == [] then []
    else (if IsCombiningMark(s[0]) then [] else [BaseLetter(s[0])]) + StripDiacritics(s[1..])
  }

  /** `s.replace(/c/g, '')`. */
  function RemoveChar(s: string, c: char): string {
    if s == [] then [] else (if s[0] == c then [] else [s[0]]) + RemoveChar(s[1..], c)
  }

  const Apostrophe: char := '\''
  const TypographicApostrophe: char := '\U{2019}'

  /** The normalisation chain, with `second` the character the second
      `replace` removes. */
  function KeyWith(sceneName: string, second: char): string {
    StripDiacritics(RemoveChar(RemoveChar(ReplaceChar(Lower(sceneName), ' ', '_'), Apostrophe), second))
  }

  /** The key as the source computes it: lower-cased, spaces to
      underscores, the ASCII apostrophe removed, then removed again, and the
      diacritics stripped. */
  function SceneKeyAsWritten(sceneName: string): (key: string)
    ensures forall c | c in key :: c != ' ' && c != Apostrophe && !IsCombiningMark(c)
  {
    KeyWithIsByChar(sceneName, Apostrophe);
    ByCharIsNormalised(sceneName, Apostrophe);
    KeyWith(sceneName, Apostrophe)
  }

  /** The key as evidently intended: the second removal is of the
      typographic apostrophe, which French text commonly uses. */
  function SceneKey(sceneName: string): string {
    KeyWith(sceneName, TypographicApostrophe)
  }

  /** A character lower-cased, with a space made an underscore. */
  function Underscored(c: char): char {
    var l := LowerChar(c);
    if l == ' ' then '_' else l
  }

  /** What the chain makes of one character. */
  function KeyChar(c: char, second: char): seq<char> {
    var r := Underscored(c);
    if r == Apostrophe || r == second || IsCombiningMark(r) then [] else [BaseLetter(r)]
  }

  /** The chain, character by character. */
  function KeyByChar(s: string, second: char): string {
    if s == [] then [] else KeyChar(s[0], second) + KeyByChar(s[1..], second)
  }

  lemma {:induction false} RemoveConcat(a: string, b: string, c: char)
    ensures RemoveChar(a + b, c) == RemoveChar(a, c) + RemoveChar(b, c)
  {
    if a != [] {
      assert (a + b)[0] == a[0] && (a + b)[1..] == a[1..] + b;
      RemoveConcat(a[1..], b, c);
      assert RemoveChar(a + b, c) == (if a[0] == c then [] else [a[0]]) + RemoveChar(a[1..] + b, c);
    } else {
      assert a + b == b;
    }
  }

  lemma {:induction false} StripConcat(a: string, b: string)
    ensures StripDiacritics(a + b) == StripDiacritics(a) + StripDiacritics(b)
  {
    if a != [] {
      assert (a + b)[0] == a[0] && (a + b)[1..] == a[1..] + b;
      StripConcat(a[1..], b);
      assert StripDiacritics(a + b) == (if IsCombiningMark(a[0]) then [] else [BaseLetter(a[0])]) + StripDiacritics(a[1..] + b);
    } else {
      assert a + b == b;
    }
  }

  /** Lower-casing and the space replacement, on the first character. */
  lemma UnderscoredCons(s: string)
    requires s != []
    ensures ReplaceChar(Lower(s), ' ', '_') == [Underscored(s[0])] + ReplaceChar(Lower(s[1..]), ' ', '_')
  {
    var u := ReplaceChar(Lower(s), ' ', '_');
    var t := ReplaceChar(Lower(s[1..]), ' ', '_');
    assert |u| == |t| + 1;
    forall i | 0 <= i < |u|
      ensures u[i] == ([Underscored(s[0])] + t)[i]
    {
      if i > 0 {
        assert s[i] == s[1..][i - 1];
      }
    }
  }

  /** The removals and the stripping, on one character. */
  lemma KeyCharSteps(c: char, second: char)
    ensures KeyChar(c, second) == StripDiacritics(RemoveChar(RemoveChar([Underscored(c)], Apostrophe), second))
  {
    var r := Underscored(c);
    assert RemoveChar([r], Apostrophe) == if r == Apostrophe then [] else [r];
    if r != Apostrophe {
      assert RemoveChar([r], second) == if r == second then [] else [r];
      if r != second {
        assert StripDiacritics([r]) == if IsCombiningMark(r) then [] else [BaseLetter(r)];
      }
    }
  }

  /** Each step of the chain works on each character alone, so the chain
      equals its character-by-character form. */
  lemma {:induction false} KeyWithIsByChar(s: string, second: char)
    ensures KeyWith(s, second) == KeyByChar(s, second)
  {
    if s != [] {
      KeyWithIsByChar(s[1..], second);
      var head := [Underscored(s[0])];
      var tail := ReplaceChar(Lower(s[1..]), ' ', '_');
      UnderscoredCons(s);
      RemoveConcat(head, tail, Apostrophe);
      RemoveConcat(RemoveChar(head, Apostrophe), RemoveChar(tail, Apostrophe), second);
      StripConcat(RemoveChar(RemoveChar(head, Apostrophe), second), RemoveChar(RemoveChar(tail, Apostrophe), second));
      KeyCharSteps(s[0], second);
    } else {
      assert ReplaceChar(Lower(s), ' ', '_') == [];
    }
  }

  lemma {:induction false} KeyByCharConcat(a: string, b: string, second: char)
    ensures KeyByChar(a + b, second) == KeyByChar(a, second) + KeyByChar(b, second)
  {
    if a != [] {
      assert (a + b)[0] == a[0] && (a + b)[1..] == a[1..] + b;
      KeyByCharConcat(a[1..], b, second);
    } else {
      assert a + b == b;
    }
  }

  /** Unaccented lower-case letters and underscores, which the chain leaves
      as they are. */
  predicate Plain(s: string) {
    forall i | 0 <= i < |s| :: 'a' <= s[i] <= 'z' || s[i] == '_'
  }

  lemma {:induction false} PlainKept(s: string, second: char)
    requires Plain(s) && (second == Apostrophe || second == TypographicApostrophe)
    ensures KeyByChar(s, second) == s
  {
    if s != [] {
      PlainKept(s[1..], second);
      assert KeyChar(s[0], second) == [s[0]];
      assert s == [s[0]] + s[1..];
    }
  }

  /** Around one character, plain text comes through the chain unchanged. */
  lemma OneBetween(x: string, c: char, y: string, second: char)
    requires Plain(x) && Plain(y) && (second == Apostrophe || second == TypographicApostrophe)
    ensures KeyWith(x + [c] + y, second) == x + KeyChar(c, second) + y
  {
    KeyWithIsByChar(x + [c] + y, second);
    KeyByCharConcat(x + [c], y, second);
    KeyByCharConcat(x, [c], second);
    PlainKept(x, second);
    PlainKept(y, second);
  }

  const ScenesDir: string := "/scenes/"
  const Placeholder: string := ScenesDir + "placeholder.svg"
  const LibraryImage: string := ScenesDir + "bibliotheque.svg"
  const HutImage: string := ScenesDir + "cabane_hagrid.svg"
  const CommonRoomImage: string := ScenesDir + "salle_commune.svg"
  const TowerImage: string := ScenesDir + "tour_serdaigle.svg"

  /** The scene map of `getSceneImagePath`. */
  const SceneMap: map<string, string> := map[
    "bibliotheque" := LibraryImage,
    "bibliotheque_de_poudlard" := LibraryImage,
    "grande_salle" := Placeholder,
    "foret_interdite" := Placeholder,
    "cabane_hagrid" := HutImage,
    "cabane_dhagrid" := HutImage,
    "salle_commune_gryffondor" := CommonRoomImage,
    "bureau_dumbledore" := Placeholder,
    "salle_potions" := Placeholder,
    "cour_poudlard" := Placeholder,
    "tour_astronomie" := TowerImage,
    "tour_de_serdaigle" := TowerImage,
    "quai_poudlard" := Placeholder]

  /** `sceneMap[key] || placeholder`. */
  function ImageForKey(key: string): (path: string)
    ensures key in SceneMap ==> path == SceneMap[key]
    ensures key !in SceneMap ==> path == Placeholder
  {
    if key in SceneMap && SceneMap[key] != "" then SceneMap[key] else Placeholder
  }

  /** The path `getSceneImagePath(sceneName)` evidently intends: the image
      of the corrected key. The actions below use the path as written. */
  function SceneImagePath(sceneName: string): (path: string)
    ensures SceneKey(sceneName) in SceneMap ==> path == SceneMap[SceneKey(sceneName)]
    ensures SceneKey(sceneName) !in SceneMap ==> path == Placeholder
  {
    ImageForKey(SceneKey(sceneName))
  }

  /** `getSceneImagePath(sceneName)` as the source computes it: the image of
      the key as written, or the placeholder. */
  function SceneImagePathAsWritten(sceneName: string): (path: string)
    ensures SceneKeyAsWritten(sceneName) in SceneMap ==> path == SceneMap[SceneKeyAsWritten(sceneName)]
    ensures SceneKeyAsWritten(sceneName) !in SceneMap ==> path == Placeholder
  {
    ImageForKey(SceneKeyAsWritten(sceneName))
  }

  /** The five images a path can be. */
  const ScenePaths: set<string> := {LibraryImage, HutImage, CommonRoomImage, TowerImage, Placeholder}

  /** Every path, as written or corrected, is one of the five images, each a
      file under `/scenes/`. */
  lemma EveryPathIsAScene(sceneName: string)
    ensures SceneImagePathAsWritten(sceneName) in ScenePaths
    ensures SceneImagePath(sceneName) in ScenePaths
    ensures forall p | p in ScenePaths :: |p| > |ScenesDir| && p[..|ScenesDir|] == ScenesDir
  {
    assert SceneMap.Values <= ScenePaths;
  }

  /** The key has no space, no apostrophe of either kind and no combining
      mark. */
  lemma SceneKeyIsNormalised(sceneName: string)
    ensures forall c | c in SceneKey(sceneName) :: NormalisedChar(c)
  {
    KeyWithIsByChar(sceneName, TypographicApostrophe);
    ByCharIsNormalised(sceneName, TypographicApostrophe);
  }

  /** Not a space, not an apostrophe of either kind, not a combining
      mark. */
  predicate NormalisedChar(c: char) {
    c != ' ' && c != Apostrophe && c != TypographicApostrophe && !IsCombiningMark(c)
  }

  /** The character-by-character key, with either apostrophe as `second`,
      holds no space, no ASCII apostrophe, no `second` and no combining
      mark. */
  lemma {:induction false} ByCharIsNormalised(s: string, second: char)
    requires second == Apostrophe || second == TypographicApostrophe
    ensures forall c | c in KeyByChar(s, second) :: c != ' ' && c != Apostrophe && c != second && !IsCombiningMark(c)
  {
    if s != [] {
      ByCharIsNormalised(s[1..], second);
      var k := KeyByChar(s, second);
      var h := KeyChar(s[0], second);
      var t := KeyByChar(s[1..], second);
      assert k == h + t;
      if h != [] {
        var r := Underscored(s[0]);
        assert h == [BaseLetter(r)];
        assert r != ' ';
      }
    }
  }

  /** The result of `generateSceneImageAction`. */
  datatype SceneImageResult = SceneImageResult(success: bool, imageUrl: Option<string>, error: Option<string>)

  /** `generateSceneImageAction(levelId, sceneName, customPrompt)`: always a
      success carrying the static path as the source computes it; the level
      and the prompt play no part. */
  function GenerateSceneImageAction(levelId: string, sceneName: string, customPrompt: Option<string>): (r: SceneImageResult)
    ensures r.success && r.error.None? && r.imageUrl == Some(SceneImagePathAsWritten(sceneName))
  {
    SceneImageResult(true, Some(SceneImagePathAsWritten(sceneName)), None)
  }

  /** `getCachedSceneImage(levelId, sceneName)`: never null, and the mapped
      image of the key as written, or else the placeholder. */
  function CachedSceneImage(levelId: string, sceneName: string): (r: Option<string>)
    ensures r.Some?
    ensures SceneKeyAsWritten(sceneName) in SceneMap ==> r.value == SceneMap[SceneKeyAsWritten(sceneName)]
    ensures SceneKeyAsWritten(sceneName) !in SceneMap ==> r.value == Placeholder
  {
    Some(SceneImagePathAsWritten(sceneName))
  }

  /** The two ways of asking for a scene's image agree, for every level and
      prompt. */
  lemma CachedAgreesWithGenerated(levelA: string, levelB: string, sceneName: string, prompt: Option<string>)
    ensures CachedSceneImage(levelA, sceneName) == GenerateSceneImageAction(levelB, sceneName, prompt).imageUrl
  {
  }

  /** The plain pieces the examples are made of. */
  lemma PlainPieces()
    ensures Plain("cabane_d") && Plain("hagrid") && Plain("biblioth") && Plain("que")
  {
  }

  /** The chain as written keeps the typographic apostrophe in
      `cabane_d’hagrid`. */
  lemma TypographicApostropheKeptAsWritten()
    ensures SceneKeyAsWritten("cabane_d" + [TypographicApostrophe] + "hagrid") == "cabane_d" + [TypographicApostrophe] + "hagrid"
  {
    PlainPieces();
    OneBetween("cabane_d", TypographicApostrophe, "hagrid", Apostrophe);
  }

  /** So the name misses the hut's image and gets the placeholder. */
  lemma TypographicApostropheMissesItsImage()
    ensures SceneImagePathAsWritten("cabane_d" + [TypographicApostrophe] + "hagrid") == Placeholder
  {
    TypographicApostropheKeptAsWritten();
    assert "cabane_d" + [TypographicApostrophe] + "hagrid" !in SceneMap;
  }

  /** The corrected chain drops either apostrophe between `cabane_d` and
      `hagrid`. */
  lemma ApostrophesDropped(mark: char)
    requires mark == Apostrophe || mark == TypographicApostrophe
    ensures SceneKey("cabane_d" + [mark] + "hagrid") == "cabane_dhagrid"
  {
    PlainPieces();
    OneBetween("cabane_d", mark, "hagrid", TypographicApostrophe);
    assert "cabane_d" + [] + "hagrid" == "cabane_dhagrid";
  }

  /** So with either apostrophe the name reaches the hut. */
  lemma TypographicApostropheFindsItsImage(mark: char)
    requires mark == Apostrophe || mark == TypographicApostrophe
    ensures SceneImagePath("cabane_d" + [mark] + "hagrid") == HutImage
  {
    ApostrophesDropped(mark);
  }

  /** `bibliothèque` reaches the library image, as written and corrected:
      the accent is stripped. */
  lemma LibraryNameFindsItsImage()
    ensures SceneKeyAsWritten("biblioth" + ['è'] + "que") == "bibliotheque"
    ensures SceneImagePathAsWritten("biblioth" + ['è'] + "que") == LibraryImage
    ensures SceneImagePath("biblioth" + ['è'] + "que") == LibraryImage
  {
    PlainPieces();
    OneBetween("biblioth", 'è', "que", Apostrophe);
    OneBetween("biblioth", 'è', "que", TypographicApostrophe);
    assert "biblioth" + ['e'] + "que" == "bibliotheque";
  }

  /** The two chains differ only on the typographic apostrophe: a name
      without one gets the same key, and so the same image, either way. */
  lemma {:induction false} KeysAgreeWithoutTypographicApostrophe(s: string)
    requires TypographicApostrophe !in s
    ensures SceneKeyAsWritten(s) == SceneKey(s)
    ensures SceneImagePathAsWritten(s) == SceneImagePath(s)
  {
    KeyWithIsByChar(s, Apostrophe);
    KeyWithIsByChar(s, TypographicApostrophe);
    ByCharAgrees(s);
  }

  lemma {:induction false} ByCharAgrees(s: string)
    requires TypographicApostrophe !in s
    ensures KeyByChar(s, Apostrophe) == KeyByChar(s, TypographicApostrophe)
  {
    if s != [] {
      assert s[0] in s && forall c | c in s[1..] :: c in s;
      ByCharAgrees(s[1..]);
      assert Underscored(s[0]) != TypographicApostrophe;
    }
  }
}
