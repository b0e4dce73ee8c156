/** The game page (src/app/game/page.tsx): the level and character it shows,
    the starting conversation, and the turn loop of `handleSendMessage`. The
    asynchronous handler is split in two: `Send` is the part that runs at
    once, `Resolve` is the transition callback once the decision (or its
    error) is known; what the callback's closure captured is kept in the
    `pending*` fields. */
module GamePage {
  import opened Prelude
  import opened GameTypes
  import opened Language
  import StoryProgression
  import GameActions
  import GameOverOverlay
  import Snackbar

  /** `levels.find(l => l.id === levelId) || levels[0]`. */
  function CurrentLevel(levels: seq<StoryLevel>, levelId: Option<string>): (r: Option<StoryLevel>)
    ensures levelId.Some? && HasId(levels, levelId.value) ==>
      r == Some(levels[FindIndex(levels, levelId.value)])
    ensures !(levelId.Some? && HasId(levels, levelId.value)) ==>
      r == if levels == [] then None else Some(levels[0])
    ensures r.Some? ==> r.value in levels
  {
    if levelId.Some? && FindIndex(levels, levelId.value) >= 0 then Some(levels[FindIndex(levels, levelId.value)])
    else if levels == [] then None
    else Some(levels[0])
  }

  function ContentOf(level: Option<StoryLevel>): Option<LevelContent> {
    if level.Some? then level.value.content else None
  }

  /** The level's non-empty character name, Hermione Granger by default. */
  function Character(level: Option<StoryLevel>): (r: string)
    ensures r != ""
    ensures ContentOf(level).Some? && OrElse(ContentOf(level).value.character, "") != "" ==>
      r == ContentOf(level).value.character.value
    ensures ContentOf(level).None? || OrElse(ContentOf(level).value.character, "") == "" ==>
      r == "Hermione Granger"
  {
    var c := ContentOf(level);
    OrElse(if c.Some? then c.value.character else None, "Hermione Granger")
  }

  /** `character.toLowerCase().includes(name)`. */
  predicate Mentions(character: string, name: string) {
    Contains(Lower(character), name)
  }

  predicate IsHagrid(character: string) {
    Mentions(character, "hagrid")
  }

  /** The image folder: ron, then luna, then hermione, and hagrid for any
      other character. */
  function CharacterFolder(character: string): (r: string)
    ensures r == "ron" <==> Mentions(character, "ron")
    ensures r == "luna" <==> !Mentions(character, "ron") && Mentions(character, "luna")
    ensures r == "hermione" <==>
      !Mentions(character, "ron") && !Mentions(character, "luna") && Mentions(character, "hermione")
    ensures r == "hagrid" <==>
      !Mentions(character, "ron") && !Mentions(character, "luna") && !Mentions(character, "hermione")
  {
    if Mentions(character, "ron") then "ron"
    else if Mentions(character, "luna") then "luna"
    else if Mentions(character, "hermione") then "hermione"
    else "hagrid"
  }

  /** Ron's and Luna's images are PNG files, the others JPEG. */
  function ImageExt(character: string): (r: string)
    ensures r == "png" <==> Mentions(character, "ron") || Mentions(character, "luna")
    ensures r == "jpg" <==> !Mentions(character, "ron") && !Mentions(character, "luna")
  {
    if Mentions(character, "ron") || Mentions(character, "luna") then "png" else "jpg"
  }

  /** The first assistant message: the level's own, or the translated default
      of the character; never empty. */
  function InitialMessage(level: Option<StoryLevel>, ui: ContextValue): (r: string)
    ensures r != ""
    ensures ContentOf(level).Some? && OrElse(ContentOf(level).value.initialMessage, "") != "" ==>
      r == ContentOf(level).value.initialMessage.value
    ensures ContentOf(level).None? || OrElse(ContentOf(level).value.initialMessage, "") == "" ==>
      r == ui.T(if IsHagrid(Character(level)) then "rpg.hagrid.initialMessage"
                      else "rpg.hermione.initialMessage")
  {
    var c := ContentOf(level);
    var key := if IsHagrid(Character(level)) then "rpg.hagrid.initialMessage" else "rpg.hermione.initialMessage";
    OrElse(if c.Some? then c.value.initialMessage else None, ui.T(key))
  }

  /** The level's mood, or nervous for Hagrid and sad for anyone else. */
  function InitialMood(level: Option<StoryLevel>): (r: string)
    ensures r != ""
    ensures ContentOf(level).Some? && OrElse(ContentOf(level).value.initialMood, "") != "" ==>
      r == ContentOf(level).value.initialMood.value
    ensures ContentOf(level).None? || OrElse(ContentOf(level).value.initialMood, "") == "" ==>
      r == if IsHagrid(Character(level)) then "nervous" else "sad"
  {
    var c := ContentOf(level);
    OrElse(if c.Some? then c.value.initialMood else None, if IsHagrid(Character(level)) then "nervous" else "sad")
  }

  /** Four suggestions per character family and language; the French ones
      for Hermione are those of the server's initial state. */
  function DefaultSuggestions(isHagrid: bool, lang: Lang): (r: seq<string>)
    ensures |r| == 4
    ensures !isHagrid && lang == Fr ==> r == GameActions.InitialSuggestions
  {
    if isHagrid then
      if lang == Fr then ["Que cachez-vous ?", "Je peux vous aider ?", "Vous semblez nerveux...", "Belle journée n'est-ce pas ?"]
      else ["What are you hiding?", "Can I help you?", "You seem nervous...", "Nice day, isn't it?"]
    else
      if lang == Fr then GameActions.InitialSuggestions
      else ["What's wrong?", "Remind her of Harry and Ron", "Offer her attentive listening", "Block the passage"]
  }

  /** The state a conversation starts from: no reply, the initial mood, risk
      50, neither over nor won, the level's suggestions (kept even when empty,
      since an array is truthy) or the defaults. */
  function StartingState(level: Option<StoryLevel>, ui: ContextValue): (s: GameState)
    ensures s.characterReply == "" && s.mood == InitialMood(level)
    ensures s.departureRisk == GameActions.InitialDepartureRisk
    ensures !s.gameOver && !s.gameWon
    ensures s.suggestedActions.Some?
    ensures ContentOf(level).Some? && ContentOf(level).value.suggestedActions.Some? ==>
      s.suggestedActions == ContentOf(level).value.suggestedActions
  {
    var c := ContentOf(level);
    var own := if c.Some? then c.value.suggestedActions else None;
    GameState("", InitialMood(level), 50, false, false,
              Some(own.GetOr(DefaultSuggestions(IsHagrid(Character(level)), ui.language))))
  }

  datatype DefeatReason = MuggleInsult | MaxTurnsReached | NormalDefeat

  /** Why a defeat happened, as the page reports it: an insult in the
      player's last message comes first, then the turn limit. */
  function DefeatReasonOf(userMessage: string, currentTurn: int): (r: DefeatReason)
    ensures r == MuggleInsult <==> Mentions(userMessage, "moldu") || Mentions(userMessage, "muggle")
    ensures r == MaxTurnsReached <==>
      !Mentions(userMessage, "moldu") && !Mentions(userMessage, "muggle") && currentTurn >= GameActions.MaxTurns
    ensures r == NormalDefeat <==>
      !Mentions(userMessage, "moldu") && !Mentions(userMessage, "muggle") && currentTurn < GameActions.MaxTurns
  {
    var lowerMsg := Lower(userMessage);
    if Contains(lowerMsg, "moldu") || Contains(lowerMsg, "muggle") then MuggleInsult
    else if currentTurn >= 10 then MaxTurnsReached
    else NormalDefeat
  }

  /** The image name for a mood: sad and nervous share the sad image, angry,
      happy and desperate have their own, anything else is neutral. */
  function MoodImageName(mood: string): (r: string)
    ensures r == "sad" <==> mood == "sad" || mood == "nervous"
    ensures r == "angry" <==> mood == "angry"
    ensures r == "happy" <==> mood == "happy"
    ensures r == "desperate" <==> mood == "desperate"
    ensures r == "neutral" <==>
      mood != "sad" && mood != "nervous" && mood != "angry" && mood != "happy" && mood != "desperate"
  {
    if mood == "sad" || mood == "nervous" then "sad"
    else if mood == "angry" then "angry"
    else if mood == "happy" then "happy"
    else if mood == "desperate" then "desperate"
    else "neutral"
  }

  function ImagePath(folder: string, name: string, ext: string): string {
    "/" + folder + "/" + name + "." + ext
  }

  /** The five images the page preloads for a character. */
  function PreloadedImages(folder: string, ext: string): seq<string> {
    [ImagePath(folder, "neutral", ext), ImagePath(folder, "sad", ext), ImagePath(folder, "angry", ext),
     ImagePath(folder, "happy", ext), ImagePath(folder, "desperate", ext)]
  }

  /** `moodImage`: the neutral image, replaced in a switch on the mood. */
  method MoodImage(folder: string, ext: string, mood: string) returns (moodImage: string)
    ensures moodImage == ImagePath(folder, MoodImageName(mood), ext)
    ensures moodImage in PreloadedImages(folder, ext)
  {
    moodImage := ImagePath(folder, "neutral", ext);
    if mood == "sad" || mood == "nervous" {
      moodImage := ImagePath(folder, "sad", ext);
    } else if mood == "angry" {
      moodImage := ImagePath(folder, "angry", ext);
    } else if mood == "happy" {
      moodImage := ImagePath(folder, "happy", ext);
    } else if mood == "desperate" {
      moodImage := ImagePath(folder, "desperate", ext);
    } else {
      moodImage := ImagePath(folder, "neutral", ext);
    }
  }

  /** The snackbar texts of a win, a defeat and a failed turn. */
  function VictoryNotice(ui: ContextValue, character: string): (r: string)
    ensures var head := ui.T("rpg.victory") + " - " + character + " ";
      |head| < |r| && r[..|head|] == head && r[|r| - 2..] == " !"
  {
    var key := if IsHagrid(character) then "rpg.hagrid.victorySnackbar" else "rpg.hermione.victorySnackbar";
    ui.T("rpg.victory") + " - " + character + " " + ui.T(key) + " !"
  }

  function DefeatNotice(ui: ContextValue, character: string): (r: string)
    ensures var head := ui.T("rpg.gameOver") + " - " + character + " ";
      |head| < |r| && r[..|head|] == head && r[|r| - 1] == '.'
  {
    var key := if IsHagrid(character) then "rpg.hagrid.gameOverSnackbar" else "rpg.hermione.gameOverSnackbar";
    ui.T("rpg.gameOver") + " - " + character + " " + ui.T(key) + "."
  }

  function FailureNotice(ui: ContextValue): (r: string)
    ensures |r| > 3 && r[|r| - 3..] == "..."
    ensures ui.language == Fr <==> r[0] == 'U'
  {
    if ui.language == Fr then "Une erreur magique est survenue..." else "A magical error occurred..."
  }

  /** The number of messages the player wrote. */
  function UserCount(messages: seq<ChatMessage>): (n: nat)
    ensures n <= |messages|
  {
    if messages == [] then 0
    else UserCount(messages[..|messages| - 1]) + (if messages[|messages| - 1].role == User then 1 else 0)
  }

  lemma UserCountAppend(messages: seq<ChatMessage>, m: ChatMessage)
    ensures UserCount(messages + [m]) == UserCount(messages) + (if m.role == User then 1 else 0)
  {
    assert (messages + [m])[..|messages|] == messages;
  }

  class GamePage {
    const progression: StoryProgression.StoryProgressionHook
    const snackbar: Snackbar.SnackbarHook
    const levelId: Option<string>
    var messages: seq<ChatMessage>
    var turnNumber: int
    var gameState: GameState
    var inputText: string
    var pending: bool
    /** What the transition of the send in flight captured. */
    var pendingTurn: int
    var pendingMessage: string
    var pendingLevel: Option<StoryLevel>
    var pendingContext: ContextValue

    /** The conversation so far starts with the character, and it holds one
        player message per turn taken. */
    ghost predicate Valid()
      reads this
    {
      |messages| >= 1 && messages[0].role == Assistant && UserCount(messages) == turnNumber
    }

    function Level(): Option<StoryLevel>
      reads this, progression
    {
      CurrentLevel(progression.levels, levelId)
    }

    /** The overlay the page draws over the conversation. */
    function Overlay(): (v: GameOverOverlay.OverlayView)
      reads this, progression
      ensures v.Hidden? <==> !gameState.gameOver && !gameState.gameWon
    {
      GameOverOverlay.Overlay(gameState.gameWon, gameState.gameOver, IsHagrid(Character(Level())),
                              Level(), progression.levels)
    }

    /** The first render with the level-entry effect applied. */
    constructor(progression: StoryProgression.StoryProgressionHook, snackbar: Snackbar.SnackbarHook,
                levelId: Option<string>, ui: ContextValue)
      ensures this.progression == progression && this.snackbar == snackbar && this.levelId == levelId
      ensures gameState == StartingState(CurrentLevel(progression.levels, levelId), ui)
      ensures messages == [ChatMessage(Assistant, InitialMessage(CurrentLevel(progression.levels, levelId), ui))]
      ensures turnNumber == 0 && inputText == "" && !pending
      ensures Valid()
    {
      this.progression := progression;
      this.snackbar := snackbar;
      this.levelId := levelId;
      var level := CurrentLevel(progression.levels, levelId);
      gameState := StartingState(level, ui);
      messages := [];
      turnNumber := 0;
      inputText := "";
      pending := false;
      pendingTurn := 0;
      pendingMessage := "";
      pendingLevel := None;
      pendingContext := ui;
      new;
      EnterLevel(ui);
    }

    /** The effect on `levelId`: the conversation restarts from the initial
        message at turn 0. The game state is left as it is. */
    method EnterLevel(ui: ContextValue)
      modifies this
      ensures messages == [ChatMessage(Assistant, InitialMessage(Level(), ui))]
      ensures turnNumber == 0
      ensures gameState == old(gameState) && inputText == old(inputText) && pending == old(pending)
      ensures pendingTurn == old(pendingTurn) && pendingMessage == old(pendingMessage)
      ensures pendingLevel == old(pendingLevel) && pendingContext == old(pendingContext)
      ensures Valid()
    {
      messages := [ChatMessage(Assistant, InitialMessage(Level(), ui))];
      turnNumber := 0;
      assert messages == [] + [messages[0]];
      UserCountAppend([], messages[0]);
    }

    /** The text box changes. */
    method Type(text: string)
      modifies this
      ensures inputText == text
      ensures messages == old(messages) && turnNumber == old(turnNumber) && gameState == old(gameState)
      ensures pending == old(pending) && pendingTurn == old(pendingTurn) && pendingMessage == old(pendingMessage)
      ensures pendingLevel == old(pendingLevel) && pendingContext == old(pendingContext)
    {
      inputText := text;
    }

    /** The synchronous part of `handleSendMessage`, with the text of a
        clicked suggestion or, failing that, the text box. A blank text, a
        request in flight or an ended game leave everything as it was;
        otherwise the box is cleared, the turn counter moves on by one and
        the message is appended, all before the decision is asked for. The
        history and turn to send are returned. */
    method Send(forcedText: Option<string>, ui: ContextValue) returns (accepted: bool, history: seq<ChatMessage>, turn: int)
      modifies this
      ensures var userMessage := OrElse(forcedText, old(inputText));
        accepted <==> !IsBlank(userMessage) && !old(pending) && !old(gameState).gameOver && !old(gameState).gameWon
      ensures !accepted ==>
        && messages == old(messages) && turnNumber == old(turnNumber) && gameState == old(gameState)
        && inputText == old(inputText) && pending == old(pending) && pendingTurn == old(pendingTurn)
        && pendingMessage == old(pendingMessage) && pendingLevel == old(pendingLevel)
        && pendingContext == old(pendingContext)
      ensures accepted ==>
        var userMessage := OrElse(forcedText, old(inputText));
        && inputText == "" && turnNumber == old(turnNumber) + 1
        && messages == old(messages) + [ChatMessage(User, userMessage)]
        && gameState == old(gameState) && pending
        && pendingTurn == turnNumber && pendingMessage == userMessage
        && pendingLevel == CurrentLevel(progression.levels, levelId) && pendingContext == ui
        && history == messages && turn == turnNumber
      ensures old(Valid()) ==> Valid()
    {
      var userMessage := OrElse(forcedText, inputText);
      if IsBlank(userMessage) || pending || gameState.gameOver || gameState.gameWon {
        return false, messages, turnNumber;
      }
      inputText := "";
      var currentTurn := turnNumber + 1;
      turnNumber := currentTurn;
      var newMessages := messages + [ChatMessage(User, userMessage)];
      UserCountAppend(messages, ChatMessage(User, userMessage));
      messages := newMessages;
      pending := true;
      pendingTurn := currentTurn;
      pendingMessage := userMessage;
      pendingLevel := CurrentLevel(progression.levels, levelId);
      pendingContext := ui;
      return true, newMessages, currentTurn;
    }

    /** The transition callback. A decision replaces the game state as it
        is; its non-empty reply is appended; a win completes the level with
        the progression hook and announces it, a defeat is announced. An
        error only shows the generic notice: the turn already counted and
        the player's message stays. */
    method Resolve(decision: Result<GameState, string>)
      requires pending
      modifies this, progression, snackbar
      ensures !pending && turnNumber == old(turnNumber) && inputText == old(inputText)
      ensures pendingTurn == old(pendingTurn) && pendingMessage == old(pendingMessage)
      ensures pendingLevel == old(pendingLevel) && pendingContext == old(pendingContext)
      ensures decision.Err? ==> gameState == old(gameState) && messages == old(messages)
      ensures decision.Ok? ==> gameState == decision.value
      ensures decision.Ok? ==> (messages == old(messages) +
        (if decision.value.characterReply != "" then [ChatMessage(Assistant, decision.value.characterReply)] else []))
      // the progression changes only on a win, for the level the send was made on
      ensures var completes := decision.Ok? && decision.value.gameWon && pendingLevel.Some? && pendingLevel.value.id != "";
        && progression.levels == (if completes then StoryProgression.HookComplete(old(progression.levels), pendingLevel.value.id)
                                  else old(progression.levels))
        && progression.isLoading == old(progression.isLoading)
        && progression.storage == (if progression.levels == old(progression.levels) then old(progression.storage)
                                   else StoryProgression.Parsed(progression.levels))
      // what the snackbar says
      ensures var character := Character(pendingLevel);
        snackbar.state == (
          if decision.Err? then Snackbar.SnackbarState(true, FailureNotice(pendingContext), Snackbar.Error)
          else if decision.value.gameWon then Snackbar.SnackbarState(true, VictoryNotice(pendingContext, character), Snackbar.Success)
          else if decision.value.gameOver then Snackbar.SnackbarState(true, DefeatNotice(pendingContext, character), Snackbar.Error)
          else old(snackbar.state))
      ensures snackbar.timersRunning ==
        old(snackbar.timersRunning) + (if decision.Ok? && !decision.value.gameWon && !decision.value.gameOver then 0 else 1)
      ensures old(Valid()) ==> Valid()
    {
      var character := Character(pendingLevel);
      match decision {
        case Ok(data) =>
          gameState := data;
          if data.characterReply != "" {
            UserCountAppend(messages, ChatMessage(Assistant, data.characterReply));
            messages := messages + [ChatMessage(Assistant, data.characterReply)];
          } else {
            assert messages + [] == messages;
          }
          if data.gameWon {
            if pendingLevel.Some? && pendingLevel.value.id != "" {
              progression.CompleteLevel(pendingLevel.value.id);
            }
            snackbar.Show(VictoryNotice(pendingContext, character), Snackbar.Success);
          } else if data.gameOver {
            snackbar.Show(DefeatNotice(pendingContext, character), Snackbar.Error);
          }
        case Err(_) =>
          snackbar.Show(FailureNotice(pendingContext), Snackbar.Error);
      }
      pending := false;
    }
  }

  /** One whole turn: the send, the server action on what it returns, and
      the callback on the action's outcome. */
  method TakeTurn(page: GamePage, forcedText: Option<string>, ui: ContextValue, signedIn: bool,
                  apiKey: Option<string>, reply: GameActions.ApiReply) returns (accepted: bool)
    requires page.Valid() && !page.pending
    modifies page, page.progression, page.snackbar
    ensures page.Valid() && !page.pending
    ensures !accepted ==> page.turnNumber == old(page.turnNumber) && page.gameState == old(page.gameState)
    ensures accepted ==> page.turnNumber == old(page.turnNumber) + 1 && page.inputText == ""
    // a decision is taken over verbatim; any failure keeps the old state but not the old turn count
    ensures accepted ==>
      var call := GameActions.PlayTurn(signedIn, apiKey, old(page.messages) + [ChatMessage(User, OrElse(forcedText, old(page.inputText)))],
                                       ui.language, old(page.turnNumber) + 1, reply);
      page.gameState == (if call.result.Ok? then call.result.value else old(page.gameState))
  {
    var history, turn;
    accepted, history, turn := page.Send(forcedText, ui);
    if accepted {
      var call := GameActions.PlayTurn(signedIn, apiKey, history, ui.language, turn, reply);
      page.Resolve(call.result);
    }
  }
}
