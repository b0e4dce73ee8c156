/** The game server actions (src/features/game/actions/game-actions.ts): the
    turn-phase marker added to the system prompt, the guards and error paths
    of `playTurn`, and the legacy `submitGameMove`. The authentication
    service, the environment and the language-model call are parameters; the
    prompt texts are not modelled. */
module GameActions {
  import opened Prelude
  import opened GameTypes
  import opened Language

  /** The turn limit and the starting departure risk of the game rules. */
  const MaxTurns: int := 10
  const InitialDepartureRisk: int := 50

  const InitialSuggestions: seq<string> := [
    "Qu'est ce qui ne va pas ?", "Lui rappeler Harry et Ron",
    "Lui offrir une écoute attentive", "Bloquer le passage"]

  const InitialGameState: GameState :=
    GameState("", "sad", InitialDepartureRisk, false, false, Some(InitialSuggestions))

  /** The legacy action ignores both its arguments and answers the initial
      state: sad, risk 50, neither over nor won, four suggestions. */
  function SubmitGameMove(previous: GameState, formData: seq<(string, string)>): (r: GameState)
    ensures r.characterReply == "" && r.mood == "sad"
    ensures r.departureRisk == InitialDepartureRisk == 50
    ensures !r.gameOver && !r.gameWon
    ensures r.suggestedActions.Some? && |r.suggestedActions.value| == 4
  {
    InitialGameState
  }

  lemma SubmitGameMoveIgnoresItsArguments(a: GameState, b: GameState,
                                         fa: seq<(string, string)>, fb: seq<(string, string)>)
    ensures SubmitGameMove(a, fa) == SubmitGameMove(b, fb)
  {
  }

  /** The phase of a turn, as the marker appended to the system prompt names
      it: the mandatory finale, the escalation with the turns left, or the
      plain turn counter. */
  datatype TurnPhase = Finale | Escalation(turnsLeft: int) | Plain(turn: int)

  /** `turnInfo`, identical in both languages. */
  function TurnInfo(turnNumber: int): (p: TurnPhase)
    ensures p.Finale? <==> turnNumber >= MaxTurns
    ensures p.Escalation? <==> 8 <= turnNumber < MaxTurns
    ensures p.Plain? <==> turnNumber < 8
    ensures p.Escalation? ==> p.turnsLeft == MaxTurns - turnNumber && 1 <= p.turnsLeft <= 2
    ensures p.Plain? ==> p.turn == turnNumber
  {
    if turnNumber >= 10 then Finale
    else if turnNumber >= 8 then Escalation(10 - turnNumber)
    else Plain(turnNumber)
  }

  function PhaseRank(p: TurnPhase): nat {
    match p
    case Plain(_) => 0
    case Escalation(_) => 1
    case Finale => 2
  }

  /** The phase depends only on the turn counter and only moves forward: a
      later turn is never in an earlier phase. */
  lemma PhaseIsMonotone(a: int, b: int)
    requires a <= b
    ensures PhaseRank(TurnInfo(a)) <= PhaseRank(TurnInfo(b))
  {
  }

  datatype FinaleVerdict = Leaves | Stays

  /** What the finale instruction asks the model to conclude from the risk:
      strictly above 50 it leaves (game over), otherwise it stays (won). */
  function FinaleInstruction(departureRisk: int): (v: FinaleVerdict)
    ensures v == Leaves <==> departureRisk > 50
    ensures v == Stays <==> departureRisk <= 50
  {
    if departureRisk > 50 then Leaves else Stays
  }

  /** A decision that does what the finale instruction asks. */
  predicate FollowsFinale(s: GameState) {
    match FinaleInstruction(s.departureRisk)
    case Leaves => s.gameOver && !s.gameWon
    case Stays => s.gameWon && !s.gameOver
  }

  /** The request sent to the language model: the system prompt (known here
      by its language and turn phase) followed by the whole history. */
  datatype TurnRequest = TurnRequest(lang: Lang, phase: TurnPhase, history: seq<ChatMessage>)

  /** What the model call gave: the call failed, or a response whose first
      choice has some content, together with what `JSON.parse` made of that
      content (`None` when parsing throws). */
  datatype ApiReply = ApiFailed | Replied(content: Option<string>, parsed: Option<GameState>)

  /** The outcome of `playTurn`: the request it sent, if any, and the state
      it resolved with or the message of the error it threw. */
  datatype TurnCall = TurnCall(request: Option<TurnRequest>, result: Result<GameState, string>)

  const GenericError: string := "Erreur magique lors de la communication avec Hermione."

  function PlayTurn(signedIn: bool, apiKey: Option<string>, history: seq<ChatMessage>,
                    lang: Lang, turnNumber: int, reply: ApiReply): (r: TurnCall)
    // authentication is checked first, before the key and before any request
    ensures !signedIn ==> r == TurnCall(None, Err("Unauthorized"))
    // a missing or empty key is the next error, still with no request
    ensures signedIn && (apiKey.None? || apiKey.value == "") ==>
      r == TurnCall(None, Err("OpenAI API key not configured"))
    // otherwise the request carries the phase of this turn and the whole history
    ensures r.request.Some? <==> signedIn && apiKey.Some? && apiKey.value != ""
    ensures r.request.Some? ==> r.request.value == TurnRequest(lang, TurnInfo(turnNumber), history)
    // every failure of the call itself collapses into one generic message
    ensures r.request.Some? && r.result.Err? ==> r.result.error == GenericError
    ensures r.request.Some? ==>
      (r.result.Ok? <==> reply.Replied? && OrElse(reply.content, "") != "" && reply.parsed.Some?)
    // and a success is the parsed decision, verbatim
    ensures r.request.Some? && r.result.Ok? ==> r.result.value == reply.parsed.value
  {
    if !signedIn then TurnCall(None, Err("Unauthorized"))
    else if apiKey.None? || apiKey.value == "" then TurnCall(None, Err("OpenAI API key not configured"))
    else
      var request := TurnRequest(lang, TurnInfo(turnNumber), history);
      var result :=
        match reply
        case ApiFailed => Err(GenericError)
        case Replied(content, parsed) =>
          if content.None? || content.value == "" then Err(GenericError)
          else if parsed.None? then Err(GenericError)
          else Ok(parsed.value);
      TurnCall(Some(request), result)
  }

  /** The decision is not checked: a risk outside 0..100, both flags at once,
      or a finale answer that ignores the finale instruction all come back
      from `playTurn` unchanged. */
  lemma PlayTurnDoesNotClampOrEnforce(history: seq<ChatMessage>, lang: Lang)
    ensures var wild := GameState("", "furious", 250, true, true, None);
      && !FollowsFinale(wild)
      && PlayTurn(true, Some("key"), history, lang, 10, Replied(Some("{}"), Some(wild))).result == Ok(wild)
  {
  }
}
