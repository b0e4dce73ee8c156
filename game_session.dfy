/** The game-session hook (src/shared/hooks/useGameSession.ts): once the
    database has opened a session, every saved message is counted and the
    last departure risk it carried is remembered; ending the session writes
    the outcome, that risk, the count and the duration, and unlocks the
    achievements they earn. The database calls are recorded as sequences of
    what was sent, and the clock is the `now` each handler is given. */
module GameSession {
  import opened Prelude
  import opened GameTypes
  import opened Language

  datatype Outcome = Won | Lost | Abandoned

  /** An achievement with the metadata sent along with it. */
  datatype Achievement =
    | FirstWin
    | SpeedRunner(duration: int, level: string)
    | ComebackKid(maxRisk: int, level: string)
    | Wordsmith

  /** One call to `saveConversationMessage`. */
  datatype SavedMessage = SavedMessage(sessionId: string, levelId: string, message: ChatMessage,
                                       mood: Option<string>, departureRisk: Option<int>)

  /** One call to `savePlayerChoice`. */
  datatype SavedChoice = SavedChoice(sessionId: string, levelId: string, choiceText: string, wasSuggested: bool,
                                     responseMood: Option<string>, riskChange: Option<int>)

  /** One call to `updateGameSession`. */
  datatype SessionUpdate = SessionUpdate(sessionId: string, outcome: Outcome, finalRisk: int,
                                         messageCount: int, durationSeconds: int)

  /** The risk remembered before any message carries one. */
  const InitialRisk: int := 50
  /** A won session shorter than this many seconds is a speed run. */
  const SpeedRunSeconds: int := 300
  /** A win after a last risk of at least this much is a comeback. */
  const ComebackRisk: int := 80
  /** This many messages make a wordsmith, whatever the outcome. */
  const WordsmithMessages: int := 100

  /** `Math.floor((now - start) / 1000)`; Dafny's division by a positive
      number already rounds down, also for a negative difference. */
  function DurationSeconds(now: int, start: int): (d: int)
    ensures d * 1000 <= now - start < d * 1000 + 1000
  {
    (now - start) / 1000
  }

  /** The achievements an ended session unlocks, in the order they are
      checked. */
  function Achievements(checkAchievements: bool, outcome: Outcome, durationSeconds: int,
                        lastRisk: int, messageCount: int, levelId: string): (r: seq<Achievement>)
    ensures !checkAchievements ==> r == []
    ensures |r| <= 4
    ensures forall a | a in r :: a == Wordsmith || outcome == Won
  {
    if !checkAchievements then []
    else
      (if outcome == Won then [FirstWin] else [])
      + (if outcome == Won && durationSeconds < SpeedRunSeconds then [SpeedRunner(durationSeconds, levelId)] else [])
      + (if outcome == Won && lastRisk >= ComebackRisk then [ComebackKid(lastRisk, levelId)] else [])
      + (if messageCount >= WordsmithMessages then [Wordsmith] else [])
  }

  /** Each achievement is unlocked exactly when its rule holds, and none when
      the checks are off. */
  lemma AchievementRules(check: bool, outcome: Outcome, duration: int, risk: int, count: int, level: string)
    ensures var a := Achievements(check, outcome, duration, risk, count, level);
      && (!check ==> a == [])
      && (FirstWin in a <==> check && outcome == Won)
      && (SpeedRunner(duration, level) in a <==> check && outcome == Won && duration < 300)
      && (ComebackKid(risk, level) in a <==> check && outcome == Won && risk >= 80)
      && (Wordsmith in a <==> check && count >= 100)
      && (forall x | x in a :: x in [FirstWin, SpeedRunner(duration, level), ComebackKid(risk, level), Wordsmith])
      && |a| <= 4
  {
    var w := if outcome == Won then [FirstWin] else [];
    var s := if outcome == Won && duration < 300 then [SpeedRunner(duration, level)] else [];
    var c := if outcome == Won && risk >= 80 then [ComebackKid(risk, level)] else [];
    var m := if count >= 100 then [Wordsmith] else [];
    if check {
      assert Achievements(check, outcome, duration, risk, count, level) == w + s + c + m;
      assert forall x :: x in w + s + c + m <==> x in w || x in s || x in c || x in m;
    }
  }

  /** A lost or abandoned session can only earn the wordsmith badge. */
  lemma OnlyWinsEarnRewards(check: bool, outcome: Outcome, duration: int, risk: int, count: int, level: string)
    requires outcome != Won
    ensures Achievements(check, outcome, duration, risk, count, level)
            == if check && count >= 100 then [Wordsmith] else []
  {
  }

  /** What `createGameSession` (conversation-actions.ts, outside this model)
      settles to: the inserted `game_sessions` row, which has an `id` and no
      `success` or `sessionId` field; `null` when the insert fails; or a
      rejection when nobody is signed in. */
  datatype CreateSessionReply = InsertedRow(id: string) | NullRow | Unauthorized

  /** `const { sessionId, success } = await createGameSession(...)`: `None`
      when the await or the destructuring throws, which a rejection and
      `null` do; on a row both fields read as undefined. */
  function DestructuredAsWritten(reply: CreateSessionReply): (r: Option<(bool, Option<string>)>)
    ensures r.None? <==> !reply.InsertedRow?
    ensures r.Some? ==> !r.value.0 && r.value.1.None?
  {
    match reply
    case InsertedRow(_) => Some((false, None))
    case _ => None
  }

  class GameSessionHook {
    const levelId: string
    const language: Lang
    const autoSave: bool
    const checkAchievements: bool

    var sessionId: Option<string>
    var isInitialized: bool
    var messageCount: nat
    var startTime: int
    var lastDepartureRisk: int
    /** The displayed duration and whether its one-second interval runs. */
    var duration: int
    var durationTimerRunning: bool

    /** What was sent to the database, oldest first. */
    var savedMessages: seq<SavedMessage>
    var savedChoices: seq<SavedChoice>
    var updates: seq<SessionUpdate>
    var unlocked: seq<Achievement>

    /** A session id, once there is one, is never empty. */
    predicate Valid()
      reads this
    {
      (sessionId.Some? ==> sessionId.value != "" && isInitialized)
    }

    /** The hook's options, `autoSave` and `checkAchievements` defaulting to
        true at the call site; no session yet and a remembered risk of 50. */
    constructor(levelId: string, language: Lang, autoSave: bool, checkAchievements: bool)
      ensures this.levelId == levelId && this.language == language
      ensures this.autoSave == autoSave && this.checkAchievements == checkAchievements
      ensures sessionId == None && !isInitialized && messageCount == 0 && startTime == 0
      ensures lastDepartureRisk == InitialRisk && duration == 0 && !durationTimerRunning
      ensures savedMessages == [] && savedChoices == [] && updates == [] && unlocked == []
      ensures Valid()
    {
      this.levelId := levelId;
      this.language := language;
      this.autoSave := autoSave;
      this.checkAchievements := checkAchievements;
      sessionId := None;
      isInitialized := false;
      messageCount := 0;
      startTime := 0;
      lastDepartureRisk := InitialRisk;
      duration := 0;
      durationTimerRunning := false;
      savedMessages := [];
      savedChoices := [];
      updates := [];
      unlocked := [];
    }

    /** `createGameSession` answered at time `now`: only a success with a
        non-empty id opens the session and starts the clock. */
    method SessionCreated(success: bool, newSessionId: Option<string>, now: int)
      requires Valid()
      modifies this
      ensures if success && newSessionId.Some? && newSessionId.value != "" then
                sessionId == newSessionId && isInitialized && startTime == now
              else
                sessionId == old(sessionId) && isInitialized == old(isInitialized) && startTime == old(startTime)
      ensures messageCount == old(messageCount) && lastDepartureRisk == old(lastDepartureRisk)
      ensures duration == old(duration) && durationTimerRunning == old(durationTimerRunning)
      ensures savedMessages == old(savedMessages) && savedChoices == old(savedChoices)
      ensures updates == old(updates) && unlocked == old(unlocked)
      ensures Valid()
    {
      if success && newSessionId.Some? && newSessionId.value != "" {
        sessionId := newSessionId;
        isInitialized := true;
        startTime := now;
      }
    }

    /** The mount effect `initSession` as written: it reads `success` and
        `sessionId` off the reply, which no reply of `createGameSession`
        carries, so whatever the reply the session stays closed. */
    method InitSession(reply: CreateSessionReply, now: int)
      requires Valid()
      modifies this
      ensures sessionId == old(sessionId) && isInitialized == old(isInitialized) && startTime == old(startTime)
      ensures messageCount == old(messageCount) && lastDepartureRisk == old(lastDepartureRisk)
      ensures duration == old(duration) && durationTimerRunning == old(durationTimerRunning)
      ensures savedMessages == old(savedMessages) && savedChoices == old(savedChoices)
      ensures updates == old(updates) && unlocked == old(unlocked)
      ensures Valid()
    {
      var fields := DestructuredAsWritten(reply);
      if fields.Some? {
        SessionCreated(fields.value.0, fields.value.1, now);
      }
    }

    /** The mount effect as evidently intended: the session is the inserted
        row, opened when its id is not empty. */
    method InitSessionFromRow(reply: CreateSessionReply, now: int)
      requires Valid()
      modifies this
      ensures if reply.InsertedRow? && reply.id != "" then
                sessionId == Some(reply.id) && isInitialized && startTime == now
              else
                sessionId == old(sessionId) && isInitialized == old(isInitialized) && startTime == old(startTime)
      ensures messageCount == old(messageCount) && lastDepartureRisk == old(lastDepartureRisk)
      ensures duration == old(duration) && durationTimerRunning == old(durationTimerRunning)
      ensures savedMessages == old(savedMessages) && savedChoices == old(savedChoices)
      ensures updates == old(updates) && unlocked == old(unlocked)
      ensures Valid()
    {
      if reply.InsertedRow? {
        SessionCreated(true, Some(reply.id), now);
      }
    }

    /** `saveMessage`: nothing without a session or with saving off;
        otherwise the message is written, counted once, and its risk, when
        it has one, becomes the remembered risk. */
    method SaveMessage(message: ChatMessage, mood: Option<string>, departureRisk: Option<int>)
      requires Valid()
      modifies this
      ensures if old(sessionId).None? || !autoSave then
                messageCount == old(messageCount) && lastDepartureRisk == old(lastDepartureRisk)
                && savedMessages == old(savedMessages)
              else
                messageCount == old(messageCount) + 1
                && lastDepartureRisk == departureRisk.GetOr(old(lastDepartureRisk))
                && savedMessages == old(savedMessages)
                                    + [SavedMessage(old(sessionId).value, levelId, message, mood, departureRisk)]
      ensures sessionId == old(sessionId) && isInitialized == old(isInitialized) && startTime == old(startTime)
      ensures duration == old(duration) && durationTimerRunning == old(durationTimerRunning)
      ensures savedChoices == old(savedChoices) && updates == old(updates) && unlocked == old(unlocked)
      ensures Valid()
    {
      if sessionId.None? || !autoSave {
        return;
      }
      savedMessages := savedMessages + [SavedMessage(sessionId.value, levelId, message, mood, departureRisk)];
      messageCount := messageCount + 1;
      if departureRisk.Some? {
        lastDepartureRisk := departureRisk.value;
      }
    }

    /** `recordChoice`: written only when there is a session. */
    method RecordChoice(choiceText: string, wasSuggested: bool, responseMood: Option<string>, riskChange: Option<int>)
      requires Valid()
      modifies this
      ensures savedChoices == if old(sessionId).None? then old(savedChoices)
              else old(savedChoices) + [SavedChoice(old(sessionId).value, levelId, choiceText, wasSuggested,
                                                    responseMood, riskChange)]
      ensures sessionId == old(sessionId) && isInitialized == old(isInitialized) && startTime == old(startTime)
      ensures messageCount == old(messageCount) && lastDepartureRisk == old(lastDepartureRisk)
      ensures duration == old(duration) && durationTimerRunning == old(durationTimerRunning)
      ensures savedMessages == old(savedMessages) && updates == old(updates) && unlocked == old(unlocked)
      ensures Valid()
    {
      if sessionId.Some? {
        savedChoices := savedChoices + [SavedChoice(sessionId.value, levelId, choiceText, wasSuggested,
                                                    responseMood, riskChange)];
      }
    }

    /** `endSession(outcome)` at time `now`: nothing without a session;
        otherwise the session row gets the outcome, the last risk, the count
        and the whole seconds since the start, then the earned achievements
        are unlocked. The session stays open. */
    method EndSession(outcome: Outcome, now: int)
      requires Valid()
      modifies this
      ensures old(sessionId).None? ==> updates == old(updates) && unlocked == old(unlocked)
      ensures old(sessionId).Some? ==>
                var d := DurationSeconds(now, startTime);
                && updates == old(updates) + [SessionUpdate(old(sessionId).value, outcome, lastDepartureRisk, messageCount, d)]
                && unlocked == old(unlocked)
                               + Achievements(checkAchievements, outcome, d, lastDepartureRisk, messageCount, levelId)
      ensures sessionId == old(sessionId) && isInitialized == old(isInitialized) && startTime == old(startTime)
      ensures messageCount == old(messageCount) && lastDepartureRisk == old(lastDepartureRisk)
      ensures duration == old(duration) && durationTimerRunning == old(durationTimerRunning)
      ensures savedMessages == old(savedMessages) && savedChoices == old(savedChoices)
      ensures Valid()
    {
      if sessionId.None? {
        return;
      }
      var d := DurationSeconds(now, startTime);
      updates := updates + [SessionUpdate(sessionId.value, outcome, lastDepartureRisk, messageCount, d)];
      if checkAchievements {
        if outcome == Won {
          unlocked := unlocked + [FirstWin];
        }
        if outcome == Won && d < SpeedRunSeconds {
          unlocked := unlocked + [SpeedRunner(d, levelId)];
        }
        if outcome == Won && lastDepartureRisk >= ComebackRisk {
          unlocked := unlocked + [ComebackKid(lastDepartureRisk, levelId)];
        }
        if messageCount >= WordsmithMessages {
          unlocked := unlocked + [Wordsmith];
        }
      }
    }

    /** `abandonSession`, which the page-unload handler also calls. */
    method AbandonSession(now: int)
      requires Valid()
      modifies this
      ensures old(sessionId).None? ==> updates == old(updates) && unlocked == old(unlocked)
      ensures old(sessionId).Some? ==>
                var d := DurationSeconds(now, startTime);
                && updates == old(updates) + [SessionUpdate(old(sessionId).value, Abandoned, lastDepartureRisk, messageCount, d)]
                && unlocked == old(unlocked)
                               + Achievements(checkAchievements, Abandoned, d, lastDepartureRisk, messageCount, levelId)
      ensures sessionId == old(sessionId) && isInitialized == old(isInitialized) && startTime == old(startTime)
      ensures messageCount == old(messageCount) && lastDepartureRisk == old(lastDepartureRisk)
      ensures duration == old(duration) && durationTimerRunning == old(durationTimerRunning)
      ensures savedMessages == old(savedMessages) && savedChoices == old(savedChoices)
      ensures Valid()
    {
      EndSession(Abandoned, now);
    }

    /** The effect that starts the one-second duration interval: it returns
        early while the start time is still 0. */
    method DurationEffect()
      modifies this
      ensures durationTimerRunning == (old(durationTimerRunning) || startTime != 0)
      ensures sessionId == old(sessionId) && isInitialized == old(isInitialized) && startTime == old(startTime)
      ensures messageCount == old(messageCount) && lastDepartureRisk == old(lastDepartureRisk)
      ensures duration == old(duration)
      ensures savedMessages == old(savedMessages) && savedChoices == old(savedChoices)
      ensures updates == old(updates) && unlocked == old(unlocked)
    {
      if startTime != 0 {
        durationTimerRunning := true;
      }
    }

    /** One firing of the duration interval at time `now`. */
    method DurationTick(now: int)
      requires durationTimerRunning
      modifies this
      ensures duration == DurationSeconds(now, startTime)
      ensures sessionId == old(sessionId) && isInitialized == old(isInitialized) && startTime == old(startTime)
      ensures messageCount == old(messageCount) && lastDepartureRisk == old(lastDepartureRisk)
      ensures durationTimerRunning
      ensures savedMessages == old(savedMessages) && savedChoices == old(savedChoices)
      ensures updates == old(updates) && unlocked == old(unlocked)
    {
      duration := DurationSeconds(now, startTime);
    }
  }

  /** As written, the duration effect runs once, on mount, before the
      session exists: its interval never starts, so `duration` stays 0 for
      the whole game even after the session opens. */
  method DurationAsWritten(levelId: string, sessionAt: int) returns (running: bool, duration: int)
    requires sessionAt != 0
    ensures !running && duration == 0
  {
    var hook := new GameSessionHook(levelId, Fr, true, true);
    hook.DurationEffect();
    hook.SessionCreated(true, Some("session-1"), sessionAt);
    running, duration := hook.durationTimerRunning, hook.duration;
  }

  /** The evidently intended behaviour: the effect runs again once the
      session has opened (depending on the start time), so the interval
      starts and the duration counts the seconds since the session began. */
  method DurationRerunAfterOpen(levelId: string, sessionAt: int, later: int) returns (running: bool, duration: int)
    requires sessionAt != 0 && later >= sessionAt
    ensures running && duration == (later - sessionAt) / 1000 && duration >= 0
  {
    var hook := new GameSessionHook(levelId, Fr, true, true);
    hook.DurationEffect();
    hook.SessionCreated(true, Some("session-1"), sessionAt);
    hook.DurationEffect();
    hook.DurationTick(later);
    running, duration := hook.durationTimerRunning, hook.duration;
  }

  /** A save before the session opens is neither counted nor remembered;
      once it is open each save counts once, and a save without a risk keeps
      the last one. */
  method SavesCountOnlyInASession(message: ChatMessage) returns (counted: nat, risk: int, uncounted: nat, riskBefore: int)
    ensures counted == 2 && risk == 90
    ensures uncounted == 0 && riskBefore == 50
  {
    var hook := new GameSessionHook("level-hermione-1", En, true, true);
    hook.SaveMessage(message, None, Some(10));
    uncounted, riskBefore := hook.messageCount, hook.lastDepartureRisk;
    hook.SessionCreated(true, Some("s"), 1000);
    hook.SaveMessage(message, Some("happy"), Some(90));
    hook.SaveMessage(message, None, None);
    counted, risk := hook.messageCount, hook.lastDepartureRisk;
  }

  /** As written, the session never opens, whatever `createGameSession`
      settles to: a later save is not counted and a win unlocks nothing. */
  method SessionNeverOpensAsWritten(levelId: string, reply: CreateSessionReply, now: int, message: ChatMessage)
    returns (isOpen: bool, counted: nat, earned: seq<Achievement>)
    ensures !isOpen && counted == 0 && earned == []
  {
    var hook := new GameSessionHook(levelId, Fr, true, true);
    hook.InitSession(reply, now);
    hook.SaveMessage(message, None, None);
    hook.EndSession(Won, now);
    isOpen, counted, earned := hook.sessionId.Some?, hook.messageCount, hook.unlocked;
  }

  /** Reading the row's id instead, an inserted row with an id opens the
      session: the save is counted and the win earns its first badge. */
  method SessionOpensWithRowId(levelId: string, id: string, now: int, message: ChatMessage)
    returns (isOpen: bool, counted: nat, firstWin: bool)
    ensures isOpen <==> id != ""
    ensures counted == if id != "" then 1 else 0
    ensures firstWin <==> id != ""
  {
    var hook := new GameSessionHook(levelId, Fr, true, true);
    hook.InitSessionFromRow(InsertedRow(id), now);
    hook.SaveMessage(message, None, None);
    hook.EndSession(Won, now);
    AchievementRules(true, Won, DurationSeconds(now, hook.startTime), hook.lastDepartureRisk, hook.messageCount, levelId);
    isOpen, counted, firstWin := hook.sessionId.Some?, hook.messageCount, FirstWin in hook.unlocked;
  }
}
