# Le Grimoire Éveillé — a Dafny model of the game's core

The system is a role-play chat game set at Hogwarts, built with Next.js. The
player talks with a character such as Hermione or Hagrid through a series of
story levels. A language model decides each turn: it gives the character's
reply, its mood, a "departure risk" and whether the game is won or lost. A win
completes the level and unlocks the next one.

This project models the game's logic in Dafny and proves properties of it. It
has one module per core source file:

- **Level progression.**
  - `GameTypes` and `LevelData` hold the level records and the two built-in levels.
  - `ProgressionHelpers` holds the shared helpers for validating, completing, the percentage and the current level.
  - `ProgressionActions` holds the server actions that merge the level table with the player's completions and record a completion.
  - `StoryProgression` is the client hook that loads, caches, completes and resets the progression.
- **The turn loop.**
  - `GameActions` holds the server action that asks the model for a decision. It covers the authentication and key checks, the turn phase with its finale at turn 10, and the error collapse.
  - `GamePage` holds the game page: the level and character it shows, its starting conversation, and `handleSendMessage`. That handler is split into its synchronous part and its transition callback.
  - `GameOverOverlay` holds the end-of-game overlay.
  - `GameSession` holds the session hook: its saves, choices, end and abandon, its duration, and the achievements it unlocks.
- **The spell challenge.**
  - `ChallengeConfig` holds the six challenge configurations.
  - `SpellChallenge` is the tracing hook: the ring test, the speed limit, the checkpoints in order, the lives and the countdown.
- **Scenes, prompts and music.**
  - `ImageGeneration` holds the scene catalogue and the location suggestions.
  - `SceneActions` holds the normalisation of scene names into image keys.
  - `CharacterPrompts` chooses a character's prompt.
  - `BackgroundMusic` holds the track choice, the volume clamp, the fades and the audio element.
- **Interface state.**
  - `Language` holds the French and English dictionaries and `t`.
  - `Theme` is the Lumos and Nox theme.
  - `AnimationPrefs` holds the animation preferences.
  - `Sidebar`, `Snackbar` and `SceneTransition` are small hooks.
  - `Typewriter` is the typewriter effect.
- **The level schema.** `LevelSchema` models the schema that validates a new level.

`Prelude` holds `Option` and `Result` and the string helpers: lower-casing, substring test, first word and character replacement.

The model takes the source's own form:

- **Pure code becomes functions.** The TypeScript functions that only compute become Dafny functions and lemmas.
- **State becomes classes.** React state and refs become fields of a class per hook or component.
- **Effects, callbacks and timers become methods.** A timer that fires, such as a tick, an auto-hide or the end of a transition, is a method the caller invokes.
- **Outside results are parameters.** The result of a database query, of the authentication, of the language model and of the browser's storage is passed in. Browser storage is `localStorage`.

## Model

| member | source | states |
|---|---|---|
| GameTypes.WithStatus | src/features/game/utils/progression-helpers.ts:55-58 | The copy `{...level, status}` at one index changes that level's status and nothing else in the list. |
| GameTypes.FindIndex | src/features/game/utils/progression-helpers.ts:45 | `findIndex` gives the first index holding the id, or -1 exactly when no level has it. |
| GameTypes.FindIndexSameIds | src/features/game/utils/progression-helpers.ts:45 | Changing statuses never changes where an id is found. |
| GameTypes.CompletedCount | src/features/game/utils/progression-helpers.ts:77 | The number of completed levels is at most the length. It equals the length iff every level is completed, and is 0 iff none is. |
| GameTypes.FirstUnlocked | src/features/game/utils/progression-helpers.ts:85 | `find(unlocked)` is absent iff no level is unlocked; otherwise it is an unlocked level whose predecessors are all not unlocked. |
| LevelData.InitialStoryLevelsShape | src/features/game/data.ts:3-32 | The built-in list is Hermione's level then Hagrid's, with orders 1 and 2 and distinct ids. The first is playable and the second locked, with initial moods sad and nervous. |
| ProgressionHelpers.ValidateLevels | src/features/game/utils/progression-helpers.ts:10-14 | A list is valid iff it contains both canonical level ids, which needs at least two levels. |
| ProgressionHelpers.DefaultLevelsAreValid | src/features/game/utils/progression-helpers.ts:10-14 | The built-in list passes its own validation. |
| ProgressionHelpers.UpdateLevelCompletion | src/features/game/utils/progression-helpers.ts:41-71 | Ids, titles and other fields are kept and only statuses change. An unknown or already completed level leaves the list unchanged. Otherwise exactly that level becomes completed and its successor goes from locked to unlocked. No status ever moves down. |
| ProgressionHelpers.UpdateLevelCompletionIdempotent | src/features/game/utils/progression-helpers.ts:50-53 | Completing the same level twice equals completing it once. |
| ProgressionHelpers.CompletingCurrentKeepsLinear | src/features/game/utils/progression-helpers.ts:55-68 | On a well-formed progression, completing the playable level gives a well-formed progression one level further. Well-formed means the first k levels are completed, the next one is unlocked and the rest are locked. |
| ProgressionHelpers.CompletingLockedLevelBreaksLinear | src/features/game/utils/progression-helpers.ts:45-70 | The helper does not check that the target is playable: completing the locked Hagrid level of the default list leaves no well-formed shape. |
| ProgressionHelpers.ThreeLevelScenario | src/features/game/utils/progression-helpers.ts:55-68 | [unlocked, locked, locked] becomes [completed, unlocked, locked]. |
| ProgressionHelpers.CalculateProgress | src/features/game/utils/progression-helpers.ts:76-79 | The result is NaN iff the list is empty. Otherwise it lies in 0..100 and is the completed fraction times 100, rounded to the nearest integer with halves going up. |
| ProgressionHelpers.RoundBounds | src/features/game/utils/progression-helpers.ts:78 | The integer formula for `Math.round(c / n * 100)` is within half a unit of the exact percentage and lies in 0..100. |
| ProgressionHelpers.FindCurrentLevel | src/features/game/utils/progression-helpers.ts:84-86 | The current level is the first unlocked level of the list, as `find` returns it. It is absent iff none is unlocked: there is no fallback. |
| StoryProgression.ChooseLevels | src/features/game/hooks/useStoryProgression.ts:85-137 | A non-empty database list wins. An empty one falls back to a stored list only when that list is valid, and otherwise to the built-in levels. A thrown query also gives the built-in levels. The result is never empty. |
| StoryProgression.HookComplete | src/features/game/hooks/useStoryProgression.ts:206-229 | The hook's own completion keeps ids and other fields. An unknown or completed level changes nothing. Otherwise the level becomes completed and its successor becomes unlocked whatever its status was. |
| StoryProgression.HookCompleteIdempotent | src/features/game/hooks/useStoryProgression.ts:207-211 | Completing twice equals completing once. |
| StoryProgression.HookAgreesWithHelperOnLinear | src/features/game/hooks/useStoryProgression.ts:206-229 | On a well-formed progression the hook's completion equals the shared helper's, for every level id. |
| StoryProgression.HookCompleteCanDemote | src/features/game/hooks/useStoryProgression.ts:217-223 | Where the successor is already completed, the hook turns it back to unlocked while the helper leaves it completed. |
| StoryProgression.CurrentLevel | src/features/game/hooks/useStoryProgression.ts:271 | The current level is the first unlocked one, or else the last level. It is absent only for an empty list. |
| StoryProgression.ProgressPercentage | src/features/game/hooks/useStoryProgression.ts:277-283 | The unrounded percentage is absent (NaN) iff the list is empty; otherwise it is completed/total times 100, within 0..100. |
| StoryProgression.Percent | src/features/game/hooks/useStoryProgression.ts:283 | `c / n * 100` lies in 0..100 and times n equals 100 c. |
| StoryProgression.FractionAtMostOne | src/features/game/hooks/useStoryProgression.ts:283 | A fraction of a non-negative part over its whole lies in 0..1. |
| StoryProgression.PercentagesDiffer | src/features/game/hooks/useStoryProgression.ts:277-283 | With one level of three completed, the hook reports 100/3 while the shared helper reports 33. |
| StoryProgression.StoryProgressionHook.constructor | src/features/game/hooks/useStoryProgression.ts:59-62 | The first render shows the built-in levels, loading, with storage as the browser had it. |
| StoryProgression.StoryProgressionHook.Mount | src/features/game/hooks/useStoryProgression.ts:84-158 | As written, the load starts and awaits, and the sync effect then writes the shown list to storage. |
| StoryProgression.StoryProgressionHook.MountDeferringSync | src/features/game/hooks/useStoryProgression.ts:156-158 | With the sync held back while loading, the mount leaves storage as it was. |
| StoryProgression.StoryProgressionHook.Load | src/features/game/hooks/useStoryProgression.ts:88-137 | The load settles on `ChooseLevels` of the query result and of what storage held, stops loading, and writes storage as each branch does. The thrown fetch and the unreadable entry leave storage alone when the list was already the built-in one. |
| StoryProgression.StoryProgressionHook.CompleteLevel | src/features/game/hooks/useStoryProgression.ts:192-230 | The list becomes the hook's completion of it and storage follows any change. The server result is ignored, and a synced hook stays synced. |
| StoryProgression.StoryProgressionHook.ResetProgress | src/features/game/hooks/useStoryProgression.ts:259-261 | The list goes back to the built-in levels, locally only, and storage follows. |
| StoryProgression.MountWithEmptyDatabase | src/features/game/hooks/useStoryProgression.ts:84-158 | As written, a mount whose database list is empty always ends on the built-in levels, whatever was stored. |
| StoryProgression.StoredProgressIsLost | src/features/game/hooks/useStoryProgression.ts:104-113 | A valid stored progression (Hermione completed, Hagrid playable) differs from what that mount shows. |
| StoryProgression.MountWithEmptyDatabaseDeferred | src/features/game/hooks/useStoryProgression.ts:104-113 | With the sync deferred, a valid stored list is what the mount shows, and anything else gives the built-in levels. |
| ProgressionActions.CompletedIds | src/features/game/actions/progression-actions.ts:38-42 | An id is in the completed set iff some progress row for it is marked completed. |
| ProgressionActions.StatusAt | src/features/game/actions/progression-actions.ts:46-56 | A level is completed iff its id is in the set. It is unlocked iff it is not completed and it is first, its predecessor's id is empty, or its predecessor is completed. |
| ProgressionActions.ToStoryLevel | src/features/game/actions/progression-actions.ts:58-65 | A row becomes a level with the row's id, title, order and content and the given status. An absent description reads as empty. |
| ProgressionActions.Merge | src/features/game/actions/progression-actions.ts:45-66 | Each row becomes a level with the same id, title, order and content, an empty description when none is given, and the status above. |
| ProgressionActions.FetchUserProgression | src/features/game/actions/progression-actions.ts:13-74 | Being signed out or a failing level query gives the empty list. A failing progress query only loses the completions. Otherwise the result is the merge of the rows with the completed ids. |
| ProgressionActions.MergeOfPrefixIsLinear | src/features/game/actions/progression-actions.ts:45-56 | When the completions are exactly the first k rows, the merge is a well-formed progression at k. |
| ProgressionActions.MergeAgreesWithUpdateAt | src/features/game/actions/progression-actions.ts:45-66 | The pointwise part of the next row, position by position. |
| ProgressionActions.MergeAgreesWithUpdate | src/features/game/actions/progression-actions.ts:45-66 | Recording the frontier level and merging again gives what the client helper computes by completing it. |
| ProgressionActions.OutOfOrderCompletionUnlocksTwo | src/features/game/actions/progression-actions.ts:50-56 | Completing the second of three levels alone makes two levels playable at once. |
| ProgressionActions.Upsert | src/features/game/actions/progression-actions.ts:81-88 | On the conflict key the existing row for the level is marked completed where it stands, and a completed row is appended only when the level has none. Every other row is kept in place, one row per level stays one row per level, and the completed set gains exactly that level. |
| ProgressionActions.UpsertIsIdempotent | src/features/game/actions/progression-actions.ts:81-88 | Recording the same completion twice is recording it once. |
| ProgressionActions.UpsertUpdatesExistingRow | src/features/game/actions/progression-actions.ts:81-88 | A level's uncompleted row is updated, not duplicated. |
| ProgressionActions.CompleteLevelAction | src/features/game/actions/progression-actions.ts:76-100 | The action fails with "Unauthorized" iff signed out. A store failure reports `success: false` and changes no rows. A success adds the level to the completed set and at most one row, and keeps one row per level. |
| ProgressionActions.CompletedThenFetched | src/features/game/actions/progression-actions.ts:76-100 | After a successful completion the next fetch shows that level completed. |
| GameActions.SubmitGameMove | src/features/game/actions/game-actions.ts:75-77 | The legacy action returns the initial state: empty reply, sad, risk 50, not over, four suggestions. |
| GameActions.SubmitGameMoveIgnoresItsArguments | src/features/game/actions/game-actions.ts:75-77 | Its result depends on neither the previous state nor the form. |
| GameActions.TurnInfo | src/features/game/actions/game-actions.ts:195-206 | Turns below 8 are plain, turns 8 and 9 warn with the 1 or 2 turns left, and turn 10 onwards is the finale. |
| GameActions.PhaseIsMonotone | src/features/game/actions/game-actions.ts:195-206 | A later turn never has an earlier phase. |
| GameActions.FinaleInstruction | src/features/game/actions/game-actions.ts:197 | The finale says the character leaves iff the risk is above 50, and stays otherwise. |
| GameActions.PlayTurn | src/features/game/actions/game-actions.ts:124-293 | Being signed out fails first and a missing or empty key fails next, both with no request. Otherwise the request carries the turn's phase and the whole history. A success is the parsed decision verbatim; any other outcome is the one generic error. |
| GameActions.PlayTurnDoesNotClampOrEnforce | src/features/game/actions/game-actions.ts:282-292 | A decision with risk 250, both flags set, that ignores the finale, is returned unchanged. |
| GameOverOverlay.CurrentIndex | src/features/game/components/GameOverOverlay.tsx:29 | The index of the current level by id, or -1. |
| GameOverOverlay.NextLevelOf | src/features/game/components/GameOverOverlay.tsx:29-32 | The next level exists iff the current one is found before the end of the list, and is the one after it. |
| GameOverOverlay.Overlay | src/features/game/components/GameOverOverlay.tsx:26-106 | The overlay is hidden iff the game goes on. Restart comes first. The next level is offered iff the game is won short of the last level, and it names that level. Home is offered on a defeat or at the last level. |
| GameOverOverlay.WinOffersNextLevel | src/features/game/components/GameOverOverlay.tsx:63-79 | After a win on a well-formed progression, once the hook has completed the level, the overlay offers exactly restart and the successor. |
| GameOverOverlay.DefeatNeverMovesOn | src/features/game/components/GameOverOverlay.tsx:95-106 | A defeat offers exactly restart and home. |
| GamePage.CurrentLevel | src/app/game/page.tsx:30 | The level with the requested id, or else the first level; it is absent only for an empty list. |
| GamePage.Character | src/app/game/page.tsx:31 | The level's non-empty character, or else Hermione; never empty. |
| GamePage.CharacterFolder | src/app/game/page.tsx:32-38 | The folder is ron, luna or hermione, for the first of these names the character contains; otherwise it is hagrid. |
| GamePage.ImageExt | src/app/game/page.tsx:41 | The extension is png iff the character mentions ron or luna, and jpg otherwise. |
| GamePage.InitialMessage | src/app/game/page.tsx:44-47 | The level's non-empty opening line, or else the translated default; never empty. |
| GamePage.InitialMood | src/app/game/page.tsx:49 | The level's non-empty opening mood, or else nervous for Hagrid and sad for anyone else. |
| GamePage.DefaultSuggestions | src/app/game/page.tsx:52-58 | Four suggestions, the server's initial ones for Hermione in French. |
| GamePage.StartingState | src/app/game/page.tsx:62-69 | An empty reply, the initial mood, risk 50, not over, and the level's suggestions or the defaults. |
| GamePage.DefeatReasonOf | src/app/game/page.tsx:201-205 | The reason is an insult iff the message mentions moldu or muggle, then the turn limit at turn 10 or later, and otherwise a normal defeat. |
| GamePage.VictoryNotice | src/app/game/page.tsx:195-196 | The victory notice begins with the translated victory title, " - " and the character's name, and ends with " !". |
| GamePage.DefeatNotice | src/app/game/page.tsx:219-220 | The defeat notice begins with the translated game-over title, " - " and the character's name, and ends with ".". |
| GamePage.FailureNotice | src/app/game/page.tsx:225 | The failure notice is the French text iff the page is in French, and it ends with "...". |
| GamePage.MoodImageName | src/app/game/page.tsx:232-248 | Sad and nervous share the sad image; angry, happy and desperate have their own; anything else is neutral. |
| GamePage.MoodImage | src/app/game/page.tsx:231-248 | The mood image is the path of that name, and it is always one of the preloaded images. |
| GamePage.UserCount | src/app/game/page.tsx:140-145 | The number of player messages is at most the number of messages. |
| GamePage.UserCountAppend | src/app/game/page.tsx:140-145 | Appending a message adds one to that number iff the message is the player's. |
| GamePage.GamePage.Overlay | src/app/game/page.tsx:372-442 | The page's overlay is hidden iff the game goes on; it is the overlay component's view of the page state. |
| GamePage.GamePage.constructor | src/app/game/page.tsx:60-100 | The page starts from the level's starting state and opening message at turn 0, with an empty box and nothing in flight. |
| GamePage.GamePage.EnterLevel | src/app/game/page.tsx:90-100 | Entering a level restarts the conversation at turn 0 and keeps the game state. |
| GamePage.GamePage.Type | src/app/game/page.tsx:466 | Typing changes only the text box. |
| GamePage.GamePage.Send | src/app/game/page.tsx:131-146 | A send is accepted iff the text is not blank, nothing is in flight and the game goes on. When accepted, the box clears, the turn counter moves on, the message is appended and what the callback needs is captured. One player message per turn is kept. |
| GamePage.GamePage.Resolve | src/app/game/page.tsx:147-227 | A decision replaces the state and its non-empty reply is appended. A win completes the captured level and announces it, and a defeat is announced. An error only shows the failure notice and the turn still counts. |
| GamePage.TakeTurn | src/app/game/page.tsx:131-228 | A whole accepted turn takes the server's decision verbatim, and any failure keeps the old state but not the old turn count. |
| GameSession.DurationSeconds | src/shared/hooks/useGameSession.ts:95 | `Math.floor` of the elapsed milliseconds over 1000. |
| GameSession.Achievements | src/shared/hooks/useGameSession.ts:105-132 | Nothing is unlocked with the checks off, at most four badges are, and only the wordsmith badge comes without a win. |
| GameSession.AchievementRules | src/shared/hooks/useGameSession.ts:105-132 | Each badge is unlocked iff its rule holds. First win goes with a win, speed runner with a win under 300 s, comeback with a win at risk 80 or more, and wordsmith with 100 messages. No badge is unlocked with the checks off. |
| GameSession.OnlyWinsEarnRewards | src/shared/hooks/useGameSession.ts:105-132 | A lost or abandoned session can only earn the wordsmith badge. |
| GameSession.GameSessionHook.constructor | src/shared/hooks/useGameSession.ts:21-31 | There is no session, nothing is counted, the risk is 50 and no timer runs. |
| GameSession.GameSessionHook.SessionCreated | src/shared/hooks/useGameSession.ts:34-45 | Only a success with a non-empty id opens the session and starts the clock. |
| GameSession.DestructuredAsWritten | src/shared/hooks/useGameSession.ts:36 | Destructuring the reply throws iff it is not a row (a rejection or `null`). A row yields `success` false and no `sessionId`. |
| GameSession.GameSessionHook.InitSession | src/shared/hooks/useGameSession.ts:34-45 | As written, the mount effect never opens the session, whatever `createGameSession` settles to, and changes nothing. |
| GameSession.GameSessionHook.InitSessionFromRow | src/shared/hooks/useGameSession.ts:34-45 | Reading the inserted row's id, the session opens iff the reply is a row with a non-empty id, and then the clock starts. |
| GameSession.GameSessionHook.SaveMessage | src/shared/hooks/useGameSession.ts:50-62 | With no session or autosave off nothing happens. Otherwise the message is saved and counted once, and the risk given, if any, becomes the last risk. |
| GameSession.GameSessionHook.RecordChoice | src/shared/hooks/useGameSession.ts:67-86 | A choice is recorded only in a session. |
| GameSession.GameSessionHook.EndSession | src/shared/hooks/useGameSession.ts:91-135 | In a session, ending records the outcome, last risk, count and duration, and unlocks exactly the achievements of those. Without a session it does nothing. |
| GameSession.GameSessionHook.AbandonSession | src/shared/hooks/useGameSession.ts:140-142 | Abandoning is ending with the abandoned outcome. |
| GameSession.GameSessionHook.DurationEffect | src/shared/hooks/useGameSession.ts:161-169 | The effect starts the interval only if the session clock has started. |
| GameSession.GameSessionHook.DurationTick | src/shared/hooks/useGameSession.ts:164-166 | A tick sets the duration to the whole seconds since the start. |
| GameSession.DurationAsWritten | src/shared/hooks/useGameSession.ts:158-169 | As written, the effect runs once before the session opens, so the interval never starts and the duration stays 0. |
| GameSession.DurationRerunAfterOpen | src/shared/hooks/useGameSession.ts:158-169 | Re-run once the session has opened, the interval runs and the duration counts the seconds since the session began. |
| GameSession.SavesCountOnlyInASession | src/shared/hooks/useGameSession.ts:50-62 | A save before the session opens is neither counted nor remembered. Once it is open each save counts once, and a save without a risk keeps the last one. |
| GameSession.SessionNeverOpensAsWritten | src/shared/hooks/useGameSession.ts:34-62 | Whatever the reply, the session stays closed: a later save is not counted and a win unlocks nothing. |
| GameSession.SessionOpensWithRowId | src/shared/hooks/useGameSession.ts:34-132 | With the row's id read, the session opens iff the id is not empty. The save is then counted once and the win earns the first-win badge. |
| AnimationPrefs.AnimationPreferencesProvider.constructor | src/shared/providers/AnimationPreferencesContext.tsx:25-34 | Every animation is enabled and reduced motion is off. |
| AnimationPrefs.AnimationPreferencesProvider.Mount | src/shared/providers/AnimationPreferencesContext.tsx:36-50 | Saved preferences replace the defaults, and a matching reduced-motion query then sets the flag. |
| AnimationPrefs.AnimationPreferencesProvider.MediaQueryChanged | src/shared/providers/AnimationPreferencesContext.tsx:51-53 | A query change sets only the reduced-motion flag. |
| AnimationPrefs.AnimationPreferencesProvider.SetEnableTypewriter | src/shared/providers/AnimationPreferencesContext.tsx:63-65 | Changes only the typewriter flag. |
| AnimationPrefs.AnimationPreferencesProvider.SetEnableParticles | src/shared/providers/AnimationPreferencesContext.tsx:67-69 | Changes only the particles flag. |
| AnimationPrefs.AnimationPreferencesProvider.SetEnableSceneTransitions | src/shared/providers/AnimationPreferencesContext.tsx:71-73 | Changes only the scene-transitions flag. |
| AnimationPrefs.AnimationPreferencesProvider.SetEnableMagicEffects | src/shared/providers/AnimationPreferencesContext.tsx:75-77 | Changes only the magic-effects flag. |
| AnimationPrefs.AnimationPreferencesProvider.ToggleAll | src/shared/providers/AnimationPreferencesContext.tsx:79-87 | Sets all four animation flags to the value and keeps reduced motion. |
| AnimationPrefs.ToggleAllOverridesSetters | src/shared/providers/AnimationPreferencesContext.tsx:63-87 | After any single setters, toggling all leaves only the value and the reduced-motion flag. |
| AnimationPrefs.SettersCommute | src/shared/providers/AnimationPreferencesContext.tsx:63-77 | Two setters of different flags give the same result in either order. |
| BackgroundMusic.MusicForCharacter | src/features/game/hooks/useBackgroundMusic.ts:76-85 | The track is always one of the mapped tracks. |
| BackgroundMusic.MusicFollowsFirstMatch | src/features/game/hooks/useBackgroundMusic.ts:76-85 | Each character's track plays iff its name is the first, in the order hagrid, hermione, ron, luna, that the lower-cased name contains. The default plays when none is. |
| BackgroundMusic.TrackAndPromptCanDisagree | src/features/game/hooks/useBackgroundMusic.ts:79-81 | "Hermione et Hagrid" plays Hagrid's track while the prompt choice picks Hermione. |
| BackgroundMusic.Clamp | src/features/game/hooks/useBackgroundMusic.ts:247 | The result lies in [0, 1], a value inside is kept, and values outside go to the nearer bound. |
| BackgroundMusic.EffectiveVolume | src/features/game/hooks/useBackgroundMusic.ts:160-163 | The volume is 0 when muted and the set volume otherwise. |
| BackgroundMusic.ClampIsIdempotent | src/features/game/hooks/useBackgroundMusic.ts:246-249 | Clamping twice is clamping once. |
| BackgroundMusic.FadeInPrefix | src/features/game/hooks/useBackgroundMusic.ts:180-189 | The first n volumes of a fade in: the k-th is step k of 50 towards the target. |
| BackgroundMusic.FadeInStepRises | src/features/game/hooks/useBackgroundMusic.ts:180-189 | Towards a non-negative target the steps never go down. |
| BackgroundMusic.FadeOutPrefix | src/features/game/hooks/useBackgroundMusic.ts:202-213 | The first n volumes of a fade out: the k-th is step k of 50 from the starting volume. |
| BackgroundMusic.FadeOutStepFalls | src/features/game/hooks/useBackgroundMusic.ts:202-213 | From a non-negative volume the steps never go up. |
| BackgroundMusic.FadeInRisesToTarget | src/features/game/hooks/useBackgroundMusic.ts:172-190 | A fade in writes 51 volumes, none above the target, and ends on the target. Towards a non-negative target it starts silent and never gets quieter. |
| BackgroundMusic.FadeOutFallsToZero | src/features/game/hooks/useBackgroundMusic.ts:193-214 | A fade out writes 51 volumes, none negative, and ends on 0. From a non-negative volume it starts where it was and never gets louder. |
| BackgroundMusic.AudioElement.constructor | src/features/game/hooks/useBackgroundMusic.ts:133 | A new element has its source, full volume, is paused and nothing is loaded or written. |
| BackgroundMusic.AudioElement.SetVolume | src/features/game/hooks/useBackgroundMusic.ts:135 | Writing the volume is recorded and changes nothing else. |
| BackgroundMusic.AudioElement.Play | src/features/game/hooks/useBackgroundMusic.ts:141 | Playing unpauses and changes nothing else. |
| BackgroundMusic.AudioElement.Pause | src/features/game/hooks/useBackgroundMusic.ts:153 | Pausing pauses and changes nothing else. |
| BackgroundMusic.AudioElement.Load | src/features/game/hooks/useBackgroundMusic.ts:261-262 | A new source is set and loaded once. |
| BackgroundMusic.AudioElement.FadeIn | src/features/game/hooks/useBackgroundMusic.ts:172-190 | The interval writes exactly the fade-in volumes and ends at the target. |
| BackgroundMusic.AudioElement.FadeOut | src/features/game/hooks/useBackgroundMusic.ts:193-214 | The interval writes exactly the fade-out volumes from the current one, and ends silent and paused. |
| BackgroundMusic.MusicHook.constructor | src/features/game/hooks/useBackgroundMusic.ts:103-117 | Not playing, at the default volume, unmuted, with no element yet. |
| BackgroundMusic.MusicHook.Mount | src/features/game/hooks/useBackgroundMusic.ts:120-149 | Saved volume and mute apply only with persistence. A paused looping element is made at the volume the render saw. With autoplay it is silenced and asked to play. |
| BackgroundMusic.MusicHook.AutoplaySettles | src/features/game/hooks/useBackgroundMusic.ts:141-148 | An allowed autoplay fades in and plays, and a refused one changes nothing audible. |
| BackgroundMusic.MusicHook.VolumeEffect | src/features/game/hooks/useBackgroundMusic.ts:160-169 | The element's volume becomes the effective volume. |
| BackgroundMusic.MusicHook.SetVolume | src/features/game/hooks/useBackgroundMusic.ts:246-249 | The stored volume is the clamped value. |
| BackgroundMusic.MusicHook.ToggleMute | src/features/game/hooks/useBackgroundMusic.ts:251-253 | Flips mute and nothing else. |
| BackgroundMusic.MusicHook.Play | src/features/game/hooks/useBackgroundMusic.ts:217-228 | An allowed play fades in to the effective volume and plays. A refused one, or one with no element, changes nothing. |
| BackgroundMusic.MusicHook.Pause | src/features/game/hooks/useBackgroundMusic.ts:230-236 | With an element, a pause fades out and stops. |
| BackgroundMusic.MusicHook.TogglePlay | src/features/game/hooks/useBackgroundMusic.ts:238-244 | Toggling stops a playing track and starts a stopped one if allowed. |
| BackgroundMusic.MusicHook.ChangeMusic | src/features/game/hooks/useBackgroundMusic.ts:255-271 | The new source is loaded once. A playing track resumes if allowed, and a stopped one stays stopped. |
| BackgroundMusic.MusicHook.Cleanup | src/features/game/hooks/useBackgroundMusic.ts:151-155 | Unmounting pauses the element and empties its source. |
| BackgroundMusic.MuteRoundTrip | src/features/game/hooks/useBackgroundMusic.ts:246-253 | Muting silences, and unmuting restores the clamped volume. |
| ChallengeConfig.Config | src/shared/types/challenge.ts:33-112 | Each challenge has 6 control points for the dementor and 5 otherwise. Its limit is 10, 12 or 15 s and its tolerance follow its difficulty, and its Latin name is its spell. |
| ChallengeConfig.HarderIsStricter | src/shared/types/challenge.ts:33-112 | A harder challenge has a strictly shorter time limit and a strictly smaller tolerance. |
| ChallengeConfig.SameDifficultySameRules | src/shared/types/challenge.ts:33-112 | The same difficulty gives the same limit and tolerance. |
| ChallengeConfig.ToleranceBelowRadius | src/shared/types/challenge.ts:33-112 | Every tolerance is positive and below the ring's radius of 120. |
| SpellChallenge.InitialIsConsistent | src/features/game/hooks/useSpellChallenge.ts:17-35 | The initial state is inactive, not started, with 3 lives, the full time and no checkpoint, and it is consistent. Consistent means: checkpoints validated exactly below the current one, progress in step, time never negative, and one result exactly when all are validated. |
| SpellChallenge.Validate | src/features/game/hooks/useSpellChallenge.ts:139-165 | Validating a checkpoint marks it and no other, and makes the next one current. It adds a result and ends the challenge iff it was the last. Lives, calls to `onFail` and time are unchanged. |
| SpellChallenge.Moved | src/features/game/hooks/useSpellChallenge.ts:101-127 | The refs move to the sample. A too-fast move costs exactly one life, and fails the challenge iff it was the last. Checkpoints, results and time are unchanged. |
| SpellChallenge.Checkpoint | src/features/game/hooks/useSpellChallenge.ts:130-168 | The current checkpoint stays or moves one past the one current at the event's start. At most one result is added. Lives, calls to `onFail` and time are unchanged. |
| SpellChallenge.AfterSample | src/features/game/hooks/useSpellChallenge.ts:73-170 | While inactive nothing changes. A sample never touches the time, costs at most one life and calls `onFail` at most once, which leaves the challenge failed and inactive. |
| SpellChallenge.AfterTick | src/features/game/hooks/useSpellChallenge.ts:175-185 | The time left decreases by 100 ms, or becomes 0 and `onFail` is called; it never goes negative. Checkpoints, results and lives are unchanged. |
| SpellChallenge.MovedKeepsConsistent | src/features/game/hooks/useSpellChallenge.ts:101-127 | The speed check keeps the state consistent. |
| SpellChallenge.CheckpointKeepsConsistent | src/features/game/hooks/useSpellChallenge.ts:130-168 | The checkpoint check keeps the state consistent. |
| SpellChallenge.SampleKeepsConsistent | src/features/game/hooks/useSpellChallenge.ts:73-170 | Every mouse sample keeps the state consistent. |
| SpellChallenge.TickKeepsConsistent | src/features/game/hooks/useSpellChallenge.ts:175-185 | Every tick keeps the state consistent. |
| SpellChallenge.StartKeepsConsistent | src/features/game/hooks/useSpellChallenge.ts:172-173 | The start keeps the state consistent. |
| SpellChallenge.WarningExpiryKeepsConsistent | src/features/game/hooks/useSpellChallenge.ts:113 | The end of the speed warning keeps the state consistent. |
| SpellChallenge.InactiveIgnoresSamples | src/features/game/hooks/useSpellChallenge.ts:74 | While inactive a sample changes nothing. |
| SpellChallenge.FirstSampleOnRingOnlyStarts | src/features/game/hooks/useSpellChallenge.ts:85-90 | The first sample on the ring starts the trace and is not checked for speed or checkpoints. |
| SpellChallenge.OffRingBeforeStartIsHarmless | src/features/game/hooks/useSpellChallenge.ts:85-98 | Before the start, a sample off the ring only moves the pointer. |
| SpellChallenge.LeavingTheRingFails | src/features/game/hooks/useSpellChallenge.ts:93-98 | After the start, leaving the ring fails at once and nothing else is checked. |
| SpellChallenge.TooFastCostsOneLife | src/features/game/hooks/useSpellChallenge.ts:103-127 | A sample that is too fast costs exactly one life and shows the warning, and losing the last life fails. |
| SpellChallenge.CheckpointsAdvanceInOrder | src/features/game/hooks/useSpellChallenge.ts:130-148 | Only the current checkpoint can be validated, by one step at most, and validations are never undone. |
| SpellChallenge.LastCheckpointCompletes | src/features/game/hooks/useSpellChallenge.ts:150-165 | Validating the last checkpoint ends the challenge. It reports a success with the XP bonus, the drawn hint flag, no hint text and the time taken. |
| SpellChallenge.ValidateLast | src/features/game/hooks/useSpellChallenge.ts:150-165 | The last validation gives progress 100 and appends exactly that result. |
| SpellChallenge.TickCountsDown | src/features/game/hooks/useSpellChallenge.ts:176-184 | A tick with at most 100 ms left fails and leaves 0; otherwise it takes 100 ms off. The time is never negative. |
| SpellChallenge.TickReachesZeroExactly | src/features/game/hooks/useSpellChallenge.ts:176-184 | With a limit in whole ticks, the tick that first fails is the one that had 100 ms left. |
| SpellChallenge.TimeoutKeepsFailing | src/features/game/hooks/useSpellChallenge.ts:172-194 | The interval is never cleared, so once the time is out every tick calls `onFail` again. |
| SpellChallenge.LastLifeAndLastCheckpointInOneSample | src/features/game/hooks/useSpellChallenge.ts:115-168 | One sample can both lose the last life and validate the last checkpoint: it then fails and completes. |
| SpellChallenge.OnRingIsWithinTolerance | src/features/game/hooks/useSpellChallenge.ts:66-71 | The squared test equals "distance to the ring at most the tolerance". |
| SpellChallenge.TooFastIsSpeedOver800 | src/features/game/hooks/useSpellChallenge.ts:107-111 | The squared test equals "speed above 800 px/s". |
| SpellChallenge.OnCheckpointIsWithin20 | src/features/game/hooks/useSpellChallenge.ts:132-137 | The squared test equals "closer than 20 px". |
| SpellChallenge.SpellChallengeHook.constructor | src/features/game/hooks/useSpellChallenge.ts:17-35 | The hook starts in the initial state of its challenge. |
| SpellChallenge.SpellChallengeHook.Start | src/features/game/hooks/useSpellChallenge.ts:172-175 | The mount effect activates the challenge and starts the countdown. |
| SpellChallenge.SpellChallengeHook.Fails | src/features/game/hooks/useSpellChallenge.ts:94-96 | Failing sets the failed flag, deactivates and calls `onFail`. |
| SpellChallenge.SpellChallengeHook.Sample | src/features/game/hooks/useSpellChallenge.ts:73-170 | A mouse sample is the sample transition and keeps the hook consistent. |
| SpellChallenge.SpellChallengeHook.CheckSpeed | src/features/game/hooks/useSpellChallenge.ts:101-127 | The speed part of a sample. |
| SpellChallenge.SpellChallengeHook.CheckCheckpoints | src/features/game/hooks/useSpellChallenge.ts:130-168 | The checkpoint part of a sample. |
| SpellChallenge.SpellChallengeHook.Tick | src/features/game/hooks/useSpellChallenge.ts:175-185 | A tick is the tick transition and keeps the hook consistent. |
| SpellChallenge.SpellChallengeHook.WarningExpires | src/features/game/hooks/useSpellChallenge.ts:113 | The warning's timeout hides it and keeps the hook consistent. |
| ImageGeneration.AvailableScenes | src/shared/services/image-generation.service.ts:50-52 | The scene list holds the 10 catalogue keys, each once. |
| ImageGeneration.SceneDescription | src/shared/services/image-generation.service.ts:57-60 | A known scene gets its description; any other name comes back. |
| ImageGeneration.SuggestLocationForCharacter | src/shared/services/image-generation.service.ts:65-77 | The lower-cased first word picks a location, and the great hall is the fallback. |
| ImageGeneration.RubeusHagridGetsTheGreatHall | src/shared/services/image-generation.service.ts:75-76 | "Rubeus Hagrid" misses the hut, because only the first word is used. |
| ImageGeneration.HagridFirstGetsTheHut | src/shared/services/image-generation.service.ts:75-76 | "Hagrid le garde-chasse" gets the hut. |
| ImageGeneration.KeyIsFirstWord | src/shared/services/image-generation.service.ts:75 | The key is the lower-cased text before the first space. |
| ImageGeneration.FirstWordOf | src/shared/services/image-generation.service.ts:75 | `split(' ')[0]` is the text before the first space. |
| ImageGeneration.SuggestionIsAPlace | src/shared/services/image-generation.service.ts:65-77 | A suggestion is always one of the mapped places or the great hall. |
| ImageGeneration.SuggestedLibraryHasNoDescription | src/shared/services/image-generation.service.ts:67 | Hermione's suggested library is not in the catalogue, so its description is its own name. |
| CharacterPrompts.ExactlyFourKeys | src/features/game/config/character-prompts.ts:13-207 | The table holds exactly hermione, hagrid, ron and luna, each filing its own configuration. |
| CharacterPrompts.IndexOf | src/features/game/config/character-prompts.ts:217-225 | The position of each key in the test order. |
| CharacterPrompts.SelectKey | src/features/game/config/character-prompts.ts:217-225 | A chosen key always occurs in the lower-cased name. |
| CharacterPrompts.SelectKeyIsFirstMatch | src/features/game/config/character-prompts.ts:217-225 | The chosen key occurs in the lower-cased name and no key tested before it does. No key is chosen iff none occurs. |
| CharacterPrompts.SelectKeyIgnoresCase | src/features/game/config/character-prompts.ts:217-225 | Names equal up to case get the same key. |
| CharacterPrompts.BaronGetsRon | src/features/game/config/character-prompts.ts:217-225 | The match is on substrings: "Bloody Baron" gets Ron's prompt. |
| CharacterPrompts.EarlierKeyWins | src/features/game/config/character-prompts.ts:217-225 | "Ron et Hermione" gets Hermione's prompt. |
| CharacterPrompts.UpperCaseMatches | src/features/game/config/character-prompts.ts:217-225 | "Rubeus HAGRID" gets Hagrid's prompt. |
| CharacterPrompts.NevilleHasNoKey | src/features/game/config/character-prompts.ts:217-225 | "Neville" gets no configuration. |
| CharacterPrompts.GenerateCharacterPrompt | src/features/game/config/character-prompts.ts:212-242 | The prompt is generic iff no key is chosen. Otherwise it is the chosen key's template, French iff the language is French, and its location and objective are never empty. |
| CharacterPrompts.NoKeyGivesGenericPrompt | src/features/game/config/character-prompts.ts:227-232 | A name with no key gets the generic prompt, in French iff the language is French, with the name as given inside it. |
| CharacterPrompts.MatchingKeyFillsTemplate | src/features/game/config/character-prompts.ts:235-241 | A matching name gets its template, French iff the language is French. It holds the level's non-empty location, objective and context, or else Poudlard, "Aider le personnage" and the empty context. |
| CharacterPrompts.EmptyFieldsFallBack | src/features/game/config/character-prompts.ts:235-237 | An empty or missing location or objective takes the default. |
| SceneActions.BaseLetter | src/features/game/actions/scene-actions.ts:36 | Decomposing a letter and removing its marks gives the letter or a plain a..z. |
| SceneActions.RemoveConcat | src/features/game/actions/scene-actions.ts:34-35 | Removing a character distributes over concatenation. |
| SceneActions.StripConcat | src/features/game/actions/scene-actions.ts:36 | Stripping diacritics distributes over concatenation. |
| SceneActions.UnderscoredCons | src/features/game/actions/scene-actions.ts:32-33 | Lower-casing and replacing spaces works character by character. |
| SceneActions.KeyCharSteps | src/features/game/actions/scene-actions.ts:32-36 | The per-character key equals the chain on one character. |
| SceneActions.KeyWithIsByChar | src/features/game/actions/scene-actions.ts:32-36 | The whole chain equals its character-by-character form. |
| SceneActions.KeyByCharConcat | src/features/game/actions/scene-actions.ts:32-36 | The key distributes over concatenation. |
| SceneActions.PlainKept | src/features/game/actions/scene-actions.ts:32-36 | Plain lower-case text is its own key. |
| SceneActions.OneBetween | src/features/game/actions/scene-actions.ts:32-36 | The key of plain text around one character is that text around the character's key. |
| SceneActions.ImageForKey | src/features/game/actions/scene-actions.ts:38-54 | A mapped key gets its image and any other key gets the placeholder. |
| SceneActions.SceneImagePath | src/features/game/actions/scene-actions.ts:31-55 | The corrected reference for `getSceneImagePath`: a scene gets the image of its corrected key, with U+2019 removed, or else the placeholder. The actions do not use it; they use the path as written. |
| SceneActions.SceneImagePathAsWritten | src/features/game/actions/scene-actions.ts:31-55 | `getSceneImagePath` as the source computes it: a scene gets the image of its key as written, or else the placeholder. |
| SceneActions.SceneKeyAsWritten | src/features/game/actions/scene-actions.ts:32-36 | The key as written holds no space, no ASCII apostrophe and no combining mark. A typographic apostrophe can remain. |
| SceneActions.KeysAgreeWithoutTypographicApostrophe | src/features/game/actions/scene-actions.ts:34-35 | A name without U+2019 gets the same key, and so the same image, from the chain as written and from the corrected one. |
| SceneActions.ByCharAgrees | src/features/game/actions/scene-actions.ts:34-35 | The same agreement, character by character. |
| SceneActions.EveryPathIsAScene | src/features/game/actions/scene-actions.ts:38-55 | Every path, as written or corrected, is one of five images under `/scenes/`. |
| SceneActions.SceneKeyIsNormalised | src/features/game/actions/scene-actions.ts:32-36 | The corrected key holds no space, no apostrophe of either kind and no combining mark. |
| SceneActions.ByCharIsNormalised | src/features/game/actions/scene-actions.ts:32-36 | With either apostrophe as the second removal, the character-by-character key holds no space, no ASCII apostrophe, no second-removed character and no combining mark. |
| SceneActions.GenerateSceneImageAction | src/features/game/actions/scene-actions.ts:60-82 | The action always succeeds with no error. Its image is the path as written, so a name with U+2019 gets the placeholder. |
| SceneActions.CachedSceneImage | src/features/game/actions/scene-actions.ts:87-92 | The cached image is never null. It is the mapped image of the key as written, or else the placeholder. |
| SceneActions.CachedAgreesWithGenerated | src/features/game/actions/scene-actions.ts:60-92 | Both ways of asking give the same image for every level and prompt. |
| SceneActions.PlainPieces | src/features/game/actions/scene-actions.ts:32-36 | The example pieces are plain text. |
| SceneActions.TypographicApostropheKeptAsWritten | src/features/game/actions/scene-actions.ts:34-35 | As written, "cabane_d’hagrid" keeps its typographic apostrophe. |
| SceneActions.TypographicApostropheMissesItsImage | src/features/game/actions/scene-actions.ts:34-35 | As written, that name gets the placeholder. |
| SceneActions.ApostrophesDropped | src/features/game/actions/scene-actions.ts:34-35 | Corrected, either apostrophe is dropped, giving `cabane_dhagrid`. |
| SceneActions.TypographicApostropheFindsItsImage | src/features/game/actions/scene-actions.ts:34-35 | Corrected, either spelling reaches the hut's image. |
| SceneActions.LibraryNameFindsItsImage | src/features/game/actions/scene-actions.ts:32-52 | "bibliothèque" loses its accent and reaches the library image, both as written and corrected. |
| Typewriter.WithoutParticle | src/features/game/components/TypewriterText.tsx:40 | The filter keeps exactly the particles with another id. |
| Typewriter.TypewriterText.Effect | src/features/game/components/TypewriterText.tsx:25-49 | While characters remain the next timeout is scheduled. At the end, with a callback, the callback is called once. |
| Typewriter.TypewriterText.constructor | src/features/game/components/TypewriterText.tsx:21-49 | Nothing is shown. An empty text completes at once and any other text schedules its first character. |
| Typewriter.TypewriterText.Tick | src/features/game/components/TypewriterText.tsx:26-42 | A timeout appends the next character and moves the index on. A particle is released iff particles are shown and the draw exceeds 0.7. |
| Typewriter.TypewriterText.ParticleExpires | src/features/game/components/TypewriterText.tsx:39-41 | A particle's timeout removes it and changes nothing else. |
| Typewriter.TypewriterText.CallbackChanged | src/features/game/components/TypewriterText.tsx:46-49 | A new callback re-runs the effect, so a complete text calls it once more. |
| Typewriter.TypewriterText.RunToEnd | src/features/game/components/TypewriterText.tsx:25-49 | After every pending timeout the whole text is shown and the cursor is gone. The callback was called once more iff the text was not yet complete. |
| Typewriter.CursorWhileIncomplete | src/features/game/components/TypewriterText.tsx:70-76 | The cursor shows iff the text shown is not the whole text, and the callback has not run while it shows. |
| Typewriter.TypeWholeText | src/features/game/components/TypewriterText.tsx:25-76 | Typing from the first render shows the text and calls the callback exactly once. The cursor shows iff the text is not empty. |
| LevelSchema.ParseLevel | src/features/levels/level.ts:3-9 | A rejection lists at least one issue, a non-object is a type issue at the root, and an accepted level is valid. |
| LevelSchema.AcceptedExactly | src/features/levels/level.ts:3-9 | An object is accepted iff these hold: the title is a string of 3 or more characters; the description is absent or a string; the order index is absent or an integer of at least 1; the flag is absent or a boolean. |
| LevelSchema.IssuePaths | src/features/levels/level.ts:3-9 | The issues of each field are about that field. |
| LevelSchema.InFieldIssues | src/features/levels/level.ts:3-9 | An issue is reported iff one field reports it. |
| LevelSchema.FieldIssues | src/features/levels/level.ts:3-9 | There are no issues iff every one of the four fields passes, and no field issue is about the root. |
| LevelSchema.RejectionNamesTheTitle | src/features/levels/level.ts:4 | A title is reported missing, mistyped or too short exactly when it is. |
| LevelSchema.RejectionNamesTheDescription | src/features/levels/level.ts:5 | A description is reported iff it is not a string. |
| LevelSchema.RejectionNamesTheOrderIndex | src/features/levels/level.ts:6 | An order index is reported as not a number, not an integer or below 1, exactly when it is. |
| LevelSchema.RejectionNamesTheActiveFlag | src/features/levels/level.ts:8 | The flag is reported iff it is not a boolean. |
| LevelSchema.DefaultsFillIn | src/features/levels/level.ts:6-8 | Absent fields take their defaults: order 1, inactive, no description, no content. |
| LevelSchema.EncodeRoundTrips | src/features/levels/level.ts:3-9 | A level written back parses to itself iff it is valid. |
| LevelSchema.ParseIsIdempotent | src/features/levels/level.ts:3-9 | Parsing an accepted level again gives the same level. |
| Language.BuildKeys | src/shared/providers/LanguageContext.tsx:99-316 | An object literal's keys are exactly the keys it lists. |
| Language.BuildNoEmptyValue | src/shared/providers/LanguageContext.tsx:99-316 | With no empty value listed, no entry is empty. |
| Language.NavbarSectionAgrees | src/shared/providers/LanguageContext.tsx:99-316 | The navbar section lists the same keys in both languages, with no empty text. |
| Language.SidebarSectionAgrees | src/shared/providers/LanguageContext.tsx:99-316 | The same for the sidebar section. |
| Language.LevelSelectionSectionAgrees | src/shared/providers/LanguageContext.tsx:99-316 | The same for the level-selection section. |
| Language.GameScreenSectionAgrees | src/shared/providers/LanguageContext.tsx:99-316 | The same for the game-screen section. |
| Language.HermioneSectionAgrees | src/shared/providers/LanguageContext.tsx:99-316 | The same for Hermione's section. |
| Language.HagridSectionAgrees | src/shared/providers/LanguageContext.tsx:99-316 | The same for Hagrid's section. |
| Language.MoodsSectionAgrees | src/shared/providers/LanguageContext.tsx:99-316 | The same for the moods section. |
| Language.HagridMoodsSectionAgrees | src/shared/providers/LanguageContext.tsx:99-316 | The same for Hagrid's moods section. |
| Language.AdminSectionAgrees | src/shared/providers/LanguageContext.tsx:99-316 | The same for the admin section. |
| Language.StoryProgressSectionAgrees | src/shared/providers/LanguageContext.tsx:99-316 | The same for the story-progress section. |
| Language.LevelsSectionAgrees | src/shared/providers/LanguageContext.tsx:99-316 | The same for the levels section. |
| Language.AllNonEmptyConcat | src/shared/providers/LanguageContext.tsx:99-316 | Joining sections keeps every text non-empty. |
| Language.EntriesAgree | src/shared/providers/LanguageContext.tsx:99-316 | The two dictionaries list the same keys, in the same order, with no empty text. |
| Language.Lookup | src/shared/providers/LanguageContext.tsx:398-400 | `t` gives the non-empty entry, or else the key itself, and a non-empty key never gives an empty text. |
| Language.Translate | src/shared/providers/LanguageContext.tsx:398-400 | The same, in one of the two languages. |
| Language.DictionariesHaveSameKeys | src/shared/providers/LanguageContext.tsx:99-316 | Both languages define the same keys, so switching language never shows a bare key. |
| Language.DictionariesHaveNoEmptyValue | src/shared/providers/LanguageContext.tsx:99-316 | No entry of either dictionary is empty. |
| Language.DefinedKeyTranslatesToEntry | src/shared/providers/LanguageContext.tsx:398-400 | A defined key translates to its entry. |
| Language.UnknownKeyIsItsOwnTranslation | src/shared/providers/LanguageContext.tsx:96-97 | An undefined key comes back unchanged in both languages. |
| Language.ParseSavedLanguage | src/shared/providers/LanguageContext.tsx:354 | Only exactly `fr` or `en` is adopted. |
| Language.LanguageProvider.constructor | src/shared/providers/LanguageContext.tsx:341 | French by default. |
| Language.LanguageProvider.LoadSaved | src/shared/providers/LanguageContext.tsx:352-357 | A valid saved language replaces the current one, and anything else keeps it. |
| Language.LanguageProvider.SetLanguage | src/shared/providers/LanguageContext.tsx:372-375 | The language becomes the one chosen. |
| Language.LanguageProvider.Value | src/shared/providers/LanguageContext.tsx:398-407 | Consumers get the language and a `t` equal to translating in it. |
| Theme.ParseSavedTheme | src/shared/providers/ThemeContext.tsx:61 | A saved value is a theme iff it is exactly `lumos` or `nox`, and then it is that theme's name. |
| Theme.HydratedTheme | src/shared/providers/ThemeContext.tsx:56-69 | A saved `lumos` or `nox` is adopted. Anything else gives nox iff the system prefers dark. |
| Theme.Toggled | src/shared/providers/ThemeContext.tsx:101 | Toggling always changes the theme. |
| Theme.SavedThemeRoundTrips | src/shared/providers/ThemeContext.tsx:56-86 | What a theme saves, the next hydration reads back, whatever the system says. |
| Theme.InvalidSavedThemeFollowsSystem | src/shared/providers/ThemeContext.tsx:61-67 | Any other saved value follows the system: nox if dark, lumos if light. |
| Theme.ThemeProvider.constructor | src/shared/providers/ThemeContext.tsx:50-53 | The default theme, not transitioning, not mounted, nothing applied. |
| Theme.ThemeProvider.Hydrate | src/shared/providers/ThemeContext.tsx:56-69 | Mounting picks the saved theme or else the system's. |
| Theme.ThemeProvider.ApplyEffect | src/shared/providers/ThemeContext.tsx:72-86 | Once mounted, the document gets the theme's class and the theme is saved. Before that nothing happens. |
| Theme.ThemeProvider.SetTheme | src/shared/providers/ThemeContext.tsx:88-98 | Setting the current theme does nothing. Any other theme changes it, starts the transition and schedules its end. |
| Theme.ThemeProvider.ToggleTheme | src/shared/providers/ThemeContext.tsx:100-103 | Toggling always changes the theme and always transitions. |
| Theme.ThemeProvider.TransitionEnds | src/shared/providers/ThemeContext.tsx:95-97 | A timeout ends the transition. None is cleared, so an earlier one can end a later transition early. |
| Theme.ToggleTwiceRestores | src/shared/providers/ThemeContext.tsx:88-103 | Two toggles restore the theme with two timeouts pending, and setting the same theme starts none. |
| Theme.ReloadKeepsTheme | src/shared/providers/ThemeContext.tsx:56-86 | After hydration and the apply effect, a reload hydrates to the same theme whatever the system has become. |
| Sidebar.SidebarProvider.constructor | src/shared/hooks/useSidebar.tsx:86 | Closed on the first render, whatever the screen. |
| Sidebar.SidebarProvider.MobileEffect | src/shared/hooks/useSidebar.tsx:97-99 | Open on desktop and closed on mobile. |
| Sidebar.SidebarProvider.ScreenChanged | src/shared/hooks/useSidebar.tsx:97-99 | Only a change of screen class re-applies that rule. |
| Sidebar.SidebarProvider.Toggle | src/shared/hooks/useSidebar.tsx:105-107 | Flips the state. |
| Sidebar.SidebarProvider.Open | src/shared/hooks/useSidebar.tsx:113-115 | Opens. |
| Sidebar.SidebarProvider.Close | src/shared/hooks/useSidebar.tsx:121-123 | Closes. |
| Sidebar.SidebarLaws | src/shared/hooks/useSidebar.tsx:97-123 | Two toggles restore the state and open and close are idempotent. A sidebar opened on mobile stays open while the screen class holds. |
| Snackbar.Closed | src/shared/hooks/useSnackbar.ts:23-28 | Closing keeps the message and the type. |
| Snackbar.SnackbarHook.constructor | src/shared/hooks/useSnackbar.ts:12-16 | Closed, empty, success. |
| Snackbar.SnackbarHook.Show | src/shared/hooks/useSnackbar.ts:18-25 | Shows exactly that message and type and schedules one auto-hide. |
| Snackbar.SnackbarHook.ShowDefault | src/shared/hooks/useSnackbar.ts:18 | The type defaults to success. |
| Snackbar.SnackbarHook.Hide | src/shared/hooks/useSnackbar.ts:27-29 | Hiding closes and keeps the rest. |
| Snackbar.SnackbarHook.AutoHideFires | src/shared/hooks/useSnackbar.ts:22-24 | An auto-hide closes whatever is shown. |
| Snackbar.EarlierTimerClosesLaterMessage | src/shared/hooks/useSnackbar.ts:18-25 | The first show's timer closes the second message early. |
| SceneTransition.SceneTransitionHook.constructor | src/features/game/hooks/useSceneTransition.ts:29-33 | Hidden, with no scene, level or prompt. |
| SceneTransition.SceneTransitionHook.TriggerTransition | src/features/game/hooks/useSceneTransition.ts:38-49 | A trigger replaces the whole record, and a prompt left out clears the old one. |
| SceneTransition.SceneTransitionHook.HideTransition | src/features/game/hooks/useSceneTransition.ts:54-56 | Hiding changes only `show`. |
| SceneTransition.TriggerReplacesEverything | src/features/game/hooks/useSceneTransition.ts:29-56 | A hidden scene stays described, and the next trigger keeps nothing of it. |

## Left out

- Outside results as parameters: the Supabase queries, the Clerk authentication, the OpenAI call, `Date.now`, `Math.random` and the browser's media queries are parameters of the members that use them. They are not modelled.
- GameActions.PlayTurn: the reply is assumed to parse to a well-typed GameState, with an integer risk, boolean flags and string texts. `JSON.parse(content) as GameState` (game-actions.ts:287) is an unchecked cast, so the program also resolves with ill-shaped JSON such as `{}`, a fractional or string `departure_risk`, or a missing `game_over`, and the page (page.tsx:157-213) uses those fields as they come. That case has no input in the model.
- Prompt texts: `submitGameMove`, `playTurn` and `generateCharacterPrompt` build long system prompts. They are modelled by what they carry (the phase, the history, the key and its filled-in fields), not by their text.
- The localStorage helpers: `loadFromLocalStorage` and `saveToLocalStorage` (progression-helpers.ts:19-36) are not modelled as functions. The story hook's storage entry is modelled as a field holding either no entry, an unreadable entry or a parsed list.
- Persistence writes: the writes to localStorage of the animation preferences (AnimationPreferencesContext.tsx:59-61), of the music settings (useBackgroundMusic.ts:165-168) and of the language are left out, as are the parsing checks of that JSON. Saved values arrive already parsed.
- The `console` output and analytics calls in the core files are left out; they change no state the model has.
- React scheduling: effects, callbacks and timers are methods called in the order React would run them. Concurrent renders, stale closures other than the ones `GamePage` captures, and batching are not modelled.
- BackgroundMusic.AudioElement.FadeIn: a fade's 51 interval ticks run inside one call. Two fades that overlap in time, and the `clearInterval` that cuts one short, are not modelled.
- Floating point is modelled as Dafny `real`. Exact rounding of JavaScript doubles, NaN outside the empty-list percentage, and the square roots of the spell challenge are replaced by exact arithmetic. The root comparisons are restated on squares and lemmas show the two agree.
- SpellChallenge.SpellChallengeHook: the hook's React state and refs are one record field, so that each method's proof stays small. Aliasing between refs and state is therefore not modelled.
- SpellChallenge: the checkpoint positions, which the source computes with cosine and sine (useSpellChallenge.ts:41-54), are given as points.
- SceneActions.BaseLetter: Unicode decomposition is modelled for the lower-case accented letters of Latin-1 only.
- LevelSchema: lengths are counted in Dafny characters, which equal UTF-16 code units only for text in the Basic Multilingual Plane. Keys the schema does not name are dropped, as the schema does.
- Typewriter.TypewriterText: a change of `text` or `speed` in the middle of an animation is not modelled. The delay and the random particle positions are parameters. The text is a sequence of Dafny characters (Unicode scalars), while `text[currentIndex]` and `text.length` (TypewriterText.tsx:26-28) count UTF-16 code units. A character outside the Basic Multilingual Plane, such as an emoji, takes one tick here. In the program it takes two timeouts, shows a lone high surrogate between them, and gets two particle draws.
- GameSession.GameSessionHook.SessionCreated: it takes the `{ success, sessionId }` shape the hook destructures, and `createGameSession` (conversation-actions.ts:9-32) never produces that shape. The open-session behaviour it and the later methods prove is reachable only through the corrected InitSessionFromRow; the as-written mount is InitSession, recorded under Findings.
- SceneActions.GenerateSceneImageAction: its `catch` branch (scene-actions.ts:74-81) cannot be reached, because nothing in the `try` throws, so it is not modelled.
- GamePage.GamePage.Overlay: the page draws its own copy of the game-over overlay (page.tsx:372-442). It is modelled by the overlay component's function, whose logic is the same.
- Language: the long dictionary texts are written as joins of shorter pieces; the values are unchanged. Pages get the `useLanguage` value (`ContextValue`) rather than the dictionaries themselves. Keys JavaScript objects inherit, such as `constructor`, are not modelled as dictionary keys.
- ImageGeneration.SuggestionIsAPlace, ImageGeneration.SceneDescription and SceneActions.EveryPathIsAScene: the maps are Dafny maps, so names that JavaScript objects inherit are not keys. In the program, `HOGWARTS_LOCATIONS[sceneKey] || sceneName`, `characterMap[charKey] || 'grande_salle'` (image-generation.service.ts:59, 76) and `sceneMap[sceneKey] || placeholder` (scene-actions.ts:55) give Object's `constructor` function for the name "constructor". The lemmas are therefore false of the program on that input.
- Prelude.Lower: `toLowerCase` is modelled for ASCII and Latin-1 letters only. This bounds every member built on it:
  - BackgroundMusic.MusicForCharacter;
  - CharacterPrompts.SelectKey and SelectKeyIsFirstMatch;
  - GamePage.Mentions and IsHagrid, and so CharacterFolder, ImageExt, InitialMood and the notices;
  - GamePage.DefeatReasonOf;
  - ImageGeneration.DescriptionKey, CharacterKey and SuggestLocationForCharacter;
  - SceneActions.KeyWith, and so both scene keys.

## Findings

| source | as written | input that shows it | evidently intended | confidence | as-written member | corrected member |
|---|---|---|---|---|---|---|
| src/features/game/hooks/useStoryProgression.ts:84-158 | The load effect awaits the database. Meanwhile the storage-sync effect writes the built-in levels to storage, so the fallback reads back the defaults. | Stored Hermione-completed / Hagrid-unlocked progress and an empty database list | An empty database falls back to a valid stored progression | not executed | StoryProgression.StoredProgressIsLost | StoryProgression.MountWithEmptyDatabaseDeferred |
| src/shared/hooks/useGameSession.ts:158-169 | The duration effect has no dependencies and runs on mount, before the session has a start time, so the interval never starts | Any session opened after mount (start time not 0) | The duration counts the seconds since the session began | not executed | GameSession.DurationAsWritten | GameSession.DurationRerunAfterOpen |
| src/features/game/actions/scene-actions.ts:34-35 | The ASCII apostrophe is removed twice and the typographic one (U+2019) is kept | "cabane_d’hagrid" with U+2019 gets the placeholder | The second removal is of U+2019, so the name reaches the hut's image | not executed | SceneActions.TypographicApostropheMissesItsImage | SceneActions.TypographicApostropheFindsItsImage |
| src/shared/hooks/useGameSession.ts:36-41 | The hook destructures `{ sessionId, success }` from `createGameSession`. That action settles to the inserted row, which has neither field, or to `null`, or it rejects. So no session ever opens, and no message, choice, end or achievement is recorded. | Any reply, for example an inserted row with id "s1" | The session is the inserted row, opened with its id | not executed | GameSession.SessionNeverOpensAsWritten | GameSession.SessionOpensWithRowId |
