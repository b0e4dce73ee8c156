/** The scene-transition state (src/features/game/hooks/useSceneTransition.ts):
    whether the transition shows, and the scene, the level and the optional
    prompt it shows. A trigger replaces the whole record; a hide changes
    only `show`. */
module SceneTransition {
  import opened Prelude

  datatype SceneTransitionState = SceneTransitionState(
    show: bool,
    sceneName: string,
    levelId: string,
    customPrompt: Option<string>)

  const InitialTransition: SceneTransitionState := SceneTransitionState(false, "", "", None)

  class SceneTransitionHook {
    var transitionState: SceneTransitionState

    constructor()
      ensures transitionState == SceneTransitionState(false, "", "", None)
    {
      transitionState := InitialTransition;
    }

    /** `triggerTransition(sceneName, levelId, customPrompt)`; a prompt left
        out clears the previous one. */
    method TriggerTransition(sceneName: string, levelId: string, customPrompt: Option<string>)
      modifies this
      ensures transitionState == SceneTransitionState(true, sceneName, levelId, customPrompt)
    {
      transitionState := SceneTransitionState(true, sceneName, levelId, customPrompt);
    }

    method HideTransition()
      modifies this
      ensures transitionState == old(transitionState).(show := false)
    {
      transitionState := transitionState.(show := false);
    }
  }

  /** A hide keeps the scene on screen until it fades; the next trigger
      leaves nothing of the previous scene, not even its prompt. */
  method TriggerReplacesEverything() returns (hidden: SceneTransitionState, next: SceneTransitionState)
    ensures hidden == SceneTransitionState(false, "Grande Salle", "level-1", Some("candles"))
    ensures next == SceneTransitionState(true, "Bibliothèque", "level-2", None)
  {
    var hook := new SceneTransitionHook();
    hook.TriggerTransition("Grande Salle", "level-1", Some("candles"));
    hook.HideTransition();
    hidden := hook.transitionState;
    hook.TriggerTransition("Bibliothèque", "level-2", None);
    next := hook.transitionState;
  }
}
