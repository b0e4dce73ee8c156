/** The animation preferences (src/shared/providers/AnimationPreferencesContext.tsx):
    four switches for the typewriter, the particles, the scene transitions
    and the magic effects, and the reduced-motion flag that follows the
    system's media query. Each update copies the record with some fields
    replaced. */
module AnimationPrefs {
  import opened Prelude

  datatype AnimationPreferences = AnimationPreferences(
    enableTypewriter: bool,
    enableParticles: bool,
    enableSceneTransitions: bool,
    enableMagicEffects: bool,
    reducedMotion: bool)

  /** Every effect on, motion not reduced. */
  const DefaultPreferences: AnimationPreferences := AnimationPreferences(true, true, true, true, false)

  /** The four switches `toggleAll` sets. */
  predicate AllEnabled(p: AnimationPreferences, value: bool) {
    p.enableTypewriter == value && p.enableParticles == value
    && p.enableSceneTransitions == value && p.enableMagicEffects == value
  }

  class AnimationPreferencesProvider {
    var prefs: AnimationPreferences

    constructor()
      ensures prefs == DefaultPreferences
      ensures AllEnabled(prefs, true) && !prefs.reducedMotion
    {
      prefs := DefaultPreferences;
    }

    /** The mount effect: a saved record that parses replaces the
        preferences (`parsed` is `None` when nothing is saved or the text
        does not parse), then a matching reduced-motion query sets the flag. */
    method Mount(parsed: Option<AnimationPreferences>, matches: bool)
      modifies this
      ensures var base := parsed.GetOr(old(prefs));
        prefs == if matches then base.(reducedMotion := true) else base
    {
      if parsed.Some? {
        prefs := parsed.value;
      }
      if matches {
        prefs := prefs.(reducedMotion := true);
      }
    }

    /** A change of the media query sets only the reduced-motion flag. */
    method MediaQueryChanged(matches: bool)
      modifies this
      ensures prefs == old(prefs).(reducedMotion := matches)
    {
      prefs := prefs.(reducedMotion := matches);
    }

    method SetEnableTypewriter(value: bool)
      modifies this
      ensures prefs == old(prefs).(enableTypewriter := value)
    {
      prefs := prefs.(enableTypewriter := value);
    }

    method SetEnableParticles(value: bool)
      modifies this
      ensures prefs == old(prefs).(enableParticles := value)
    {
      prefs := prefs.(enableParticles := value);
    }

    method SetEnableSceneTransitions(value: bool)
      modifies this
      ensures prefs == old(prefs).(enableSceneTransitions := value)
    {
      prefs := prefs.(enableSceneTransitions := value);
    }

    method SetEnableMagicEffects(value: bool)
      modifies this
      ensures prefs == old(prefs).(enableMagicEffects := value)
    {
      prefs := prefs.(enableMagicEffects := value);
    }

    /** `toggleAll(v)`: the four switches become `v`; reduced motion is
        left alone. */
    method ToggleAll(value: bool)
      modifies this
      ensures AllEnabled(prefs, value) && prefs.reducedMotion == old(prefs).reducedMotion
    {
      prefs := prefs.(enableTypewriter := value, enableParticles := value,
                      enableSceneTransitions := value, enableMagicEffects := value);
    }
  }

  /** `toggleAll` erases every single setting made before it, and the
      reduced-motion flag from the system survives it. */
  method ToggleAllOverridesSetters(value: bool, reduced: bool) returns (p: AnimationPreferences)
    ensures p == AnimationPreferences(value, value, value, value, reduced)
  {
    var provider := new AnimationPreferencesProvider();
    provider.MediaQueryChanged(reduced);
    provider.SetEnableTypewriter(!value);
    provider.SetEnableMagicEffects(!value);
    provider.ToggleAll(value);
    p := provider.prefs;
  }

  /** The four setters touch disjoint fields: applied in either order they
      give the same preferences. */
  method SettersCommute(a: bool, b: bool) returns (p: AnimationPreferences, q: AnimationPreferences)
    ensures p == q
    ensures p == DefaultPreferences.(enableParticles := a, enableSceneTransitions := b)
  {
    var first := new AnimationPreferencesProvider();
    first.SetEnableParticles(a);
    first.SetEnableSceneTransitions(b);
    var second := new AnimationPreferencesProvider();
    second.SetEnableSceneTransitions(b);
    second.SetEnableParticles(a);
    p, q := first.prefs, second.prefs;
  }
}
