/** The Lumos / Nox theme (src/shared/providers/ThemeContext.tsx): a light
    and a dark theme, chosen at hydration from the saved value or from the
    system preference, applied to the document and saved while mounted, and
    switched with a 1.5 s transition flag. The transition timeout is explicit:
    `pendingTimers` counts the ones not yet fired. */
module Theme {
  import opened Prelude

  datatype ThemeName = Lumos | Nox

  /** The provider's default theme. */
  const DefaultTheme: ThemeName := Nox

  /** The string stored under the `theme` key and used as the class name. */
  function Name(t: ThemeName): string {
    match t
    case Lumos => "lumos"
    case Nox => "nox"
  }

  /** A saved value is a theme only when it is exactly `lumos` or `nox`. */
  function ParseSavedTheme(saved: Option<string>): (r: Option<ThemeName>)
    ensures r.Some? <==> saved == Some("lumos") || saved == Some("nox")
    ensures r.Some? ==> saved == Some(Name(r.value))
  {
    if saved == Some("lumos") then Some(Lumos)
    else if saved == Some("nox") then Some(Nox)
    else None
  }

  /** The theme hydration picks: the saved one, or else the system's
      (dark gives nox, light gives lumos). */
  function HydratedTheme(saved: Option<string>, prefersDark: bool): (t: ThemeName)
    ensures saved == Some("lumos") ==> t == Lumos
    ensures saved == Some("nox") ==> t == Nox
    ensures saved != Some("lumos") && saved != Some("nox") ==> (t == Nox <==> prefersDark)
  {
    match ParseSavedTheme(saved)
    case Some(t) => t
    case None => if prefersDark then Nox else Lumos
  }

  function Toggled(t: ThemeName): (r: ThemeName)
    ensures r != t
  {
    if t == Lumos then Nox else Lumos
  }

  /** What a theme saves is what the next hydration reads back, whatever the
      system says. */
  lemma SavedThemeRoundTrips(t: ThemeName, prefersDark: bool)
    ensures ParseSavedTheme(Some(Name(t))) == Some(t)
    ensures HydratedTheme(Some(Name(t)), prefersDark) == t
  {
  }

  /** Anything but the two names falls back to the system preference. */
  lemma InvalidSavedThemeFollowsSystem(saved: Option<string>, prefersDark: bool)
    requires saved != Some("lumos") && saved != Some("nox")
    ensures HydratedTheme(saved, prefersDark) == (if prefersDark then Nox else Lumos)
  {
  }

  class ThemeProvider {
    var theme: ThemeName
    var isTransitioning: bool
    var isMounted: bool
    var pendingTimers: nat
    /** The class on the document root and the saved value, once the apply
        effect has run. */
    var documentTheme: Option<ThemeName>
    var storedTheme: Option<string>

    constructor(defaultTheme: ThemeName)
      ensures theme == defaultTheme && !isTransitioning && !isMounted && pendingTimers == 0
      ensures documentTheme == None && storedTheme == None
    {
      theme := defaultTheme;
      isTransitioning := false;
      isMounted := false;
      pendingTimers := 0;
      documentTheme := None;
      storedTheme := None;
    }

    /** The mount effect, given the saved value and the system preference. */
    method Hydrate(saved: Option<string>, prefersDark: bool)
      modifies this
      ensures isMounted && theme == HydratedTheme(saved, prefersDark)
      ensures isTransitioning == old(isTransitioning) && pendingTimers == old(pendingTimers)
      ensures documentTheme == old(documentTheme) && storedTheme == old(storedTheme)
    {
      isMounted := true;
      var parsed := ParseSavedTheme(saved);
      if parsed.Some? {
        theme := parsed.value;
      } else {
        theme := if prefersDark then Nox else Lumos;
      }
    }

    /** The effect on theme and mount: once mounted, the document gets the
        theme's class (and loses the other) and the theme is saved. */
    method ApplyEffect()
      modifies this
      ensures isMounted ==> documentTheme == Some(theme) && storedTheme == Some(Name(theme))
      ensures !isMounted ==> documentTheme == old(documentTheme) && storedTheme == old(storedTheme)
      ensures theme == old(theme) && isTransitioning == old(isTransitioning)
      ensures isMounted == old(isMounted) && pendingTimers == old(pendingTimers)
    {
      if !isMounted {
        return;
      }
      documentTheme := Some(theme);
      storedTheme := Some(Name(theme));
    }

    /** `setTheme(t)`: nothing for the current theme; otherwise the theme
        changes, the transition starts and its timeout is scheduled. */
    method SetTheme(newTheme: ThemeName)
      modifies this
      ensures theme == newTheme
      ensures newTheme == old(theme) ==> isTransitioning == old(isTransitioning) && pendingTimers == old(pendingTimers)
      ensures newTheme != old(theme) ==> isTransitioning && pendingTimers == old(pendingTimers) + 1
      ensures isMounted == old(isMounted) && documentTheme == old(documentTheme) && storedTheme == old(storedTheme)
    {
      if newTheme == theme {
        return;
      }
      isTransitioning := true;
      theme := newTheme;
      pendingTimers := pendingTimers + 1;
    }

    /** `toggleTheme()`: always a change, so always a transition. */
    method ToggleTheme()
      modifies this
      ensures theme == Toggled(old(theme)) && isTransitioning && pendingTimers == old(pendingTimers) + 1
      ensures isMounted == old(isMounted) && documentTheme == old(documentTheme) && storedTheme == old(storedTheme)
    {
      SetTheme(Toggled(theme));
    }

    /** One transition timeout fires. None is cleared, so the one a first
        change started ends the transition of a second change early. */
    method TransitionEnds()
      requires pendingTimers > 0
      modifies this
      ensures !isTransitioning && pendingTimers == old(pendingTimers) - 1
      ensures theme == old(theme) && isMounted == old(isMounted)
      ensures documentTheme == old(documentTheme) && storedTheme == old(storedTheme)
    {
      isTransitioning := false;
      pendingTimers := pendingTimers - 1;
    }
  }

  /** Toggling twice restores the theme, with two timeouts pending; setting
      the theme it already has starts none. */
  method ToggleTwiceRestores(start: ThemeName) returns (theme: ThemeName, timers: nat, afterSame: nat)
    ensures theme == start && timers == 2 && afterSame == 2
  {
    var provider := new ThemeProvider(start);
    provider.ToggleTheme();
    provider.ToggleTheme();
    theme, timers := provider.theme, provider.pendingTimers;
    provider.SetTheme(start);
    afterSame := provider.pendingTimers;
  }

  /** After hydration and the apply effect, a reload of the page hydrates to
      the same theme, whatever the system preference has become. */
  method ReloadKeepsTheme(saved: Option<string>, prefersDark: bool, laterPrefersDark: bool)
    returns (before: ThemeName, after: ThemeName)
    ensures before == after == HydratedTheme(saved, prefersDark)
  {
    var provider := new ThemeProvider(DefaultTheme);
    provider.Hydrate(saved, prefersDark);
    provider.ApplyEffect();
    before := provider.theme;
    var reloaded := new ThemeProvider(DefaultTheme);
    reloaded.Hydrate(provider.storedTheme, laterPrefersDark);
    after := reloaded.theme;
  }
}
