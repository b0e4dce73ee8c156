/** The background music of a level (src/features/game/hooks/useBackgroundMusic.ts):
    a track picked from the character's name, one looping audio element per
    track, a volume in [0, 1] with a mute switch, and 50-step fades in and
    out. The audio element is a class whose writes to `volume` are logged;
    each fade's interval runs as a loop, one iteration per firing. Whether
    the browser lets `play()` start is a parameter. */
module BackgroundMusic {
  import opened Prelude
  import CharacterPrompts

  // ---------------------------------------------------------------------
  // Track selection

  const HagridTrack: string := "/music/hagrid-forest.mp3"
  const HermioneTrack: string := "/music/hermione-library.mp3"
  const RonTrack: string := "/music/ron-adventure.mp3"
  const LunaTrack: string := "/music/luna-dreamy.mp3"
  const DefaultTrack: string := "/music/hogwarts-ambient.mp3"

  /** `MUSIC_BY_CHARACTER`. */
  const MusicByCharacter: map<string, string> :=
    map["hagrid" := HagridTrack, "hermione" := HermioneTrack, "ron" := RonTrack,
        "luna" := LunaTrack, "default" := DefaultTrack]

  /** `getMusicForCharacter`: the first of hagrid, hermione, ron and luna
      that the lower-cased name contains picks its track. */
  function MusicForCharacter(character: string): (track: string)
    ensures track in MusicByCharacter.Values
  {
    var normalized := Lower(character);
    if Contains(normalized, "hagrid") then MusicByCharacter["hagrid"]
    else if Contains(normalized, "hermione") then MusicByCharacter["hermione"]
    else if Contains(normalized, "ron") then MusicByCharacter["ron"]
    else if Contains(normalized, "luna") then MusicByCharacter["luna"]
    else MusicByCharacter["default"]
  }

  /** Each character's track is played exactly when its name is the first,
      in the order hagrid, hermione, ron, luna, that the name contains, and
      the default track when none is. */
  lemma MusicFollowsFirstMatch(character: string)
    ensures var n := Lower(character); var t := MusicForCharacter(character);
      && (t == HagridTrack <==> Contains(n, "hagrid"))
      && (t == HermioneTrack <==> !Contains(n, "hagrid") && Contains(n, "hermione"))
      && (t == RonTrack <==> !Contains(n, "hagrid") && !Contains(n, "hermione") && Contains(n, "ron"))
      && (t == LunaTrack <==> !Contains(n, "hagrid") && !Contains(n, "hermione") && !Contains(n, "ron")
                              && Contains(n, "luna"))
      && (t == DefaultTrack <==> !Contains(n, "hagrid") && !Contains(n, "hermione") && !Contains(n, "ron")
                                 && !Contains(n, "luna"))
  {
  }

  /** The track and the prompt test the names in different orders: a name
      that names both Hagrid and Hermione plays Hagrid's forest while the
      character speaks with Hermione's prompt. */
  lemma TrackAndPromptCanDisagree()
    ensures MusicForCharacter("Hermione et Hagrid") == HagridTrack
    ensures CharacterPrompts.SelectKey("Hermione et Hagrid") == Some(CharacterPrompts.Hermione)
  {
    var n := Lower("Hermione et Hagrid");
    assert n == "hermione et hagrid";
    assert OccursAt(n, "hagrid", 12);
    assert OccursAt(n, "hermione", 0);
  }

  // ---------------------------------------------------------------------
  // Volume

  function Min(a: real, b: real): real { if a <= b then a else b }
  function Max(a: real, b: real): real { if a >= b then a else b }

  /** `Math.max(0, Math.min(1, v))`. */
  function Clamp(v: real): (r: real)
    ensures 0.0 <= r <= 1.0
    ensures 0.0 <= v <= 1.0 ==> r == v
    ensures v < 0.0 ==> r == 0.0
    ensures v > 1.0 ==> r == 1.0
  {
    Max(0.0, Min(1.0, v))
  }

  /** What the audio element is set to: nothing while muted. */
  function EffectiveVolume(volume: real, isMuted: bool): (r: real)
    ensures isMuted ==> r == 0.0
    ensures !isMuted ==> r == volume
  {
    if isMuted then 0.0 else volume
  }

  lemma ClampIsIdempotent(v: real)
    ensures Clamp(Clamp(v)) == Clamp(v)
  {
  }

  // ---------------------------------------------------------------------
  // Fades

  const FadeSteps: int := 50

  /** What the firing numbered `k` (from 0) of a fade in to `target`
      writes: `min(target / 50 * k, target)`. */
  function FadeInStep(target: real, k: nat): real {
    Min(target / 50.0 * k as real, target)
  }

  /** What the firing numbered `k` of a fade out from `initial` writes:
      `max(initial - initial / 50 * k, 0)`. */
  function FadeOutStep(initial: real, k: nat): real {
    Max(initial - initial / 50.0 * k as real, 0.0)
  }

  /** The volumes the first `n` firings of a fade in write. */
  function FadeInPrefix(target: real, n: nat): (v: seq<real>)
    ensures |v| == n
    ensures forall k | 0 <= k < n :: v[k] == FadeInStep(target, k)
  {
    if n == 0 then [] else FadeInPrefix(target, n - 1) + [FadeInStep(target, n - 1)]
  }

  /** The volumes the first `n` firings of a fade out write. */
  function FadeOutPrefix(initial: real, n: nat): (v: seq<real>)
    ensures |v| == n
    ensures forall k | 0 <= k < n :: v[k] == FadeOutStep(initial, k)
  {
    if n == 0 then [] else FadeOutPrefix(initial, n - 1) + [FadeOutStep(initial, n - 1)]
  }

  /** All that a fade in writes: 50 steps, then `target` on the firing that
      stops the interval. */
  function FadeInVolumes(target: real): seq<real> {
    FadeInPrefix(target, 50) + [target]
  }

  /** All that a fade out writes: 50 steps, then 0. */
  function FadeOutVolumes(initial: real): seq<real> {
    FadeOutPrefix(initial, 50) + [0.0]
  }

  /** A fade in writes 51 volumes, none above the target, and ends on it;
      towards a non-negative target it starts silent and never gets
      quieter. */
  lemma FadeInRisesToTarget(target: real)
    ensures var v := FadeInVolumes(target);
      && |v| == 51 && v[50] == target
      && (forall k | 0 <= k < |v| :: v[k] <= target)
      && (target >= 0.0 ==> v[0] == 0.0 && forall j, k | 0 <= j <= k < |v| :: v[j] <= v[k])
  {
    var v := FadeInVolumes(target);
    assert forall k | 0 <= k < 50 :: v[k] == FadeInStep(target, k);
    if target >= 0.0 {
      forall j, k | 0 <= j <= k < |v|
        ensures v[j] <= v[k]
      {
        if k < 50 {
          FadeInStepRises(target, j, k);
        }
      }
    }
  }

  /** A fade out writes 51 volumes, none negative, and ends on 0; from a
      non-negative volume it starts where it was and never gets louder. */
  lemma FadeOutFallsToZero(initial: real)
    ensures var v := FadeOutVolumes(initial);
      && |v| == 51 && v[50] == 0.0
      && (forall k | 0 <= k < |v| :: v[k] >= 0.0)
      && (initial >= 0.0 ==> v[0] == initial && forall j, k | 0 <= j <= k < |v| :: v[j] >= v[k])
  {
    var v := FadeOutVolumes(initial);
    assert forall k | 0 <= k < 50 :: v[k] == FadeOutStep(initial, k);
    if initial >= 0.0 {
      forall j, k | 0 <= j <= k < |v|
        ensures v[j] >= v[k]
      {
        if k < 50 {
          FadeOutStepFalls(initial, j, k);
        }
      }
    }
  }

  lemma FadeInStepRises(target: real, j: nat, k: nat)
    requires target >= 0.0 && j <= k
    ensures FadeInStep(target, j) <= FadeInStep(target, k)
  {
    var inc := target / 50.0;
    ScaleMonotone(inc, j as real, k as real);
    assert FadeInStep(target, j) == Min(inc * j as real, target);
    assert FadeInStep(target, k) == Min(inc * k as real, target);
  }

  lemma FadeOutStepFalls(initial: real, j: nat, k: nat)
    requires initial >= 0.0 && j <= k
    ensures FadeOutStep(initial, j) >= FadeOutStep(initial, k)
  {
    ScaleMonotone(initial / 50.0, j as real, k as real);
  }

  lemma ScaleMonotone(c: real, a: real, b: real)
    requires c >= 0.0 && a <= b
    ensures c * a <= c * b
  {
    assert c * b - c * a == c * (b - a);
  }

  /** The `Audio` element: its source, its volume with the log of every
      value written to it, whether it is paused, and how many times it was
      loaded. */
  class AudioElement {
    var src: string
    var volume: real
    var paused: bool
    var loads: nat
    var volumeLog: seq<real>

    /** `new Audio(src)`: paused at full volume. */
    constructor(src: string)
      ensures this.src == src && volume == 1.0 && paused && loads == 0 && volumeLog == []
    {
      this.src := src;
      volume := 1.0;
      paused := true;
      loads := 0;
      volumeLog := [];
    }

    method SetVolume(v: real)
      modifies this
      ensures volume == v && volumeLog == old(volumeLog) + [v]
      ensures src == old(src) && paused == old(paused) && loads == old(loads)
    {
      volume := v;
      volumeLog := volumeLog + [v];
    }

    method Play()
      modifies this
      ensures !paused
      ensures src == old(src) && volume == old(volume) && loads == old(loads) && volumeLog == old(volumeLog)
    {
      paused := false;
    }

    method Pause()
      modifies this
      ensures paused
      ensures src == old(src) && volume == old(volume) && loads == old(loads) && volumeLog == old(volumeLog)
    {
      paused := true;
    }

    /** Setting `src` and then calling `load()`. */
    method Load(newSrc: string)
      modifies this
      ensures src == newSrc && loads == old(loads) + 1
      ensures volume == old(volume) && paused == old(paused) && volumeLog == old(volumeLog)
    {
      src := newSrc;
      loads := loads + 1;
    }

    /** `fadeIn(audio, target, duration)`, one loop iteration per firing of
        its interval; the duration only spaces the firings. */
    method FadeIn(target: real)
      modifies this
      ensures volumeLog == old(volumeLog) + FadeInVolumes(target) && volume == target
      ensures src == old(src) && paused == old(paused) && loads == old(loads)
    {
      var volumeIncrement := target / 50.0;
      var currentStep := 0;
      while currentStep < FadeSteps
        invariant 0 <= currentStep <= FadeSteps
        invariant volumeLog == old(volumeLog) + FadeInPrefix(target, currentStep)
        invariant src == old(src) && paused == old(paused) && loads == old(loads)
      {
        SetVolume(Min(volumeIncrement * currentStep as real, target));
        assert volume == FadeInStep(target, currentStep);
        assert FadeInPrefix(target, currentStep + 1) == FadeInPrefix(target, currentStep) + [FadeInStep(target, currentStep)];
        currentStep := currentStep + 1;
      }
      SetVolume(target);
    }

    /** `fadeOut(audio, duration, callback)` up to the callback: the volume
        falls from where it is to 0 and the element is paused. */
    method FadeOut()
      modifies this
      ensures volumeLog == old(volumeLog) + FadeOutVolumes(old(volume)) && volume == 0.0 && paused
      ensures src == old(src) && loads == old(loads)
    {
      var initialVolume := volume;
      var volumeDecrement := initialVolume / 50.0;
      var currentStep := 0;
      while currentStep < FadeSteps
        invariant 0 <= currentStep <= FadeSteps
        invariant volumeLog == old(volumeLog) + FadeOutPrefix(initialVolume, currentStep)
        invariant src == old(src) && paused == old(paused) && loads == old(loads)
      {
        SetVolume(Max(initialVolume - volumeDecrement * currentStep as real, 0.0));
        assert volume == FadeOutStep(initialVolume, currentStep);
        assert FadeOutPrefix(initialVolume, currentStep + 1)
            == FadeOutPrefix(initialVolume, currentStep) + [FadeOutStep(initialVolume, currentStep)];
        currentStep := currentStep + 1;
      }
      SetVolume(0.0);
      Pause();
    }
  }

  /** The hook for one track. `audio` is `audioRef.current`. */
  class MusicHook {
    const autoPlay: bool
    const persistPreferences: bool
    const musicSrc: string
    var isPlaying: bool
    var volume: real
    var isMuted: bool
    var audio: AudioElement?
    /** The autoplay `play()` promise not yet settled, and the volume its
        fade in was given when the effect ran. */
    var autoplayPending: bool
    var autoplayTarget: real

    /** Options defaulting, at the call site, to autoplay, a volume of 0.3
        and saved preferences. */
    constructor(musicSrc: string, autoPlay: bool, defaultVolume: real, persistPreferences: bool)
      ensures this.musicSrc == musicSrc && this.autoPlay == autoPlay && this.persistPreferences == persistPreferences
      ensures !isPlaying && volume == defaultVolume && !isMuted && audio == null && !autoplayPending
    {
      this.musicSrc := musicSrc;
      this.autoPlay := autoPlay;
      this.persistPreferences := persistPreferences;
      isPlaying := false;
      volume := defaultVolume;
      isMuted := false;
      audio := null;
      autoplayPending := false;
      autoplayTarget := 0.0;
    }

    /** The effect on `musicSrc`: the saved preferences (already parsed;
        `None` for a missing or empty entry) replace volume and mute, a new
        looping element is made at the volume the render saw, and with
        autoplay it is silenced and asked to play. */
    method Mount(savedVolume: Option<real>, savedMuted: Option<string>)
      modifies this
      ensures var seen := EffectiveVolume(old(volume), old(isMuted));
        && audio != null && fresh(audio) && audio.src == musicSrc && audio.paused
        && audio.volumeLog == (if autoPlay then [seen, 0.0] else [seen])
        && autoplayPending == autoPlay && (autoPlay ==> autoplayTarget == seen)
      ensures volume == if persistPreferences && savedVolume.Some? then savedVolume.value else old(volume)
      ensures isMuted == if persistPreferences && savedMuted.Some? && savedMuted.value != "" then savedMuted.value == "true"
                         else old(isMuted)
      ensures isPlaying == old(isPlaying)
    {
      var seen := EffectiveVolume(volume, isMuted);
      if persistPreferences {
        if savedVolume.Some? {
          volume := savedVolume.value;
        }
        if savedMuted.Some? && savedMuted.value != "" {
          isMuted := savedMuted.value == "true";
        }
      }
      var element := new AudioElement(musicSrc);
      element.SetVolume(seen);
      audio := element;
      autoplayPending := autoPlay;
      if autoPlay {
        element.SetVolume(0.0);
        autoplayTarget := seen;
      }
    }

    /** The browser settles the autoplay promise: when playing is allowed the
        hook is playing and fades in to the volume the effect saw; when it is
        blocked nothing changes. */
    method AutoplaySettles(allowed: bool)
      requires autoplayPending && audio != null
      modifies this, audio
      ensures !autoplayPending && audio == old(audio)
      ensures allowed ==> isPlaying && !audio.paused
                          && audio.volumeLog == old(audio.volumeLog) + FadeInVolumes(autoplayTarget)
      ensures !allowed ==> isPlaying == old(isPlaying) && audio.volumeLog == old(audio.volumeLog)
                           && audio.paused == old(audio.paused)
      ensures volume == old(volume) && isMuted == old(isMuted)
    {
      autoplayPending := false;
      if allowed {
        audio.Play();
        isPlaying := true;
        audio.FadeIn(autoplayTarget);
      }
    }

    /** The effect on volume and mute: the element gets the effective
        volume. */
    method VolumeEffect()
      modifies audio
      ensures audio != null ==> audio.volume == EffectiveVolume(volume, isMuted)
                                && audio.volumeLog == old(audio.volumeLog) + [EffectiveVolume(volume, isMuted)]
                                && audio.paused == old(audio.paused) && audio.src == old(audio.src)
    {
      if audio != null {
        audio.SetVolume(EffectiveVolume(volume, isMuted));
      }
    }

    /** `setVolume(v)`: the stored volume is always within [0, 1]. */
    method SetVolume(newVolume: real)
      modifies this
      ensures volume == Clamp(newVolume) && 0.0 <= volume <= 1.0
      ensures isMuted == old(isMuted) && isPlaying == old(isPlaying) && audio == old(audio)
      ensures autoplayPending == old(autoplayPending) && autoplayTarget == old(autoplayTarget)
    {
      volume := Clamp(newVolume);
    }

    method ToggleMute()
      modifies this
      ensures isMuted == !old(isMuted)
      ensures volume == old(volume) && isPlaying == old(isPlaying) && audio == old(audio)
      ensures autoplayPending == old(autoplayPending) && autoplayTarget == old(autoplayTarget)
    {
      isMuted := !isMuted;
    }

    /** `play()`: with an element and the browser's consent, playing and
        fading in to the effective volume over one second. */
    method Play(allowed: bool)
      modifies this, audio
      ensures audio == old(audio)
      ensures audio != null && allowed ==>
                isPlaying && !audio.paused
                && audio.volumeLog == old(audio.volumeLog) + FadeInVolumes(EffectiveVolume(volume, isMuted))
      ensures audio != null ==> audio.src == old(audio.src) && audio.loads == old(audio.loads)
      ensures audio == null || !allowed ==> isPlaying == old(isPlaying)
      ensures audio != null && !allowed ==> audio.volumeLog == old(audio.volumeLog) && audio.paused == old(audio.paused)
      ensures volume == old(volume) && isMuted == old(isMuted)
      ensures autoplayPending == old(autoplayPending) && autoplayTarget == old(autoplayTarget)
    {
      if audio == null {
        return;
      }
      if allowed {
        audio.Play();
        isPlaying := true;
        audio.FadeIn(EffectiveVolume(volume, isMuted));
      }
    }

    /** `pause()`: fade out over one second, then no longer playing. */
    method Pause()
      modifies this, audio
      ensures audio == old(audio)
      ensures audio != null ==> !isPlaying && audio.paused && audio.volume == 0.0
                                && audio.volumeLog == old(audio.volumeLog) + FadeOutVolumes(old(audio.volume))
      ensures audio != null ==> audio.src == old(audio.src) && audio.loads == old(audio.loads)
      ensures audio == null ==> isPlaying == old(isPlaying)
      ensures volume == old(volume) && isMuted == old(isMuted)
      ensures autoplayPending == old(autoplayPending) && autoplayTarget == old(autoplayTarget)
    {
      if audio == null {
        return;
      }
      audio.FadeOut();
      isPlaying := false;
    }

    /** `togglePlay()`: pause when playing, play otherwise. */
    method TogglePlay(allowed: bool)
      modifies this, audio
      ensures audio == old(audio)
      ensures audio != null && old(isPlaying) ==> !isPlaying && audio.paused
      ensures audio != null && !old(isPlaying) && allowed ==> isPlaying && !audio.paused
      ensures audio == null ==> isPlaying == old(isPlaying)
      ensures volume == old(volume) && isMuted == old(isMuted)
    {
      if isPlaying {
        Pause();
      } else {
        Play(allowed);
      }
    }

    /** `changeMusic(src, shouldFade)`: while playing with a fade, the old
        track fades out, then the new one is loaded and played; otherwise it
        is loaded at once and played only if the hook was playing. */
    method ChangeMusic(newMusicSrc: string, shouldFade: bool, allowed: bool)
      modifies this, audio
      ensures audio == old(audio)
      ensures audio != null ==> audio.src == newMusicSrc && audio.loads == old(audio.loads) + 1
      ensures audio != null && old(isPlaying) && allowed ==> isPlaying && !audio.paused
      ensures audio != null && !old(isPlaying) ==> !isPlaying && audio.paused == old(audio.paused)
      ensures audio == null ==> isPlaying == old(isPlaying)
      ensures volume == old(volume) && isMuted == old(isMuted)
    {
      if audio == null {
        return;
      }
      if shouldFade && isPlaying {
        audio.FadeOut();
        audio.Load(newMusicSrc);
        Play(allowed);
      } else {
        audio.Load(newMusicSrc);
        if isPlaying {
          Play(allowed);
        }
      }
    }

    /** The effect's cleanup when the track or the page goes: the element is
        paused and emptied. */
    method Cleanup()
      modifies audio
      ensures audio != null ==> audio.paused && audio.src == "" && audio.volumeLog == old(audio.volumeLog)
    {
      if audio != null {
        audio.Pause();
        audio.src := "";
      }
    }
  }

  /** Muting while a track plays silences the element at the next volume
      effect, and unmuting restores the clamped volume chosen before. */
  method MuteRoundTrip(v: real) returns (muted: real, unmuted: real)
    ensures muted == 0.0 && unmuted == Clamp(v)
  {
    var hook := new MusicHook(DefaultTrack, false, 0.3, false);
    hook.Mount(None, None);
    hook.SetVolume(v);
    hook.ToggleMute();
    hook.VolumeEffect();
    muted := hook.audio.volume;
    hook.ToggleMute();
    hook.VolumeEffect();
    unmuted := hook.audio.volume;
  }
}
