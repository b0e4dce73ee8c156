/** The typewriter effect (src/features/game/components/TypewriterText.tsx):
    a text is revealed one character per timeout; while characters remain a
    blinking cursor follows them, and once the whole text is shown the
    completion callback is called. Each timeout may also release a short-lived
    particle. The timeouts, the random draws and the particle identifiers are
    parameters of the methods that stand for them. */
module Typewriter {

  /** A particle at a position given in percent. */
  datatype Particle = Particle(id: real, x: real, y: real)

  /** The chance a timeout releases a particle is that a draw in [0, 1)
      exceeds this bound. */
  const ParticleThreshold: real := 0.7

  /** `particles.filter(p => p.id !== id)`. */
  function WithoutParticle(ps: seq<Particle>, id: real): (r: seq<Particle>)
    ensures |r| <= |ps|
    ensures forall p | p in r :: p in ps && p.id != id
    ensures forall p | p in ps && p.id != id :: p in r
  {
    if ps == [] then []
    else (if ps[0].id == id then [] else [ps[0]]) + WithoutParticle(ps[1..], id)
  }

  class TypewriterText {
    const text: string
    const hasOnComplete: bool
    const showParticles: bool
    var displayedText: string
    var currentIndex: nat
    /** A timeout is scheduled to reveal the next character. */
    var tickPending: bool
    /** How many times the completion callback has been called. */
    var completions: nat
    var particles: seq<Particle>

    /** The text shown is the first `currentIndex` characters; a timeout is
        pending exactly while characters remain; the callback has been
        called only once the whole text is shown. */
    predicate Valid()
      reads this
    {
      && currentIndex <= |text|
      && displayedText == text[..currentIndex]
      && (tickPending <==> currentIndex < |text|)
      && (completions > 0 ==> currentIndex == |text|)
    }

    /** The blinking cursor is rendered. */
    predicate CursorShown()
      reads this
    {
      currentIndex < |text|
    }

    /** The effect on `currentIndex` (and the other dependencies): schedule
        the next character while any remain, otherwise call the callback. */
    method Effect()
      modifies this
      ensures tickPending == (currentIndex < |text| || old(tickPending))
      ensures completions == old(completions) + (if currentIndex == |text| && hasOnComplete then 1 else 0)
      ensures displayedText == old(displayedText) && currentIndex == old(currentIndex) && particles == old(particles)
    {
      if currentIndex < |text| {
        tickPending := true;
      } else if hasOnComplete && currentIndex == |text| {
        completions := completions + 1;
      }
    }

    /** The first render and its effect. */
    constructor(text: string, hasOnComplete: bool, showParticles: bool)
      ensures this.text == text && this.hasOnComplete == hasOnComplete && this.showParticles == showParticles
      ensures displayedText == "" && currentIndex == 0 && particles == []
      ensures tickPending == (|text| > 0)
      ensures completions == if |text| == 0 && hasOnComplete then 1 else 0
      ensures Valid()
    {
      this.text := text;
      this.hasOnComplete := hasOnComplete;
      this.showParticles := showParticles;
      displayedText := "";
      currentIndex := 0;
      tickPending := false;
      completions := 0;
      particles := [];
      new;
      Effect();
    }

    /** The pending timeout fires: the next character is appended, the index
        moves on, a particle is released when particles are shown and the
        draw exceeds the threshold, and the effect runs again on the new
        index. */
    method Tick(draw: real, id: real, x: real, y: real)
      requires Valid() && tickPending
      modifies this
      ensures displayedText == old(displayedText) + [text[old(currentIndex)]]
      ensures currentIndex == old(currentIndex) + 1
      ensures particles == old(particles) + (if showParticles && draw > ParticleThreshold then [Particle(id, x, y)] else [])
      ensures completions == old(completions) + (if currentIndex == |text| && hasOnComplete then 1 else 0)
      ensures Valid()
    {
      displayedText := displayedText + [text[currentIndex]];
      currentIndex := currentIndex + 1;
      tickPending := false;
      if showParticles && draw > ParticleThreshold {
        particles := particles + [Particle(id, x, y)];
      }
      Effect();
    }

    /** A particle's one-second timeout fires and removes it. */
    method ParticleExpires(id: real)
      modifies this
      ensures particles == WithoutParticle(old(particles), id)
      ensures displayedText == old(displayedText) && currentIndex == old(currentIndex)
      ensures tickPending == old(tickPending) && completions == old(completions)
    {
      particles := WithoutParticle(particles, id);
    }

    /** A new callback is passed in: the effect runs again, so at the end of
        the text the callback is called once more. */
    method CallbackChanged()
      requires Valid()
      modifies this
      ensures displayedText == old(displayedText) && currentIndex == old(currentIndex) && particles == old(particles)
      ensures completions == old(completions) + (if currentIndex == |text| && hasOnComplete then 1 else 0)
      ensures Valid()
    {
      Effect();
    }

    /** Every pending timeout fires in turn, without particles: the whole
        text is shown, the cursor is gone and the callback has been called
        once more, if there is one and the text was not already complete. */
    method RunToEnd()
      requires Valid()
      modifies this
      ensures displayedText == text && currentIndex == |text| && !CursorShown()
      ensures completions == old(completions) + (if old(currentIndex) < |text| && hasOnComplete then 1 else 0)
      ensures Valid()
    {
      while tickPending
        invariant Valid()
        invariant completions == old(completions) + (if old(currentIndex) < |text| && currentIndex == |text| && hasOnComplete then 1 else 0)
        invariant old(currentIndex) <= currentIndex
        decreases |text| - currentIndex
      {
        Tick(0.0, 0.0, 0.0, 0.0);
      }
    }
  }

  /** In a consistent state the cursor is shown exactly while the text
      shown is not yet the whole text, and the callback has not been called
      while it is. */
  lemma CursorWhileIncomplete(t: TypewriterText)
    requires t.Valid()
    ensures t.CursorShown() <==> t.displayedText != t.text
    ensures t.CursorShown() ==> t.completions == 0
  {
    if !t.CursorShown() {
      assert t.text[..|t.text|] == t.text;
    }
  }

  /** Typing a text from its first render reveals it completely and calls
      the callback exactly once, and an empty text completes at once. */
  method TypeWholeText(text: string) returns (shown: string, calls: nat, cursorDuring: bool)
    ensures shown == text && calls == 1
    ensures cursorDuring == (|text| > 0)
  {
    var t := new TypewriterText(text, true, false);
    cursorDuring := t.CursorShown();
    t.RunToEnd();
    shown := t.displayedText;
    calls := t.completions;
  }
}
