/** The spell-tracing challenge (src/features/game/hooks/useSpellChallenge.ts):
    the player traces a circle of radius 120 around (300, 300) with the mouse,
    within the challenge's tolerance, not faster than 800 px/s, passing over
    the checkpoints in order before the time runs out.

    Each mouse event, each tick of the 100 ms interval, the mount effect and
    the expiry of the speed warning become one method of the hook. What the
    source computes with square roots is decided here on squared distances; the
    lemmas at the end show the two agree. The checkpoint positions, which the
    source computes with cosines and sines, are given. The callbacks are
    recorded: `failCalls` counts the calls of `onFail`, `results` lists what
    `onComplete` received. */
module SpellChallenge {
  import opened Prelude
  import opened ChallengeConfig

  datatype Point = Point(x: real, y: real)

  const Center: Point := Point(300.0, 300.0)
  const Radius: real := 120.0
  const StartLives: int := 3
  /** The interval of the countdown, in milliseconds. */
  const TickMs: int := 100

  function SquaredDistance(a: Point, b: Point): real {
    (a.x - b.x) * (a.x - b.x) + (a.y - b.y) * (a.y - b.y)
  }

  /** `|distance - radius| <= tolerance`, given the squared distance `s` from
      the center. */
  predicate OnRing(s: real, tolerance: real) {
    && 0.0 <= tolerance
    && s <= (Radius + tolerance) * (Radius + tolerance)
    && (Radius <= tolerance || (Radius - tolerance) * (Radius - tolerance) <= s)
  }

  /** A move of squared length `moved2` in `dt` milliseconds is faster than
      800 px/s; a non-positive `dt` counts as speed 0. */
  predicate TooFast(moved2: real, dt: int) {
    dt > 0 && moved2 * 1000000.0 > 640000.0 * (dt as real) * (dt as real)
  }

  /** The mouse is within 20 px of a checkpoint. */
  predicate OnCheckpoint(s: real) {
    s < 400.0
  }

  /** The progress bar after `k` of `n` checkpoints, in percent. */
  function Progress(k: int, n: int): real {
    if n == 0 then 0.0 else (k as real) / (n as real) * 100.0
  }

  /** Everything the hook keeps between events: its state variables, its
      refs, the pending timers and the callbacks made so far. */
  datatype ChallengeState = ChallengeState(
    mousePosition: Point,
    progress: real,
    isActive: bool,
    hasStarted: bool,
    failed: bool,
    timeRemaining: int,
    currentCheckpoint: int,
    checkpointsValidated: seq<bool>,
    lives: int,
    showSpeedWarning: bool,
    warningTimers: nat,
    timerRunning: bool,
    startTime: int,
    lastMoveTime: int,
    lastMousePos: Point,
    failCalls: nat,
    results: seq<ChallengeResult>)

  /** The first render: inactive, not started, three lives, the whole time
      left, no checkpoint passed and no progress. */
  function InitialState(c: Challenge): (s: ChallengeState)
    requires c.controlPoints >= 0
  {
    ChallengeState(Point(0.0, 0.0), 0.0, false, false, false, c.duration, 0,
                   seq(c.controlPoints, _ => false), StartLives, false, 0, false,
                   0, 0, Point(0.0, 0.0), 0, [])
  }

  /** The challenge fails: `failed`, inactive, and `onFail` called. */
  function Fail(s: ChallengeState): ChallengeState {
    s.(failed := true, isActive := false, failCalls := s.failCalls + 1)
  }

  /** The speed check of a sample after the start: a move too fast shows the
      warning (with a timer to hide it) and costs one life, and the last life
      fails the challenge. */
  function SpeedCheck(s: ChallengeState, p: Point, now: int): ChallengeState {
    if TooFast(SquaredDistance(p, s.lastMousePos), now - s.lastMoveTime) then
      var t := s.(showSpeedWarning := true, warningTimers := s.warningTimers + 1, lives := s.lives - 1);
      if t.lives <= 0 then Fail(t) else t
    else s
  }

  /** Whether the sample lands on checkpoint `index`, the current one when
      the event began, not yet validated then. */
  predicate Hits(points: seq<Point>, index: int, validated: seq<bool>, p: Point) {
    0 <= index < |points| && index < |validated| && !validated[index]
    && OnCheckpoint(SquaredDistance(p, points[index]))
  }

  /** Validating checkpoint `index`: it is marked, the next one becomes
      current, the progress follows, and the last one completes the
      challenge with the bonus, the drawn hint and the time since the start. */
  function Validate(s: ChallengeState, n: int, index: int, now: int, draw: real): (r: ChallengeState)
    requires 0 <= index < |s.checkpointsValidated|
    ensures |r.checkpointsValidated| == |s.checkpointsValidated| && r.checkpointsValidated[index]
    ensures forall i | 0 <= i < |s.checkpointsValidated| && i != index ::
      r.checkpointsValidated[i] == s.checkpointsValidated[i]
    ensures r.currentCheckpoint == index + 1
    ensures |r.results| == |s.results| + (if index + 1 == n then 1 else 0)
    ensures r.isActive == (s.isActive && index + 1 != n)
    ensures r.lives == s.lives && r.failCalls == s.failCalls && r.timeRemaining == s.timeRemaining
  {
    var t := s.(checkpointsValidated := s.checkpointsValidated[index := true],
                currentCheckpoint := index + 1,
                progress := Progress(index + 1, n));
    if index + 1 == n then
      t.(isActive := false,
         results := t.results + [ChallengeResult(true, XpBonus, draw < HintRevealChance, None, Some(now - t.startTime))])
    else t
  }

  /** The part of a sample after the start that runs on the ring: the speed
      check against the previous sample, then the refs move to this one. */
  function Moved(s: ChallengeState, p: Point, now: int): (r: ChallengeState)
    ensures r.lastMousePos == p && r.lastMoveTime == now
    ensures var fast := TooFast(SquaredDistance(p, s.lastMousePos), now - s.lastMoveTime);
      && r.lives == s.lives - (if fast then 1 else 0)
      && r.failCalls == s.failCalls + (if fast && s.lives <= 1 then 1 else 0)
    ensures r.checkpointsValidated == s.checkpointsValidated && r.currentCheckpoint == s.currentCheckpoint
    ensures r.results == s.results && r.timeRemaining == s.timeRemaining
  {
    SpeedCheck(s, p, now).(lastMoveTime := now, lastMousePos := p)
  }

  /** The checkpoint test of a sample after the start, against the current
      checkpoint and the validated flags of `before`, the state the event
      began with, applied to `s`. */
  function Checkpoint(c: Challenge, points: seq<Point>, before: ChallengeState, s: ChallengeState,
                      p: Point, now: int, draw: real): (r: ChallengeState)
    ensures r.currentCheckpoint == s.currentCheckpoint || r.currentCheckpoint == before.currentCheckpoint + 1
    ensures r.lives == s.lives && r.failCalls == s.failCalls && r.timeRemaining == s.timeRemaining
    ensures |s.results| <= |r.results| <= |s.results| + 1
  {
    var k := before.currentCheckpoint;
    if Hits(points, k, before.checkpointsValidated, p) && k < |s.checkpointsValidated|
    then Validate(s, c.controlPoints, k, now, draw)
    else s
  }

  /** One mouse event at `p` and time `now`; `draw` is `Math.random()`. The
      checks read the state as it was when the event began, so the sample
      that starts the challenge is checked for nothing else. */
  function AfterSample(c: Challenge, points: seq<Point>, s: ChallengeState,
                       p: Point, now: int, draw: real): (r: ChallengeState)
    ensures !s.isActive ==> r == s
    ensures r.timeRemaining == s.timeRemaining
    ensures s.lives - 1 <= r.lives <= s.lives
    ensures s.failCalls <= r.failCalls <= s.failCalls + 1
    ensures r.failCalls > s.failCalls ==> r.failed && !r.isActive
  {
    if !s.isActive then s
    else if !OnRing(SquaredDistance(p, Center), c.tolerance as real) then
      if s.hasStarted then Fail(s.(mousePosition := p)) else s.(mousePosition := p)
    else if !s.hasStarted then
      s.(mousePosition := p, hasStarted := true, startTime := now, lastMoveTime := now, lastMousePos := p)
    else Checkpoint(c, points, s, Moved(s.(mousePosition := p), p, now), p, now, draw)
  }

  /** One tick of the countdown. The interval is never cleared, so it keeps
      failing the challenge once the time is out. */
  function AfterTick(s: ChallengeState): (r: ChallengeState)
    ensures 0 <= r.timeRemaining && (r.timeRemaining == 0 || r.timeRemaining == s.timeRemaining - TickMs)
    ensures r.timeRemaining < s.timeRemaining || s.timeRemaining <= 0
    ensures r.failCalls == s.failCalls + (if r.timeRemaining == 0 then 1 else 0)
    ensures r.checkpointsValidated == s.checkpointsValidated && r.results == s.results && r.lives == s.lives
  {
    if s.timeRemaining <= TickMs then Fail(s).(timeRemaining := 0)
    else s.(timeRemaining := s.timeRemaining - TickMs)
  }

  /** The mount effect: active, and the interval started. */
  function AfterStart(s: ChallengeState): ChallengeState {
    s.(isActive := true, timerRunning := true)
  }

  /** The timeout of one speed warning hides the warning. */
  function AfterWarningExpires(s: ChallengeState): ChallengeState
    requires s.warningTimers > 0
  {
    s.(showSpeedWarning := false, warningTimers := s.warningTimers - 1)
  }

  /** What holds of the hook at every point: the validated checkpoints are
      exactly those before the current one, the progress matches them, the
      time left is never negative (and a whole number of ticks when the
      limit is), nothing moves before the start, and `onComplete` has run
      once exactly when every checkpoint is validated. */
  predicate Consistent(c: Challenge, points: seq<Point>, s: ChallengeState) {
    && |points| == c.controlPoints
    && |s.checkpointsValidated| == |points|
    && 0 <= s.currentCheckpoint <= |points|
    && (forall i | 0 <= i < |points| :: s.checkpointsValidated[i] <==> i < s.currentCheckpoint)
    && s.progress == Progress(s.currentCheckpoint, |points|)
    && 0 <= s.timeRemaining
    && (c.duration % TickMs == 0 ==> s.timeRemaining % TickMs == 0)
    && s.lives <= StartLives
    && (!s.hasStarted ==> s.currentCheckpoint == 0 && s.lives == StartLives)
    && (s.showSpeedWarning ==> s.warningTimers > 0)
    && |s.results| == (if 0 < |points| == s.currentCheckpoint then 1 else 0)
    && (forall r | r in s.results :: r.success && r.xpBonus == XpBonus && r.hint.None?)
  }

  lemma InitialIsConsistent(c: Challenge, points: seq<Point>)
    requires |points| == c.controlPoints && c.duration >= 0
    ensures var s := InitialState(c);
      && Consistent(c, points, s)
      && !s.isActive && !s.hasStarted && !s.failed && s.lives == 3
      && s.timeRemaining == c.duration && s.currentCheckpoint == 0 && s.progress == 0.0
      && s.checkpointsValidated == seq(c.controlPoints, _ => false)
  {
  }

  /** The speed check and the move of the refs touch neither the
      checkpoints, nor the clock, nor the results. */
  lemma MovedKeepsConsistent(c: Challenge, points: seq<Point>, s: ChallengeState, p: Point, now: int)
    requires Consistent(c, points, s) && s.hasStarted
    ensures var m := Moved(s, p, now);
      && Consistent(c, points, m)
      && m.checkpointsValidated == s.checkpointsValidated && m.currentCheckpoint == s.currentCheckpoint
      && m.results == s.results && m.startTime == s.startTime && m.hasStarted
  {
  }

  lemma {:induction false} CheckpointKeepsConsistent(c: Challenge, points: seq<Point>, before: ChallengeState,
                                                    s: ChallengeState, p: Point, now: int, draw: real)
    requires Consistent(c, points, s) && s.hasStarted
    requires s.checkpointsValidated == before.checkpointsValidated && s.currentCheckpoint == before.currentCheckpoint
    ensures Consistent(c, points, Checkpoint(c, points, before, s, p, now, draw))
  {
    var k := s.currentCheckpoint;
    if Hits(points, k, s.checkpointsValidated, p) {
      var r := Validate(s, c.controlPoints, k, now, draw);
      assert k < |points|;
      assert !s.checkpointsValidated[k];
      assert k + 1 <= |points|;
      forall i | 0 <= i < |points|
        ensures r.checkpointsValidated[i] <==> i < r.currentCheckpoint
      {
        if i != k {
          assert r.checkpointsValidated[i] == s.checkpointsValidated[i];
        }
      }
      if k + 1 == |points| {
        assert |s.results| == 0;
        assert r.results == [ChallengeResult(true, XpBonus, draw < HintRevealChance, None, Some(now - s.startTime))];
      } else {
        assert r.results == s.results;
      }
    }
  }

  lemma {:induction false} SampleKeepsConsistent(c: Challenge, points: seq<Point>, s: ChallengeState,
                                                p: Point, now: int, draw: real)
    requires Consistent(c, points, s)
    ensures Consistent(c, points, AfterSample(c, points, s, p, now, draw))
  {
    if s.isActive && s.hasStarted && OnRing(SquaredDistance(p, Center), c.tolerance as real) {
      var m := Moved(s.(mousePosition := p), p, now);
      MovedKeepsConsistent(c, points, s.(mousePosition := p), p, now);
      CheckpointKeepsConsistent(c, points, s, m, p, now, draw);
    }
  }

  lemma TickKeepsConsistent(c: Challenge, points: seq<Point>, s: ChallengeState)
    requires Consistent(c, points, s)
    ensures Consistent(c, points, AfterTick(s))
  {
  }

  lemma StartKeepsConsistent(c: Challenge, points: seq<Point>, s: ChallengeState)
    requires Consistent(c, points, s)
    ensures Consistent(c, points, AfterStart(s))
  {
  }

  lemma WarningExpiryKeepsConsistent(c: Challenge, points: seq<Point>, s: ChallengeState)
    requires Consistent(c, points, s) && s.warningTimers > 0
    ensures Consistent(c, points, AfterWarningExpires(s))
  {
  }

  /** While inactive a sample changes nothing. */
  lemma InactiveIgnoresSamples(c: Challenge, points: seq<Point>, s: ChallengeState,
                               p: Point, now: int, draw: real)
    requires !s.isActive
    ensures AfterSample(c, points, s, p, now, draw) == s
  {
  }

  /** The first sample on the ring starts the challenge and records where and
      when; that same sample is not checked for speed or checkpoints. */
  lemma FirstSampleOnRingOnlyStarts(c: Challenge, points: seq<Point>, s: ChallengeState,
                                    p: Point, now: int, draw: real)
    requires s.isActive && !s.hasStarted && OnRing(SquaredDistance(p, Center), c.tolerance as real)
    ensures var r := AfterSample(c, points, s, p, now, draw);
      && r.hasStarted && r.startTime == now && r.lastMoveTime == now && r.lastMousePos == p
      && r.lives == s.lives && r.currentCheckpoint == s.currentCheckpoint
      && r.checkpointsValidated == s.checkpointsValidated && r.isActive && r.failed == s.failed
      && r.failCalls == s.failCalls && r.results == s.results
  {
  }

  /** Before the start, leaving the ring is harmless. */
  lemma OffRingBeforeStartIsHarmless(c: Challenge, points: seq<Point>, s: ChallengeState,
                                     p: Point, now: int, draw: real)
    requires s.isActive && !s.hasStarted && !OnRing(SquaredDistance(p, Center), c.tolerance as real)
    ensures AfterSample(c, points, s, p, now, draw) == s.(mousePosition := p)
  {
  }

  /** After the start, leaving the ring fails the challenge at once and
      nothing else is checked. */
  lemma LeavingTheRingFails(c: Challenge, points: seq<Point>, s: ChallengeState,
                            p: Point, now: int, draw: real)
    requires s.isActive && s.hasStarted && !OnRing(SquaredDistance(p, Center), c.tolerance as real)
    ensures var r := AfterSample(c, points, s, p, now, draw);
      r == Fail(s.(mousePosition := p)) && r.failed && !r.isActive && r.failCalls == s.failCalls + 1
  {
  }

  /** After the start, a sample on the ring loses exactly one life when it is
      too fast and none otherwise; losing the last one fails the challenge. */
  lemma TooFastCostsOneLife(c: Challenge, points: seq<Point>, s: ChallengeState,
                            p: Point, now: int, draw: real)
    requires s.isActive && s.hasStarted && OnRing(SquaredDistance(p, Center), c.tolerance as real)
    ensures var r := AfterSample(c, points, s, p, now, draw);
      var fast := TooFast(SquaredDistance(p, s.lastMousePos), now - s.lastMoveTime);
      && r.lives == (if fast then s.lives - 1 else s.lives)
      && (fast ==> r.showSpeedWarning)
      && (fast && s.lives <= 1 ==> r.failed && r.failCalls >= s.failCalls + 1)
      && r.lastMoveTime == now && r.lastMousePos == p
  {
  }

  /** Only the current checkpoint can be validated, by at most one step, and
      a validated checkpoint stays validated. */
  lemma {:induction false} CheckpointsAdvanceInOrder(c: Challenge, points: seq<Point>, s: ChallengeState,
                                                    p: Point, now: int, draw: real)
    requires Consistent(c, points, s)
    ensures var r := AfterSample(c, points, s, p, now, draw);
      && |r.checkpointsValidated| == |points|
      && (r.currentCheckpoint == s.currentCheckpoint || r.currentCheckpoint == s.currentCheckpoint + 1)
      && (forall i | 0 <= i < |points| && i != s.currentCheckpoint ::
            r.checkpointsValidated[i] == s.checkpointsValidated[i])
      && (forall i | 0 <= i < |points| :: s.checkpointsValidated[i] ==> r.checkpointsValidated[i])
      && (r.currentCheckpoint == s.currentCheckpoint + 1 <==>
            s.isActive && s.hasStarted && OnRing(SquaredDistance(p, Center), c.tolerance as real)
            && Hits(points, s.currentCheckpoint, s.checkpointsValidated, p))
  {
    SampleKeepsConsistent(c, points, s, p, now, draw);
  }

  /** Validating the last checkpoint ends the challenge and reports a success
      with the bonus, the drawn hint, no hint text and the time taken. */
  lemma {:induction false} LastCheckpointCompletes(c: Challenge, points: seq<Point>, s: ChallengeState,
                                                  p: Point, now: int, draw: real)
    requires Consistent(c, points, s)
    requires s.isActive && s.hasStarted && OnRing(SquaredDistance(p, Center), c.tolerance as real)
    requires Hits(points, s.currentCheckpoint, s.checkpointsValidated, p) && s.currentCheckpoint + 1 == |points|
    ensures var r := AfterSample(c, points, s, p, now, draw);
      && !r.isActive && r.currentCheckpoint == |points|
      && r.results == s.results +
           [ChallengeResult(true, 30, draw < 0.2, None, Some(now - s.startTime))]
      && r.progress == 100.0
  {
    var m := Moved(s.(mousePosition := p), p, now);
    assert m.results == s.results && m.startTime == s.startTime
        && m.checkpointsValidated == s.checkpointsValidated;
    assert AfterSample(c, points, s, p, now, draw) == Validate(m, c.controlPoints, s.currentCheckpoint, now, draw);
    ValidateLast(m, c.controlPoints, s.currentCheckpoint, now, draw);
  }

  /** Validating the checkpoint numbered `n - 1` of `n`. */
  lemma ValidateLast(s: ChallengeState, n: int, index: int, now: int, draw: real)
    requires 0 <= index < |s.checkpointsValidated| && index + 1 == n
    ensures var r := Validate(s, n, index, now, draw);
      && !r.isActive && r.currentCheckpoint == n && r.progress == 100.0
      && r.results == s.results + [ChallengeResult(true, 30, draw < 0.2, None, Some(now - s.startTime))]
  {
    var k := n as real;
    assert k / k == 1.0;
  }

  /** A tick with at most 100 ms left fails the challenge and leaves 0;
      otherwise it takes 100 ms off. It never leaves a negative time. */
  lemma TickCountsDown(s: ChallengeState)
    ensures var r := AfterTick(s);
      && (s.timeRemaining <= 100 ==> r.timeRemaining == 0 && r.failed && !r.isActive
                                       && r.failCalls == s.failCalls + 1)
      && (s.timeRemaining > 100 ==> r.timeRemaining == s.timeRemaining - 100 && r.failed == s.failed
                                      && r.isActive == s.isActive)
      && r.timeRemaining >= 0
  {
  }

  /** On a consistent state with a limit in whole ticks, the countdown passes
      through exactly 0: the tick that fails is the one that had 100 ms
      left, or a later one. */
  lemma TickReachesZeroExactly(c: Challenge, points: seq<Point>, s: ChallengeState)
    requires Consistent(c, points, s) && c.duration % 100 == 0 && s.timeRemaining > 0
    ensures AfterTick(s).failed && !s.failed ==> s.timeRemaining == 100
  {
  }

  /** The interval is not cleared on a success: once the time is out that
      follows, every further tick calls `onFail` again. */
  lemma TimeoutKeepsFailing(s: ChallengeState)
    requires s.timeRemaining == 0
    ensures AfterTick(s).failCalls == s.failCalls + 1 && AfterTick(AfterTick(s)).failCalls == s.failCalls + 2
  {
  }

  /** The sample that costs the last life still runs the checkpoint test, so
      one sample can both fail the challenge and complete it. */
  lemma LastLifeAndLastCheckpointInOneSample()
    ensures var c := Config(Fire).(controlPoints := 1);
      var points := [Point(300.0, 420.0)];
      var s := InitialState(c).(isActive := true, hasStarted := true, lives := 1,
                                lastMousePos := Point(300.0, 180.0), lastMoveTime := 2, checkpointsValidated := [false]);
      var r := AfterSample(c, points, s, Point(300.0, 420.0), 3, 0.5);
      r.failed && r.failCalls == 1 && |r.results| == 1 && r.results[0].success
  {
  }

  // The squared comparisons agree with the source's square roots.

  function AbsReal(x: real): real {
    if x < 0.0 then -x else x
  }

  /** For non-negative numbers squaring keeps the order. */
  lemma SquareMonotone(a: real, b: real)
    requires 0.0 <= a && 0.0 <= b
    ensures a <= b <==> a * a <= b * b
  {
    if a <= b {
      assert a * a <= a * b;
      assert a * b <= b * b;
    } else {
      assert a - b > 0.0 && a + b > 0.0;
      assert (a - b) * (a + b) > 0.0;
      assert (a - b) * (a + b) == a * a - b * b;
    }
  }

  /** With `d` the distance from the center, `OnRing` is the source's test
      `|d - 120| <= tolerance`. */
  lemma OnRingIsWithinTolerance(d: real, tolerance: real)
    requires 0.0 <= d
    ensures OnRing(d * d, tolerance) <==> AbsReal(d - Radius) <= tolerance
  {
    if 0.0 <= tolerance {
      SquareMonotone(d, Radius + tolerance);
      if tolerance < Radius {
        SquareMonotone(Radius - tolerance, d);
      }
    }
  }

  /** The source's speed in px/s: distance over elapsed time, 0 when no time
      elapsed. */
  function Speed(moved: real, dt: int): real {
    if dt > 0 then moved / (dt as real) * 1000.0 else 0.0
  }

  /** With `moved` the distance moved, `TooFast` is the source's test
      `speed > 800`. */
  lemma TooFastIsSpeedOver800(moved: real, dt: int)
    requires 0.0 <= moved
    ensures TooFast(moved * moved, dt) <==> Speed(moved, dt) > 800.0
  {
    if dt > 0 {
      var t := dt as real;
      var q := moved / t;
      assert q * t == moved;
      PositiveFactor(q - 0.8, t);
      assert (q - 0.8) * t == moved - 0.8 * t;
      assert Speed(moved, dt) > 800.0 <==> moved > 0.8 * t;
      SquareMonotone(moved, 0.8 * t);
      assert (0.8 * t) * (0.8 * t) == 0.64 * (t * t);
    }
  }

  lemma PositiveFactor(x: real, t: real)
    requires t > 0.0
    ensures x > 0.0 <==> x * t > 0.0
  {
    if x > 0.0 {
      assert x * t > 0.0;
    } else {
      assert -x >= 0.0;
      assert (-x) * t >= 0.0;
    }
  }

  /** With `d` the distance to a checkpoint, `OnCheckpoint` is `d < 20`. */
  lemma OnCheckpointIsWithin20(d: real)
    requires 0.0 <= d
    ensures OnCheckpoint(d * d) <==> d < 20.0
  {
    SquareMonotone(20.0, d);
  }

  /** The hook. Its state variables and refs live in one record, `state`,
      which each handler updates step by step as the source does. */
  class SpellChallengeHook {
    const challenge: Challenge
    /** The checkpoints, from the top of the circle round. */
    const points: seq<Point>
    var state: ChallengeState

    predicate Valid()
      reads this
    {
      Consistent(challenge, points, state)
    }

    constructor(challenge: Challenge, points: seq<Point>)
      requires |points| == challenge.controlPoints && challenge.duration >= 0
      ensures this.challenge == challenge && this.points == points
      ensures state == InitialState(challenge)
      ensures Valid()
    {
      this.challenge := challenge;
      this.points := points;
      state := ChallengeState(Point(0.0, 0.0), 0.0, false, false, false, challenge.duration, 0,
                              seq(challenge.controlPoints, _ => false), StartLives, false, 0, false,
                              0, 0, Point(0.0, 0.0), 0, []);
      new;
      InitialIsConsistent(challenge, points);
    }

    /** The mount effect: the challenge becomes active and the interval
        starts. */
    method Start()
      requires Valid()
      modifies this
      ensures state == AfterStart(old(state))
      ensures Valid()
    {
      StartKeepsConsistent(challenge, points, state);
      state := state.(isActive := true);
      state := state.(timerRunning := true);
    }

    method Fails()
      modifies this
      ensures state == Fail(old(state))
    {
      state := state.(failed := true);
      state := state.(isActive := false);
      state := state.(failCalls := state.failCalls + 1);
    }

    /** `handleMouseMove` on a sample at `p`, at time `now`, with `draw` the
        value `Math.random()` gives. */
    method Sample(p: Point, now: int, draw: real)
      requires Valid()
      modifies this
      ensures state == AfterSample(challenge, points, old(state), p, now, draw)
      ensures Valid()
    {
      SampleKeepsConsistent(challenge, points, state, p, now, draw);
      if !state.isActive {
        return;
      }
      var before := state;
      state := state.(mousePosition := p);
      var onRing := OnRing(SquaredDistance(p, Center), challenge.tolerance as real);
      if !before.hasStarted && onRing {
        state := state.(hasStarted := true, startTime := now, lastMoveTime := now, lastMousePos := p);
      }
      if before.hasStarted && !onRing {
        Fails();
        return;
      }
      if before.hasStarted {
        CheckSpeed(p, now);
        CheckCheckpoints(before, p, now, draw);
      }
    }

    /** The speed check of a sample after the start, then the refs move to
        the sample. */
    method CheckSpeed(p: Point, now: int)
      modifies this
      ensures state == Moved(old(state), p, now)
    {
      if TooFast(SquaredDistance(p, state.lastMousePos), now - state.lastMoveTime) {
        state := state.(showSpeedWarning := true, warningTimers := state.warningTimers + 1);
        state := state.(lives := state.lives - 1);
        if state.lives <= 0 {
          Fails();
        }
      }
      state := state.(lastMoveTime := now, lastMousePos := p);
    }

    /** `controlPoints.forEach`: only the checkpoint that was current when the
        event began, if it was not validated then, is tested. */
    method CheckCheckpoints(before: ChallengeState, p: Point, now: int, draw: real)
      modifies this
      ensures state == Checkpoint(challenge, points, before, old(state), p, now, draw)
    {
      ghost var start := state;
      var index := 0;
      while index < |points|
        invariant 0 <= index <= |points|
        invariant state == if before.currentCheckpoint < index then Checkpoint(challenge, points, before, start, p, now, draw)
                           else start
      {
        if index == before.currentCheckpoint && index < |before.checkpointsValidated|
           && !before.checkpointsValidated[index] && OnCheckpoint(SquaredDistance(p, points[index]))
           && index < |state.checkpointsValidated| {
          state := state.(checkpointsValidated := state.checkpointsValidated[index := true]);
          state := state.(currentCheckpoint := index + 1);
          state := state.(progress := Progress(index + 1, challenge.controlPoints));
          if index + 1 == challenge.controlPoints {
            state := state.(isActive := false);
            var result := ChallengeResult(true, XpBonus, draw < HintRevealChance, None, Some(now - state.startTime));
            state := state.(results := state.results + [result]);
          }
        }
        index := index + 1;
      }
    }

    /** One firing of the 100 ms interval. */
    method Tick()
      requires Valid() && state.timerRunning
      modifies this
      ensures state == AfterTick(old(state))
      ensures Valid()
    {
      TickKeepsConsistent(challenge, points, state);
      if state.timeRemaining <= TickMs {
        Fails();
        state := state.(timeRemaining := 0);
      } else {
        state := state.(timeRemaining := state.timeRemaining - TickMs);
      }
    }

    /** The 500 ms timeout of one speed warning. */
    method WarningExpires()
      requires Valid() && state.warningTimers > 0
      modifies this
      ensures state == AfterWarningExpires(old(state))
      ensures Valid()
    {
      WarningExpiryKeepsConsistent(challenge, points, state);
      state := state.(showSpeedWarning := false, warningTimers := state.warningTimers - 1);
    }
  }
}
