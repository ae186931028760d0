/**
 * Properties of whole runs of the game: the browser interleaving animation
 * frames with orientation readings, as one sequence of events.
 */
module GameProperties {
  import opened Angles
  import opened GameState

  /** What the browser hands the game: a `deviceorientation` reading or an animation frame. */
  datatype Event = Orientation(beta: Option<int>, now: int) | Frame

  function Step(s: State, e: Event): State {
    match e
    case Orientation(b, t) => Deliver(s, b, t)
    case Frame => Tick(s)
  }

  function Run(s: State, events: seq<Event>): State
    decreases |events|
  {
    if events == [] then s else Run(Step(s, events[0]), events[1..])
  }

  /** The object invariant holds after any run that starts from it. */
  lemma {:induction false} RunKeepsValid(s: State, events: seq<Event>)
    requires s.Valid()
    ensures Run(s, events).Valid()
    decreases |events|
  {
    if events != [] {
      RunKeepsValid(Step(s, events[0]), events[1..]);
    }
  }

  /**
   * A finished game stays exactly as it is: the rotation no longer
   * advances and, the listener being detached, no reading reaches it.
   */
  lemma {:induction false} GameOverIsFinal(s: State, events: seq<Event>)
    requires s.Valid() && s.isGameOver
    ensures Run(s, events) == s
    decreases |events|
  {
    if events != [] {
      GameOverIsFinal(Step(s, events[0]), events[1..]);
    }
  }

  /** One event that does not end the game never takes a sip away nor gives a life back. */
  lemma StepIsMonotone(s: State, e: Event)
    requires s.Valid() && !s.isGameOver
    ensures var r := Step(s, e);
      !r.isGameOver ==> r.sips >= s.sips && r.lives <= s.lives
  {
  }

  /**
   * As long as the game has not ended, sips only go up and lives only
   * go down, whatever readings and frames arrive.
   */
  lemma {:induction false} ScoreIsMonotone(s: State, events: seq<Event>)
    requires s.Valid()
    requires !Run(s, events).isGameOver
    ensures Run(s, events).sips >= s.sips
    ensures Run(s, events).lives <= s.lives
    decreases |events|
  {
    if events != [] {
      var s1 := Step(s, events[0]);
      if s.isGameOver {
        GameOverIsFinal(s, events);
      } else if s1.isGameOver {
        GameOverIsFinal(s1, events[1..]);
      } else {
        StepIsMonotone(s, events[0]);
        ScoreIsMonotone(s1, events[1..]);
      }
    }
  }

  /**
   * One hit test ends a running game exactly when it is the fifth sip or
   * takes the last life.
   */
  lemma EndsExactlyAtFiveSipsOrNoLives(s: State)
    requires s.Valid() && !s.isGameOver
    ensures CheckHit(s).isGameOver <==>
      (InTargetZone(s.rotation) && s.sips == WinSips - 1) ||
      (!InTargetZone(s.rotation) && s.lives == 1)
  {
  }

  /** `n` animation frames. */
  function Ticks(s: State, n: nat): State {
    if n == 0 then s else Tick(Ticks(s, n - 1))
  }

  /** While the game runs, `n` frames turn the can by `n` times the speed, modulo a full turn. */
  lemma {:induction false} TicksAdvance(s: State, n: nat)
    requires s.Valid() && !s.isGameOver
    ensures Ticks(s, n) == s.(rotation := (s.rotation + n * Speed) % FullTurn)
  {
    if n > 0 {
      TicksAdvance(s, n - 1);
      var x := s.rotation + (n - 1) * Speed;
      assert x == x % FullTurn + (x / FullTurn) * FullTurn;
      AddTurns(x % FullTurn + Speed, x / FullTurn);
    }
  }

  /**
   * A round just started (its first frame has run, so the can stands at
   * 2.75 degrees): eight more frames leave it at 24.75 degrees, inside the
   * target arc; the next one takes it to 27.5 degrees, outside it.
   */
  lemma NinthFrameHitsTenthMisses(s: State)
    requires s.Valid() && !s.isGameOver && s.rotation == Speed
    ensures Ticks(s, 8).rotation == 2475 && InTargetZone(Ticks(s, 8).rotation)
    ensures Ticks(s, 9).rotation == 2750 && !InTargetZone(Ticks(s, 9).rotation)
  {
    TicksAdvance(s, 8);
    TicksAdvance(s, 9);
  }

  /** The readings `betas` fed one by one into the window `w`. */
  function PushAll(w: seq<int>, betas: seq<int>): seq<int>
    decreases |betas|
  {
    if betas == [] then w else PushAll(PushBeta(w, betas[0]), betas[1..])
  }

  /** The newest readings of `x`, at most three of them. */
  function Latest(x: seq<int>): (r: seq<int>)
    ensures |r| <= WindowSize
  {
    if |x| <= WindowSize then x else x[|x| - WindowSize..]
  }

  /** One push keeps exactly the latest readings. */
  lemma PushBetaKeepsLatest(w: seq<int>, b: int)
    requires |w| <= WindowSize
    ensures PushBeta(w, b) == Latest(w + [b])
  {
  }

  /** Taking the latest readings first does not change the latest readings of a longer history. */
  lemma LatestOfAppended(x: seq<int>, b: int)
    ensures Latest(Latest(x) + [b]) == Latest(x + [b])
  {
    if |x| > WindowSize {
      assert Latest(x) + [b] == (x + [b])[|x| - WindowSize..];
      assert (Latest(x) + [b])[1..] == (x + [b])[|x| + 1 - WindowSize..];
    }
  }

  /**
   * The tilt window always holds the newest three readings (or all of
   * them, if fewer have arrived), oldest first.
   */
  lemma {:induction false} WindowHoldsLatestReadings(w: seq<int>, betas: seq<int>)
    requires |w| <= WindowSize
    ensures PushAll(w, betas) == Latest(w + betas)
    decreases |betas|
  {
    if betas != [] {
      var b, rest := betas[0], betas[1..];
      var w1 := PushBeta(w, b);
      calc {
        PushAll(w, betas);
        PushAll(w1, rest);
        { WindowHoldsLatestReadings(w1, rest); }
        Latest(w1 + rest);
        { PushBetaKeepsLatest(w, b); }
        Latest(Latest(w + [b]) + rest);
        { LatestSuffix(w + [b], rest); }
        Latest((w + [b]) + rest);
        { assert (w + [b]) + rest == w + betas; }
        Latest(w + betas);
      }
    }
  }

  /** The latest readings of a history extended by `y` only depend on the latest readings before. */
  lemma {:induction false} LatestSuffix(x: seq<int>, y: seq<int>)
    ensures Latest(Latest(x) + y) == Latest(x + y)
    decreases |y|
  {
    if y != [] {
      var b := y[|y| - 1];
      var y0 := y[..|y| - 1];
      assert y == y0 + [b];
      LatestSuffix(x, y0);
      assert Latest(x) + y == (Latest(x) + y0) + [b];
      assert x + y == (x + y0) + [b];
      LatestOfAppended(Latest(x) + y0, b);
      LatestOfAppended(x + y0, b);
    }
  }

  /**
   * Three misses, each far enough from the last, lose a game that has all
   * its lives; after that neither readings nor frames change anything.
   */
  lemma ThreeMissesLose(s: State, later: seq<Event>)
    requires s.Valid() && s.listening && s.lives == InitialLives
    requires !InTargetZone(s.rotation) && s.recentBetas == [] && s.lastTiltTime <= 800
    ensures var r := Run(s, [Orientation(Some(0), 1000), Orientation(Some(900), 1100),
                             Orientation(Some(1800), 1400), Orientation(Some(2700), 1700)]);
      r.isGameOver && !r.listening && r.lives == InitialLives && r.sips == 0 &&
      Run(r, later) == r
  {
    var s1 := Step(s, Orientation(Some(0), 1000));
    assert s1 == s.(recentBetas := [0]);
    var s2 := Step(s1, Orientation(Some(900), 1100));
    assert s2 == s.(recentBetas := [0, 900], lives := 2, lastTiltTime := 1100);
    var s3 := Step(s2, Orientation(Some(1800), 1400));
    assert s3 == s.(recentBetas := [0, 900, 1800], lives := 1, lastTiltTime := 1400);
    var s4 := Step(s3, Orientation(Some(2700), 1700));
    assert s4 == Cleanup(s.(recentBetas := [900, 1800, 2700], lastTiltTime := 1700));
    var events := [Orientation(Some(0), 1000), Orientation(Some(900), 1100),
                   Orientation(Some(1800), 1400), Orientation(Some(2700), 1700)];
    assert Run(s, events) == Run(s1, events[1..]);
    assert Run(s1, events[1..]) == Run(s2, events[2..]);
    assert Run(s2, events[2..]) == Run(s3, events[3..]);
    assert Run(s3, events[3..]) == Run(s4, []);
    GameOverIsFinal(s4, later);
  }
}
