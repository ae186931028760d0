/**
 * The state of one Fanta game and the effect of each of its operations,
 * as functions on values. The class in module Game updates its fields in
 * place and is proved to follow these functions step by step; the lemmas
 * in module GameProperties reason about runs of them.
 *
 * Units: angles and the tilt angle `beta` in hundredths of a degree,
 * times in milliseconds.
 */
module GameState {
  import opened Angles

  datatype Option<T> = None | Some(value: T)

  /** Degrees added to the rotation per animation frame: 2.75. */
  const Speed := 275
  /** Lives at the start of a game. */
  const InitialLives := 3
  /** Sips needed to win. */
  const WinSips := 5
  /** Number of recent tilt readings kept. */
  const WindowSize := 3
  /** A tilt fires only when the window rose by more than 8 degrees. */
  const MovementThreshold := 800
  /** A tilt fires only more than 200 ms after the last one that fired. */
  const Cooldown := 200

  /**
   * The fields of a game. `listening` says whether the game's
   * `deviceorientation` listener is attached to the window.
   */
  datatype State = State(
    rotation: int,
    speed: int,
    lives: int,
    sips: int,
    isGameOver: bool,
    lastTiltTime: int,
    recentBetas: seq<int>,
    listening: bool)
  {
    /**
     * What every operation keeps: the rotation inside one turn, the speed
     * at its one value, a life left and the win not yet reached (reaching
     * either end resets the counters), at most three readings, and no
     * listener once the game is over.
     */
    predicate Valid() {
      && 0 <= rotation < FullTurn
      && speed == Speed
      && 1 <= lives <= InitialLives
      && 0 <= sips < WinSips
      && |recentBetas| <= WindowSize
      && (isGameOver ==> !listening)
    }
  }

  /** The outcome of one hit test; `Won` and `Lost` are the `isWinner` argument of ending the game. */
  datatype Verdict = Hit | Miss | Won | Lost

  /** The state `initializeGame` sets up: nothing listening, no tilt seen yet. */
  function Initial(): (s: State)
    ensures s.Valid() && !s.isGameOver && !s.listening
    ensures s.rotation == 0 && s.lives == InitialLives && s.sips == 0 && s.recentBetas == []
    ensures s.speed == Speed && s.lastTiltTime == 0
  {
    State(0, Speed, InitialLives, 0, false, 0, [], false)
  }

  /**
   * `cleanup`: detaches the listener and marks the game over, but also
   * puts rotation, lives, sips and speed back to their starting values;
   * the tilt window and the time of the last tilt are kept.
   */
  function Cleanup(s: State): (r: State)
    ensures r.isGameOver && !r.listening
    ensures r.rotation == 0 && r.speed == Speed && r.lives == InitialLives && r.sips == 0
    ensures r.recentBetas == s.recentBetas && r.lastTiltTime == s.lastTiltTime
    ensures |s.recentBetas| <= WindowSize ==> r.Valid()
  {
    s.(isGameOver := true, rotation := 0, lives := InitialLives, sips := 0,
       speed := Speed, listening := false)
  }

  /**
   * One call of `gameLoop`: while the game runs the rotation advances by
   * the speed, wrapped with JavaScript's `%`; a finished game is left alone.
   */
  function Tick(s: State): (r: State)
    ensures s.isGameOver ==> r == s
    ensures !s.isGameOver ==> r == s.(rotation := r.rotation)
    ensures !s.isGameOver && s.rotation + s.speed >= 0 ==>
      r.rotation == (s.rotation + s.speed) % FullTurn
    ensures s.Valid() ==> r.Valid()
  {
    if s.isGameOver then s else s.(rotation := JsRem(s.rotation + s.speed))
  }

  /**
   * `start`: a fresh round with the listener attached, whose first frame
   * is run straight away, so the can has already turned once.
   */
  function Start(s: State): (r: State)
    ensures r.Valid() <== |s.recentBetas| <= WindowSize
    ensures !r.isGameOver && r.listening
    ensures r.lives == InitialLives && r.sips == 0 && r.speed == Speed
    ensures r.rotation == Speed
    ensures r.recentBetas == s.recentBetas && r.lastTiltTime == s.lastTiltTime
  {
    Tick(s.(lives := InitialLives, sips := 0, isGameOver := false, rotation := 0,
            speed := Speed, listening := true))
  }

  /** Which branch of `checkHit` the state takes. */
  function Judge(s: State): (v: Verdict)
    ensures v in {Hit, Won} <==> DistanceToTop(s.rotation) <= HalfArc
    ensures v == Won <==> InTargetZone(s.rotation) && s.sips + 1 >= WinSips
    ensures v == Lost <==> !InTargetZone(s.rotation) && s.lives - 1 <= 0
  {
    if InTargetZone(s.rotation) then
      if s.sips + 1 >= WinSips then Won else Hit
    else
      if s.lives - 1 <= 0 then Lost else Miss
  }

  /**
   * `checkHit`: a hit adds a sip, a miss takes a life; reaching five sips
   * or no life left ends the game, which resets the counters.
   */
  function CheckHit(s: State): (r: State)
    ensures Judge(s) == Hit ==> r == s.(sips := s.sips + 1)
    ensures Judge(s) == Miss ==> r == s.(lives := s.lives - 1)
    ensures Judge(s) in {Won, Lost} ==> r == Cleanup(s)
    ensures s.Valid() ==> r.Valid()
  {
    match Judge(s)
    case Hit => s.(sips := s.sips + 1)
    case Won => Cleanup(s.(sips := s.sips + 1))
    case Miss => s.(lives := s.lives - 1)
    case Lost => Cleanup(s.(lives := s.lives - 1))
  }

  /**
   * The tilt window after a reading: the reading is appended and, once
   * more than three are held, the oldest is dropped.
   */
  function PushBeta(w: seq<int>, beta: int): (r: seq<int>)
    ensures |r| > 0 && r[|r| - 1] == beta
    ensures |w| < WindowSize ==> r == w + [beta]
    ensures |w| == WindowSize ==> r == w[1..] + [beta]
    ensures |w| <= WindowSize ==> |r| <= WindowSize
  {
    var p := w + [beta];
    if |p| > WindowSize then p[1..] else p
  }

  /** Rise of the tilt angle across the window: newest minus oldest, or 0 below two readings. */
  function Movement(w: seq<int>): (m: int)
    ensures |w| < 2 ==> m == 0
    ensures |w| >= 2 ==> m + w[0] == w[|w| - 1]
  {
    if |w| >= 2 then w[|w| - 1] - w[0] else 0
  }

  /**
   * `handleMotion`: a missing reading is ignored; any other (0 included)
   * enters the window, and the hit test runs when the window rose by
   * more than the threshold and the cooldown since the last fired tilt
   * has passed, after which that tilt's time is remembered.
   */
  function HandleMotion(s: State, beta: Option<int>, now: int): (r: State)
    ensures beta.None? ==> r == s
    ensures beta.Some? ==> r.recentBetas == PushBeta(s.recentBetas, beta.value)
    ensures beta.Some? && s.recentBetas == [] ==> r == s.(recentBetas := [beta.value])
    ensures beta.Some? && (Movement(r.recentBetas) <= MovementThreshold || now - s.lastTiltTime <= Cooldown) ==>
      r == s.(recentBetas := r.recentBetas)
    ensures beta.Some? && Movement(r.recentBetas) > MovementThreshold && now - s.lastTiltTime > Cooldown ==>
      r == CheckHit(s.(recentBetas := r.recentBetas)).(lastTiltTime := now)
    ensures s.Valid() ==> r.Valid()
  {
    match beta
    case None => s
    case Some(b) =>
      var s1 := s.(recentBetas := PushBeta(s.recentBetas, b));
      if Movement(s1.recentBetas) > MovementThreshold && now - s1.lastTiltTime > Cooldown then
        CheckHit(s1).(lastTiltTime := now)
      else
        s1
  }

  /**
   * A reading delivered by the browser: it reaches `handleMotion` only
   * while the listener is attached.
   */
  function Deliver(s: State, beta: Option<int>, now: int): (r: State)
    ensures !s.listening ==> r == s
    ensures s.listening ==> r == HandleMotion(s, beta, now)
    ensures s.Valid() ==> r.Valid()
  {
    if s.listening then HandleMotion(s, beta, now) else s
  }

  /** `updateSipsDisplay`: drop `i` of `n` is filled exactly when `i < sips`. */
  function FilledDrops(n: nat, sips: int): (d: seq<bool>)
    ensures |d| == n
    ensures forall i :: 0 <= i < n ==> (d[i] <==> i < sips)
  {
    seq(n, i => i < sips)
  }
}
