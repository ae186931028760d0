/**
 * The `FantaGame` object: its fields are updated in place by each of its
 * methods, and each method is proved to move the object from the state
 * `State()` describes to the one the matching function of GameState
 * gives, keeping the object invariant `Valid()`.
 *
 * The page's drop elements are the array `drops` (true = filled); the
 * attached `deviceorientation` listener is the flag `listening`.
 */
module Game {
  import opened Angles
  import opened GameState

  class FantaGame {
    var rotation: int
    var speed: int
    var lives: int
    var sips: int
    var isGameOver: bool
    var lastTiltTime: int
    var recentBetas: seq<int>
    var listening: bool
    /** The drop icons of the sip counter; their number is fixed by the page. */
    const drops: array<bool>

    /** The value of the game's fields. */
    function State(): State
      reads this
    {
      GameState.State(rotation, speed, lives, sips, isGameOver, lastTiltTime, recentBetas, listening)
    }

    /** The drop display shows the sip count: drop `i` is filled exactly when `i < sips`. */
    ghost predicate DropsShowSips()
      reads this, drops
    {
      drops[..] == FilledDrops(drops.Length, sips)
    }

    /** Object invariant. */
    ghost predicate Valid()
      reads this, drops
    {
      State().Valid() && DropsShowSips()
    }

    constructor (dropCount: nat)
      ensures Valid() && State() == Initial()
      ensures fresh(drops) && drops.Length == dropCount
    {
      drops := new bool[dropCount];
      new;
      InitializeGame();
    }

    /**
     * `initializeGame`: back to the state before the first tap. The source
     * leaves the listener alone here; only the constructor calls it, when
     * no listener has been attached yet, so `listening` is set to false.
     */
    method InitializeGame()
      modifies this, drops
      ensures Valid() && State() == Initial()
    {
      rotation := 0;
      speed := Speed;
      lives := InitialLives;
      sips := 0;
      isGameOver := false;
      lastTiltTime := 0;
      recentBetas := [];
      listening := false;
      UpdateSipsDisplay();
    }

    /** `updateSipsDisplay`: fills the first `sips` drops and empties the rest. */
    method UpdateSipsDisplay()
      modifies drops
      ensures DropsShowSips()
    {
      var i := 0;
      while i < drops.Length
        invariant 0 <= i <= drops.Length
        invariant forall j :: 0 <= j < i ==> (drops[j] <==> j < sips)
      {
        drops[i] := i < sips;
        i := i + 1;
      }
    }

    /**
     * `cleanup`: listener removed, game over, counters and rotation reset.
     * It also runs when a hit test has just pushed the counters past their
     * bounds, so it asks only for a well-formed tilt window.
     */
    method Cleanup()
      requires |recentBetas| <= WindowSize
      modifies this, drops
      ensures Valid() && State() == GameState.Cleanup(old(State()))
    {
      listening := false;
      isGameOver := true;
      rotation := 0;
      lives := InitialLives;
      sips := 0;
      speed := Speed;
      UpdateSipsDisplay();
    }

    /** `handleMotion`, for a reading `beta` (None for a missing one) arriving at time `now`. */
    method HandleMotion(beta: Option<int>, now: int)
      requires Valid()
      modifies this, drops
      ensures Valid() && State() == GameState.HandleMotion(old(State()), beta, now)
    {
      if beta.None? {
        return;
      }
      recentBetas := recentBetas + [beta.value];
      if |recentBetas| > WindowSize {
        recentBetas := recentBetas[1..];
      }
      assert recentBetas == PushBeta(old(recentBetas), beta.value);
      assert Valid();
      var movement := if |recentBetas| >= 2 then recentBetas[|recentBetas| - 1] - recentBetas[0] else 0;
      if movement > MovementThreshold && now - lastTiltTime > Cooldown {
        var _ := CheckHit();
        lastTiltTime := now;
      }
    }

    /** `start`: a fresh round, listener attached, first frame run. */
    method Start()
      requires Valid()
      modifies this, drops
      ensures Valid() && State() == GameState.Start(old(State()))
    {
      lives := InitialLives;
      sips := 0;
      isGameOver := false;
      rotation := 0;
      speed := Speed;
      UpdateSipsDisplay();
      listening := true;
      GameLoop();
    }

    /**
     * `checkHit`. The verdict says which branch ran and, when the game
     * ended, whether it was won.
     */
    method CheckHit() returns (verdict: Verdict)
      requires Valid()
      modifies this, drops
      ensures verdict == Judge(old(State()))
      ensures Valid() && State() == GameState.CheckHit(old(State()))
    {
      if InTargetZone(rotation) {
        sips := sips + 1;
        UpdateSipsDisplay();
        if sips >= WinSips {
          verdict := Won;
          EndGame();
        } else {
          verdict := Hit;
        }
      } else {
        lives := lives - 1;
        if lives <= 0 {
          verdict := Lost;
          EndGame();
        } else {
          verdict := Miss;
        }
      }
    }

    /** `endGame`: its effect on the state is that of `cleanup` (the verdict only picks the message). */
    method EndGame()
      requires |recentBetas| <= WindowSize
      modifies this, drops
      ensures Valid() && State() == GameState.Cleanup(old(State()))
    {
      Cleanup();
    }

    /** One frame of `gameLoop`. */
    method GameLoop()
      modifies this
      ensures State() == Tick(old(State()))
    {
      if !isGameOver {
        rotation := JsRem(rotation + speed);
      }
    }

    /** The browser delivering a `deviceorientation` event: only an attached listener hears it. */
    method OnDeviceOrientation(beta: Option<int>, now: int)
      requires Valid()
      modifies this, drops
      ensures Valid() && State() == Deliver(old(State()), beta, now)
    {
      if listening {
        HandleMotion(beta, now);
      }
    }
  }
}
