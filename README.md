# Fanta tilt game: a verified model of `FantaGame`

The game shows a can that spins steadily. The player tilts the phone forward
when the beam is in the target arc at the top. A tilt inside the arc is a
"sip" and one outside it costs a life. Five sips win the game; losing all
three lives loses it. The `FantaGame` class in `game.js` holds this logic: a
rotation advanced once per animation frame, a window of the three most recent
`deviceorientation` readings (`beta`), a movement threshold and a cooldown
that turn readings into tilts, and the hit test.

The model has four modules:

- `Angles` (`angles.dfy`): the fixed-point angles, JavaScript's truncating `%`,
  the normalisation `((r % 360) + 360) % 360` and the target arc. The arc is
  proved equal to "within 25 degrees of the top" and symmetric about the top.
- `GameState` (`game_state.dfy`): the game's fields as a `State` value with the
  invariant `Valid()`, and one function per operation giving the state after it.
- `Game` (`game.dfy`): the class `FantaGame`, whose methods update its fields
  in place. Each method is proved to produce exactly the state the matching
  `GameState` function gives and to keep `Valid()`. The drop icons are an
  array of booleans, and the attached `deviceorientation` listener is the flag
  `listening`.
- `GameProperties` (`properties.dfy`): runs of interleaved readings and frames.
  It proves that the invariant is kept, that a finished game never changes
  again, that sips only rise and lives only fall until the game ends, that the
  window holds the newest three readings, what `n` frames do to the rotation,
  and two concrete rounds.

Units: angles, including `beta`, are in hundredths of a degree. The speed
2.75 is 275, a full turn is 36000, the arc bounds are 33500 and 2500, and the
movement threshold of 8 degrees is 800. 2.75 is exact in binary floating
point, so every rotation the game can reach is an exact multiple of a quarter
degree and the integer model loses nothing. Times are in milliseconds. The
clock (`Date.now()`) is the parameter `now`. A missing reading (`null`,
`undefined` or `NaN`, all of which the guard on `game.js:102` rejects) is
`None`; a reading of 0 is `Some(0)` and is accepted.

Where the code differs from the usual description of the game, the model
follows the code:

- `start` runs the first frame straight away (`game.js:146`), so right after
  it the rotation is 2.75 degrees, not 0.
- Ending the game runs `cleanup` (`game.js:193`). That sets the game-over
  flag and also puts lives back to 3, sips to 0 and the rotation to 0. The
  state alone therefore does not show whether the game was won; the verdict
  returned by `CheckHit` does.
- `handleMotion` and `checkHit` have no game-over guard. Readings stop
  because `cleanup` removes the listener (`game.js:82`). The model shows this
  with `Deliver`, which reaches `HandleMotion` only while `listening` holds.
- `handleMotion` reads the clock twice (`game.js:110`, `game.js:112`). The
  model reads it once, so the remembered tilt time is the time that was tested.

## Model

| member | source | states |
|---|---|---|
| `Angles.JsRem` | game.js:223 | JavaScript's `x % 360`: the result is strictly inside one turn, has the sign of `x`, and differs from `x` by whole turns |
| `Angles.Normalize` | game.js:169 | the normalised rotation lies in [0, 360) and equals the Euclidean remainder of the rotation by a full turn, for every rotation including negative ones |
| `Angles.InTargetZone` | game.js:170-171 | the hit test (normalised angle at least 335 or at most 25 degrees) holds exactly when the angle is within 25 degrees of the top, measured the shorter way round |
| `Angles.ZoneIsSymmetric` | game.js:170-171 | mirroring an angle across the top changes neither its distance to the top nor whether it is a hit |
| `Angles.ZoneBoundsAreInclusive` | game.js:171 | 25 and 335 degrees are hits and the angles a hundredth of a degree outside them are misses; 0 and 360 are hits |
| `GameState.Initial` | game.js:46-57 | a new game is valid, not over and not listening, at rotation 0 with speed 2.75, 3 lives, 0 sips, an empty window and last tilt time 0 |
| `GameState.Cleanup` | game.js:80-98 | after cleanup the game is over and not listening; rotation 0, speed 2.75, lives 3 and sips 0; window and last tilt time kept; valid whenever the window is well formed |
| `GameState.Tick` | game.js:215-227 | a finished game is unchanged; otherwise only the rotation changes, to (rotation + speed) mod 360 for non-negative sums; validity is kept |
| `GameState.Start` | game.js:122-147 | a started game is valid, running and listening, with 3 lives, 0 sips, speed 2.75 and the first frame's rotation 2.75; window and last tilt time kept |
| `GameState.Judge` | game.js:168-190 | the branch taken: a hit or a win exactly when the rotation is within 25 degrees of the top; a win exactly on a hit that brings sips to 5; a loss exactly on a miss that brings lives to 0 |
| `GameState.CheckHit` | game.js:168-190 | a plain hit adds exactly one sip and changes nothing else; a plain miss removes exactly one life and changes nothing else; a win or a loss gives the cleanup state; validity is kept |
| `GameState.PushBeta` | game.js:104-105 | the new reading is last; below 3 readings nothing is dropped, at 3 the oldest is dropped; at most 3 readings remain |
| `GameState.Movement` | game.js:107-108 | with fewer than two readings the movement is 0; otherwise it is the newest reading minus the oldest |
| `GameState.HandleMotion` | game.js:101-114 | a missing reading changes nothing; a reading always enters the window; with an empty window, a rise of at most 8 degrees, or at most 200 ms since the last tilt only the window changes; otherwise the hit test runs and the last tilt time becomes now; validity is kept |
| `GameState.Deliver` | game.js:142-143 | a reading is ignored while the listener is detached and handled by `HandleMotion` while it is attached; validity is kept |
| `GameState.FilledDrops` | game.js:116-120 | drop i of n is filled exactly when i < sips |
| `Game.FantaGame.constructor` | game.js:30-44 | a new object is valid, in the initial state, with a fresh drop array of the page's size |
| `Game.FantaGame.InitializeGame` | game.js:46-66 | the fields become the initial state and the drops show 0 sips; the listener flag is cleared, which matches the source because only the constructor calls it, before any listener is attached |
| `Game.FantaGame.UpdateSipsDisplay` | game.js:116-120 | after the loop, each drop is filled exactly when its index is below the sip count |
| `Game.FantaGame.Cleanup` | game.js:80-99 | the fields become `GameState.Cleanup` of the old fields, and the drops match the sip count |
| `Game.FantaGame.HandleMotion` | game.js:101-114 | the fields, including the window updated by push and shift, become `GameState.HandleMotion` of the old fields; the invariant is kept |
| `Game.FantaGame.Start` | game.js:122-147 | the fields become `GameState.Start` of the old fields; the invariant is kept |
| `Game.FantaGame.CheckHit` | game.js:168-190 | returns the verdict `Judge` gives for the old fields; the fields become `GameState.CheckHit` of the old fields; the invariant is kept |
| `Game.FantaGame.EndGame` | game.js:192-193 | the state change of ending the game is that of cleanup, for a won or a lost game alike |
| `Game.FantaGame.GameLoop` | game.js:215-227 | one frame moves the fields to `GameState.Tick` of the old fields |
| `Game.FantaGame.OnDeviceOrientation` | game.js:142-143 | an event reaches `handleMotion` only while the listener is attached; the fields become `Deliver` of the old fields |
| `GameProperties.RunKeepsValid` | game.js:101-114 | any sequence of readings and frames keeps the invariant |
| `GameProperties.GameOverIsFinal` | game.js:82 | once the game is over, no sequence of readings and frames changes the state |
| `GameProperties.StepIsMonotone` | game.js:173-189 | one reading or frame that does not end the game never lowers sips nor raises lives |
| `GameProperties.ScoreIsMonotone` | game.js:173-189 | over any run that ends with the game still going, sips have not decreased and lives have not increased |
| `GameProperties.EndsExactlyAtFiveSipsOrNoLives` | game.js:180-188 | a hit test ends a running game exactly when it is a hit at 4 sips or a miss at 1 life |
| `GameProperties.TicksAdvance` | game.js:222-223 | while the game runs, n frames set the rotation to (rotation + n times 2.75) mod 360 and change nothing else |
| `GameProperties.NinthFrameHitsTenthMisses` | game.js:146 | after start's first frame and 8 more, the can is at 24.75 degrees, a hit; one frame later it is at 27.5 degrees, a miss |
| `GameProperties.WindowHoldsLatestReadings` | game.js:104-105 | after any sequence of readings, the window holds the newest three of them (all of them if fewer), oldest first |
| `GameProperties.ThreeMissesLose` | game.js:182-188 | three rising tilts, 300 ms apart, outside the arc end a game with 3 lives; the state is then the cleanup state and later events change nothing |

## Left out

- The page: every write to the DOM (`style.transform`, `textContent`, `innerHTML`, `style.display`), the welcome message and the end messages (`showWelcomeMessage`, `game.js:60-77`, `game.js:194-212`). These are presentation only. The `isWinner` argument of `endGame` selects only the message text; `CheckHit` returns it as its verdict.
- `blinkBeam`, its `setInterval` timer and the `isBlinking` flag, and `navigator.vibrate` (`game.js:149-166`, `game.js:177-178`, `game.js:185-186`). These are timers and a haptic API outside the game's state.
- `requestAnimationFrame` / `cancelAnimationFrame` and the `animationFrameId` field. A frame is one call of `GameLoop` or one `Frame` event in a run.
- The permission request in `startGame` (`game.js:8-27`). It is an asynchronous browser API with alerts.
- The globals `hasMotionPermission` and `currentGame`, `restartGame`, and the load, click and touch listeners (`game.js:1-5`, `game.js:230-246`). A restart is a new `FantaGame`.
- `lastBeta`: it is set to `null` in `initializeGame` and never read.
- Floating point. Angles are fixed-point integers in hundredths of a degree. This is exact for the rotation. A reading `beta` with finer precision than a hundredth of a degree is not modelled.
- The number of drop icons comes from the page, which is not part of this model. The constructor takes it as a parameter.
- `Game.FantaGame.HandleMotion`: reads the clock once where the code reads it twice. When the two reads differ, the code remembers a slightly later tilt time than the one it tested.
