# Lane-dodging game: a Dafny model of its simulation core

This project models the core of a browser lane-dodging game. A player car sits in one of five lanes near the bottom of a canvas. Obstacles fall from the top. The player dodges them by changing lanes, scores one point per simulation step and loses when an obstacle reaches its band. The model has four modules:

- `GameLogic` (`game_logic.dfy`, from `utils/gameLogic.ts`): the game state, and the simulation step `updateGame`. The step does four things:
  - the difficulty ramp: a speed bump every 2000 ms, clamped at 5, with the spawn period recomputed as `max(100, floor(200 / sqrt(speed)))`;
  - obstacle advance and cull;
  - spawning when `score % spawnRate == 0`;
  - the collision test that ends the round or adds one point.
- `Renderer` (`renderer.dfy`, `drawGame` from the same file): a method that appends drawing commands to a `Canvas` buffer. A function `Scene` gives the whole frame, and lemmas state its geometry.
- `KeyboardControls` (`keyboard_controls.dfy`, from `hooks/useKeyboardControls.ts`):
  - the arrow-key lane moves and the space-bar pause toggle;
  - a class `KeyHandler` whose field `lastKeyPressTime` drives the double-press rule: a second space press within 300 ms opens the score history instead of toggling pause.
- `GameUi` (`game.dfy`, from `components/Game.tsx`):
  - the initial state;
  - the touch handler, pause, start and restart (restart puts the old score at the front of the history);
  - a class `GameLoop` for the animation-frame driver, which steps only while the round runs and more than 50 ms have passed;
  - a `Run` function over any sequence of inputs, proved to keep the state invariant.

Numbers are modelled as follows:

- Positions, speeds, sizes and clock readings are `real`.
- Score, lanes, lengths and the spawn period are integers.
- Each `Math.random()` draw is a parameter in `[0, 1)`. The lane and length computed from a draw are proved to lie in range.
- `floor(200 / Math.sqrt(s))` is modelled exactly, without a square root: it is the unique `k` with `k*k*s <= 200*200 < (k+1)*(k+1)*s`. It is computed as the integer square root of `floor(40000 / s)`.

In a few places the code behaves other than one might expect, and the model follows the code:

- The driver draws only while the round runs; a paused or finished round is not redrawn. A frame shows the state as it was before that frame's step.
- Lane moves and pause toggles are not blocked after game over. Everything but the lane and the pause flag stays frozen (`GameUi.GameOverIsTerminal`).
- The start button resets the score and the difficulty but keeps the current lane and obstacles.
- A fresh round starts with spawn period 1500 (`components/Game.tsx`). The simulation's own base for the recompute is 200. Both constants are kept.

## Model

| member | source | states |
|---|---|---|
| `GameLogic.Isqrt` | utils/gameLogic.ts:43 | the result is the integer square root: `k*k <= m < (k+1)*(k+1)` |
| `GameLogic.FloorQuotientBySqrt` | utils/gameLogic.ts:43 | for `s > 0` the result `k` satisfies `k*k*s <= n*n < (k+1)*(k+1)*s`, i.e. `k == floor(n / sqrt(s))` |
| `GameLogic.FloorQuotientBySqrtUnique` | utils/gameLogic.ts:43 | those inequalities determine `floor(n / sqrt(s))` uniquely |
| `GameLogic.SpawnInterval` | utils/gameLogic.ts:43 | the period is `max(MIN_SPAWN_INTERVAL, floor(200 / sqrt(speed)))` and never below 100 |
| `GameLogic.SpawnIntervalBounds` | utils/gameLogic.ts:20-21 | from speed 1 up the period lies in `[100, 200]` |
| `GameLogic.FloorQuotientAntitone` | utils/gameLogic.ts:43 | for `0 < s1 <= s2`, `floor(n / sqrt(s2)) <= floor(n / sqrt(s1))` |
| `GameLogic.SpawnIntervalAntitone` | utils/gameLogic.ts:41-43 | a higher speed never gives a longer period |
| `GameLogic.SpawnIntervalAtMaxSpeed` | utils/gameLogic.ts:19-21 | at speed 5 the quotient is 89, so the floor of 100 is the period |
| `GameLogic.SpawnIntervalAfterFirstBump` | utils/gameLogic.ts:38-43 | the first bump (speed 1.1) sets the period to 190 |
| `GameLogic.RampDifficulty` | utils/gameLogic.ts:32-44 | at `currentTime - lastSpeedIncreaseTime >= 2000` the speed becomes `min(speed + 0.1, 5)`, the bump time `currentTime` and the period is recomputed from the new speed; otherwise all three are unchanged; a speed at most 5 stays at most 5 and never drops |
| `GameLogic.RampSpawnRateBounds` | utils/gameLogic.ts:37-44 | a bump from speed at least 1 gives a period in `[100, 200]` |
| `GameLogic.Advance` | utils/gameLogic.ts:47 | every obstacle moves down by the step's distance, keeps lane and length, and the order and count are kept |
| `GameLogic.Cull` | utils/gameLogic.ts:48 | an obstacle is in the result exactly when it is in the input with `y < height`; the result is no longer |
| `GameLogic.CullAppend` | utils/gameLogic.ts:48 | culling distributes over concatenation, so relative order is kept |
| `GameLogic.CullKeepsAll` | utils/gameLogic.ts:48 | a list wholly above the bottom edge is kept whole |
| `GameLogic.CullIdempotent` | utils/gameLogic.ts:48 | culling twice is culling once |
| `GameLogic.DrawLane` | utils/gameLogic.ts:52 | `floor(draw * 5)` of a draw in `[0, 1)` is a lane in `[0, 4]` |
| `GameLogic.DrawLength` | utils/gameLogic.ts:54 | `floor(draw * 3) + 1` of a draw in `[0, 1)` is in `[1, 3]` |
| `GameLogic.SpawnObstacle` | utils/gameLogic.ts:51-55 | the new obstacle has `y = -0.1 * height`, a lane in `[0, 4]`, a length in `[1, 3]`, and is above the bottom edge exactly when `height > 0` |
| `GameLogic.AnyHit` | utils/gameLogic.ts:58-66 | true exactly when some obstacle is in the player's lane with `y + 0.1h > 0.8h` and `y < 0.9h` |
| `GameLogic.UpdateGame` | utils/gameLogic.ts:25-77 | paused or over: the same state; never changes lane or pause; the speed bump rule; the survivors then one spawned obstacle exactly when the old score is a multiple of the new period; with `height > 0` nothing at or past the bottom; game over exactly when some new obstacle hits; score frozen on a hit, else one more |
| `GameLogic.UpdateGameSurvivors` | utils/gameLogic.ts:46-48 | each surviving obstacle is an input obstacle fallen by the step's distance with its lane and length, and every input obstacle whose fallen `y` is below `height` survives |
| `GameLogic.UpdateGamePreservesValid` | utils/gameLogic.ts:25-77 | the step keeps the lane in `[0, 4]`, the speed in `[1, 5]`, the period at least 100 and every obstacle's lane and length in range, and never lowers the score |
| `GameLogic.FirstStepSpawns` | utils/gameLogic.ts:50-56 | a running state with score 0 and no obstacles gets exactly the spawned obstacle |
| `GameLogic.CollisionIgnoresLength` | utils/gameLogic.ts:61-66 | a long obstacle drawn over the player is no hit if its top is out of band; lane decides |
| `Renderer.LaneLines` | utils/gameLogic.ts:93-99 | exactly `LANE_COUNT - 1` separators, the k-th being the line for boundary k+1 |
| `Renderer.LaneLinesGeometry` | utils/gameLogic.ts:93-99 | the separators are vertical lines from 0 to the height at `i * width / 5` for `i = 1..4`, inside the canvas |
| `Renderer.LaneRectInLane` | utils/gameLogic.ts:101-115 | a lane rectangle is half a lane wide with equal margins, strictly inside its lane |
| `Renderer.PlayerRectInLane` | utils/gameLogic.ts:101-109 | the player is drawn at `0.8h`, `0.1h` tall, half a lane wide, strictly inside its lane |
| `Renderer.ObstacleRects` | utils/gameLogic.ts:113-116 | one rectangle per obstacle, in list order |
| `Renderer.ObstacleRectsGeometry` | utils/gameLogic.ts:113-116 | obstacle i is drawn from its `y`, `0.1h * length` tall, as wide as the player, strictly inside its lane |
| `Renderer.SceneLayout` | utils/gameLogic.ts:84-127 | the frame is clear, road, four separators, the player, the obstacles in order, then three HUD lines |
| `Renderer.DrawLaneLines` | utils/gameLogic.ts:93-99 | the loop appends exactly the separators |
| `Renderer.DrawObstacles` | utils/gameLogic.ts:112-116 | the loop appends exactly the obstacle rectangles |
| `Renderer.DrawGame` | utils/gameLogic.ts:79-128 | appends exactly the frame `Scene(gs, size)` to the canvas and changes nothing else |
| `KeyboardControls.MoveLeft` | hooks/useKeyboardControls.ts:12-16 | one lane left, at lane 0 stays at 0, nothing else changes, a lane in range stays in range |
| `KeyboardControls.MoveRight` | hooks/useKeyboardControls.ts:17-21 | one lane right, at lane 4 (the literal equals `LANE_COUNT - 1`) stays there, nothing else changes, a lane in range stays in range |
| `KeyboardControls.TogglePause` | hooks/useKeyboardControls.ts:27 | flips only `isPaused` |
| `KeyboardControls.KeyHandler.HandleKeyDown` | hooks/useKeyboardControls.ts:11-31 | arrows move and leave `lastKeyPressTime`; space within 300 ms (strict) asks for the history and leaves the state, otherwise toggles pause, and both set `lastKeyPressTime`; any other key does nothing; a valid state stays valid |
| `KeyboardControls.KeyHandler.constructor` | hooks/useKeyboardControls.ts:10 | `lastKeyPressTime` starts at 0 |
| `KeyboardControls.MovesPreserveValid` | hooks/useKeyboardControls.ts:12-21 | both arrow moves keep the state invariant |
| `KeyboardControls.TogglePauseTwice` | hooks/useKeyboardControls.ts:27 | two single presses restore the state (so does pausing twice by touch) |
| `KeyboardControls.MoveRightThenLeft` | hooks/useKeyboardControls.ts:12-21 | from lanes 0..3, right then left returns to the same state |
| `GameUi.InitialState` | components/Game.tsx:18-27 | the middle lane 2, no obstacles, score 0, paused, not over, speed 1, bump time 0, period 1500; a valid state |
| `GameUi.TogglePause` | components/Game.tsx:108-110 | the pause edit is the space bar's single-press edit: it flips only `isPaused` |
| `GameUi.HandleTouchStart` | components/Game.tsx:86-106 | left third moves left, right third moves right (the same edits as the arrow keys), the middle toggles pause, no canvas does nothing; score, obstacles and game over are untouched; validity kept |
| `GameUi.StartGame` | components/Game.tsx:112-123 | running, not over, score 0, speed 1, bump time 0, period 1500, lane and obstacles kept |
| `GameUi.RestartGame` | components/Game.tsx:129-141 | history one longer with `{score, timestamp}` first and the old history as tail; the state is the fresh one, running, with no obstacles |
| `GameUi.GameLoop.constructor` | components/Game.tsx:63-64 | the loop starts with `lastUpdateTime = 0` |
| `GameUi.GameLoop.Render` | components/Game.tsx:67-77 | steps only when running and strictly more than 50 ms after the last step, then records the time; otherwise state and time are unchanged; draws the pre-step frame only while running |
| `GameUi.ApplyPreservesValid` | components/Game.tsx:86-141 | every input keeps the state invariant |
| `GameUi.Run` | components/Game.tsx:86-141 | any sequence of inputs from a valid state ends in a valid state |
| `GameUi.ReachableStatesAreValid` | components/Game.tsx:18-27 | from the initial state the lane stays in `[0, 4]`, the speed in `[1, 5]` and the period at least 100 |
| `GameUi.GameOverIsTerminal` | utils/gameLogic.ts:30 | after game over, inputs other than start and restart change at most the lane and the pause flag: score, obstacles, speed, bump time, period and the game-over flag stay as they were |

## Left out

- `GameLogic.UpdateGame`: requires a positive speed while the round runs. For a speed at or below -0.1, `Math.sqrt` gives 0 or NaN and the period becomes Infinity or NaN, which a `nat` cannot hold. Every state the game creates has speed at least 1.
- `GameUi.GameLoop.Render`: carries the same speed requirement as `updateGame`.
- IEEE-754 rounding is not modelled: reals are exact, so ten bumps of 0.1 sum to exactly 1. `Math.sqrt` is not modelled as a floating-point function; the floor of the quotient is characterised exactly instead.
- The distribution of `Math.random()` is not modelled: each draw is a caller-supplied value in `[0, 1)`.
- React plumbing is not modelled, because it is framework scheduling, not game logic. This covers `useState`/`useEffect`, listener registration and cleanup, and the `requestAnimationFrame` loop. In particular, the effect restarts the loop (with `lastUpdateTime = 0`) on every state change; only the gate condition of one frame is kept.
- `updateCanvasSize` (`components/Game.tsx:32-46`) is not modelled: it is window-size arithmetic. The canvas size is a parameter.
- The JSX markup, the splash screen, the history overlay, the `showSplashScreen`/`showScoreHistory` flags and `handleDoubleClick` are not modelled: they are presentation only. The keyboard handler's history request is returned as a boolean.
- Drawing styles are not modelled: colours, line dashes, fonts and the `toFixed(2)` formatting of the HUD. A HUD line is modelled by the value it shows.
- Timestamps are not modelled: the `Date`/`toLocaleString` value is an opaque string, and the space-bar clock reading is a parameter.
