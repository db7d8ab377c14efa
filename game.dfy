/**
 * The game component (components/Game.tsx): the initial state, the touch,
 * pause, start and restart edits it applies to the game state, the score
 * history kept across rounds, and the frame driver that decides when the
 * simulation step runs.
 */
module GameUi {
  import opened GameLogic
  import Renderer
  import KeyboardControls

  const INITIAL_OBSTACLE_SPEED: real := 1.0
  /** The period a fresh round starts with (the simulation's own base is 200). */
  const INITIAL_SPAWN_INTERVAL: nat := 1500
  /** Minimum milliseconds between two simulation steps. */
  const UPDATE_INTERVAL: real := 50.0

  datatype Option<T> = None | Some(value: T)

  /** The canvas's bounding box, as far as the touch handler reads it. */
  datatype CanvasRect = CanvasRect(left: real, width: real)

  /** One entry of the score history. The timestamp is an opaque string. */
  datatype ScoreEntry = ScoreEntry(score: nat, timestamp: string)

  /** A round's start: the middle lane, nothing on the road, paused. */
  function InitialState(): (gs: GameState)
    ensures Valid(gs)
    ensures gs.playerPosition == LANE_COUNT / 2 == 2
    ensures gs.obstacles == [] && gs.score == 0
    ensures gs.isPaused && !gs.isGameOver
    ensures gs.speed == 1.0 && gs.lastSpeedIncreaseTime == 0.0 && gs.obstacleSpawnRate == 1500
  {
    GameState(
      playerPosition := LANE_COUNT / 2,
      obstacles := [],
      score := 0,
      isGameOver := false,
      isPaused := true,
      speed := INITIAL_OBSTACLE_SPEED,
      lastSpeedIncreaseTime := 0.0,
      obstacleSpawnRate := INITIAL_SPAWN_INTERVAL)
  }

  /** The pause updater: the same edit as a single space press. */
  function TogglePause(gs: GameState): (r: GameState)
    ensures r == KeyboardControls.TogglePause(gs)
  {
    gs.(isPaused := !gs.isPaused)
  }

  /**
   * A touch in the left third moves one lane left, in the right third one
   * lane right, anywhere else toggles pause; with no canvas it does nothing.
   */
  function HandleTouchStart(gs: GameState, clientX: real, canvasRect: Option<CanvasRect>): (r: GameState)
    ensures canvasRect.None? ==> r == gs
    ensures canvasRect.Some? ==>
      var touchX := clientX - canvasRect.value.left;
      var width := canvasRect.value.width;
      && (touchX < width / 3.0 ==> r == KeyboardControls.MoveLeft(gs))
      && (!(touchX < width / 3.0) && touchX > (width * 2.0) / 3.0 ==> r == KeyboardControls.MoveRight(gs))
      && (!(touchX < width / 3.0) && !(touchX > (width * 2.0) / 3.0) ==> r == TogglePause(gs))
    ensures r.score == gs.score && r.obstacles == gs.obstacles && r.isGameOver == gs.isGameOver
    ensures Valid(gs) ==> Valid(r)
  {
    match canvasRect
    case None => gs
    case Some(rect) =>
      var touchX := clientX - rect.left;
      if touchX < rect.width / 3.0 then
        gs.(playerPosition := if 0 >= gs.playerPosition - 1 then 0 else gs.playerPosition - 1)
      else if touchX > (rect.width * 2.0) / 3.0 then
        gs.(playerPosition := if LANE_COUNT - 1 <= gs.playerPosition + 1 then LANE_COUNT - 1 else gs.playerPosition + 1)
      else
        TogglePause(gs)
  }

  /** The splash screen's start: a running round, keeping the lane and the obstacles. */
  function StartGame(gs: GameState): (r: GameState)
    ensures !r.isPaused && !r.isGameOver && r.score == 0
    ensures r.speed == 1.0 && r.lastSpeedIncreaseTime == 0.0 && r.obstacleSpawnRate == 1500
    ensures r.playerPosition == gs.playerPosition && r.obstacles == gs.obstacles
    ensures Valid(gs) ==> Valid(r)
  {
    gs.(isPaused := false,
        isGameOver := false,
        score := 0,
        speed := INITIAL_OBSTACLE_SPEED,
        lastSpeedIncreaseTime := 0.0,
        obstacleSpawnRate := INITIAL_SPAWN_INTERVAL)
  }

  datatype Restarted = Restarted(state: GameState, history: seq<ScoreEntry>)

  /**
   * The restart button: the finished round's score goes to the front of the
   * history, newest first, and a fresh running round replaces the state.
   */
  function RestartGame(gs: GameState, history: seq<ScoreEntry>, timestamp: string): (r: Restarted)
    ensures |r.history| == |history| + 1
    ensures r.history[0] == ScoreEntry(gs.score, timestamp) && r.history[1..] == history
    ensures r.state == InitialState().(isPaused := false)
    ensures Valid(r.state) && Active(r.state) && r.state.obstacles == [] && r.state.score == 0
  {
    var newScoreHistory := [ScoreEntry(gs.score, timestamp)] + history;
    Restarted(
      GameState(
        playerPosition := LANE_COUNT / 2,
        obstacles := [],
        score := 0,
        isGameOver := false,
        isPaused := false,
        speed := INITIAL_OBSTACLE_SPEED,
        lastSpeedIncreaseTime := 0.0,
        obstacleSpawnRate := INITIAL_SPAWN_INTERVAL),
      newScoreHistory)
  }

  // ---------------------------------------------------------------------
  // The frame driver (components/Game.tsx:63-79)
  // ---------------------------------------------------------------------

  /** The animation loop's state: the game state it sees and when it last stepped. */
  class GameLoop {
    var gameState: GameState
    var lastUpdateTime: real

    constructor (initial: GameState)
      ensures gameState == initial && lastUpdateTime == 0.0
    {
      gameState := initial;
      lastUpdateTime := 0.0;
    }

    /**
     * One animation frame at `currentTime`. While the round runs, it steps the
     * simulation when more than UPDATE_INTERVAL has passed since the last
     * step, and draws the state as it was when the frame began; a paused or
     * finished round is neither stepped nor drawn.
     */
    method Render(currentTime: real, canvasSize: Size, laneDraw: real, lengthDraw: real, ctx: Renderer.Canvas)
      requires 0.0 <= laneDraw < 1.0 && 0.0 <= lengthDraw < 1.0
      requires Active(gameState) ==> gameState.speed > 0.0
      modifies this, ctx
      ensures Active(old(gameState)) && currentTime - old(lastUpdateTime) > UPDATE_INTERVAL ==>
        && gameState == UpdateGame(old(gameState), currentTime, canvasSize, laneDraw, lengthDraw)
        && lastUpdateTime == currentTime
      ensures !(Active(old(gameState)) && currentTime - old(lastUpdateTime) > UPDATE_INTERVAL) ==>
        gameState == old(gameState) && lastUpdateTime == old(lastUpdateTime)
      ensures ctx.commands == old(ctx.commands)
        + (if Active(old(gameState)) then Renderer.Scene(old(gameState), canvasSize) else [])
    {
      var frameState := gameState;
      if !frameState.isPaused && !frameState.isGameOver {
        if currentTime - lastUpdateTime > UPDATE_INTERVAL {
          var updatedState := UpdateGame(frameState, currentTime, canvasSize, laneDraw, lengthDraw);
          gameState := updatedState;
          lastUpdateTime := currentTime;
        }
        Renderer.DrawGame(ctx, frameState, canvasSize);
      }
    }
  }

  // ---------------------------------------------------------------------
  // Reachable states
  // ---------------------------------------------------------------------

  /** Everything that edits the game state: touches, keys, the buttons and the steps. */
  datatype Input =
    | TouchStart(clientX: real, canvasRect: Option<CanvasRect>)
    | ArrowLeft
    | ArrowRight
    | Space(doublePress: bool)
    | Start
    | Restart
    | Step(currentTime: real, canvasSize: Size, laneDraw: real, lengthDraw: real)

  predicate WellFormed(input: Input) {
    input.Step? ==> 0.0 <= input.laneDraw < 1.0 && 0.0 <= input.lengthDraw < 1.0
  }

  /** The game state after one input; a double space press only opens the history. */
  function Apply(gs: GameState, input: Input): GameState
    requires WellFormed(input)
    requires Active(gs) ==> gs.speed > 0.0
  {
    match input
    case TouchStart(x, rect) => HandleTouchStart(gs, x, rect)
    case ArrowLeft => KeyboardControls.MoveLeft(gs)
    case ArrowRight => KeyboardControls.MoveRight(gs)
    case Space(doublePress) => if doublePress then gs else KeyboardControls.TogglePause(gs)
    case Start => StartGame(gs)
    case Restart => RestartGame(gs, [], "").state
    case Step(t, size, laneDraw, lengthDraw) => UpdateGame(gs, t, size, laneDraw, lengthDraw)
  }

  /** Every single input keeps the state invariant. */
  lemma ApplyPreservesValid(gs: GameState, input: Input)
    requires Valid(gs) && WellFormed(input)
    ensures Valid(Apply(gs, input))
  {
    if input.Step? {
      UpdateGamePreservesValid(gs, input.currentTime, input.canvasSize, input.laneDraw, input.lengthDraw);
    }
  }

  /** The game state after a sequence of inputs, which keeps the state invariant. */
  function Run(gs: GameState, inputs: seq<Input>): (r: GameState)
    requires Valid(gs)
    requires forall i :: 0 <= i < |inputs| ==> WellFormed(inputs[i])
    ensures Valid(r)
    decreases |inputs|
  {
    if inputs == [] then gs
    else
      var input := inputs[0];
      ApplyPreservesValid(gs, input);
      Run(Apply(gs, input), inputs[1..])
  }

  /** From the initial state, the lane stays in [0, 4], the speed in [1, 5] and the period at least 100, whatever happens. */
  lemma ReachableStatesAreValid(inputs: seq<Input>)
    requires forall i :: 0 <= i < |inputs| ==> WellFormed(inputs[i])
    ensures var r := Run(InitialState(), inputs);
      && 0 <= r.playerPosition < LANE_COUNT
      && 1.0 <= r.speed <= MAX_SPEED_MULTIPLIER
      && r.obstacleSpawnRate >= MIN_SPAWN_INTERVAL
  {
  }

  /**
   * Once a round is over, no input but Start and Restart changes anything
   * but the lane and the pause flag: lane moves and pause toggles still go
   * through, the rest of the state stays frozen.
   */
  lemma {:induction false} GameOverIsTerminal(gs: GameState, inputs: seq<Input>)
    requires Valid(gs) && gs.isGameOver
    requires forall i :: 0 <= i < |inputs| ==> WellFormed(inputs[i]) && !inputs[i].Start? && !inputs[i].Restart?
    ensures var r := Run(gs, inputs);
      r == gs.(playerPosition := r.playerPosition, isPaused := r.isPaused)
    decreases |inputs|
  {
    if inputs != [] {
      var next := Apply(gs, inputs[0]);
      assert Valid(next);
      assert next == gs.(playerPosition := next.playerPosition, isPaused := next.isPaused);
      GameOverIsTerminal(next, inputs[1..]);
    }
  }
}
