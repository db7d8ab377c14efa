/**
 * The scene renderer (drawGame, utils/gameLogic.ts:79-128): a projection
 * of the game state onto a drawing surface. The surface is a buffer of
 * drawing commands; colours, dash patterns, fonts and number formatting
 * are not modelled, only what is drawn and where.
 */
module Renderer {
  import opened GameLogic

  /** What a filled rectangle depicts: the fill style set before it. */
  datatype Layer = Road | Player | Hazard

  /** The value a line of HUD text shows. */
  datatype HudLine = ScoreText(score: nat) | SpeedText(speed: real) | SpawnRateText(rate: nat)

  datatype Command =
    | ClearRect(x: real, y: real, w: real, h: real)
    | FillRect(layer: Layer, x: real, y: real, w: real, h: real)
    | StrokeLine(x0: real, y0: real, x1: real, y1: real)
    | FillText(text: HudLine, x: real, y: real)

  /** The drawing surface: every command issued on it, in order. */
  class Canvas {
    var commands: seq<Command>

    constructor ()
      ensures commands == []
    {
      commands := [];
    }
  }

  function LaneWidth(size: Size): real {
    size.width / LANE_COUNT as real
  }

  /** The dashed separator at x = i * width / LANE_COUNT, top to bottom. */
  function LaneLine(i: int, size: Size): Command {
    var x := (i as real * size.width) / LANE_COUNT as real;
    StrokeLine(x, 0.0, x, size.height)
  }

  /** The LANE_COUNT - 1 separators between the lanes, left to right. */
  function LaneLines(size: Size): (r: seq<Command>)
    ensures |r| == LANE_COUNT - 1
    ensures forall k :: 0 <= k < |r| ==> r[k] == LaneLine(k + 1, size)
  {
    seq(LANE_COUNT - 1, k requires 0 <= k < LANE_COUNT - 1 => LaneLine(k + 1, size))
  }

  /** A rectangle half a lane wide, offset by a quarter lane into lane `lane`. */
  function LaneRect(layer: Layer, lane: int, top: real, height: real, size: Size): Command {
    var laneWidth := LaneWidth(size);
    var playerWidth := laneWidth * 0.5;
    FillRect(layer, lane as real * laneWidth + (laneWidth - playerWidth) / 2.0, top, playerWidth, height)
  }

  function PlayerRect(gs: GameState, size: Size): Command {
    LaneRect(Player, gs.playerPosition, size.height * 0.8, size.height * 0.1, size)
  }

  /** An obstacle is drawn `length` player-heights tall from its y downward. */
  function ObstacleRect(o: Obstacle, size: Size): Command {
    LaneRect(Hazard, o.lane, o.y, size.height * 0.1 * o.length as real, size)
  }

  function ObstacleRects(obs: seq<Obstacle>, size: Size): (r: seq<Command>)
    ensures |r| == |obs|
    ensures forall i :: 0 <= i < |obs| ==> r[i] == ObstacleRect(obs[i], size)
  {
    seq(|obs|, i requires 0 <= i < |obs| => ObstacleRect(obs[i], size))
  }

  function Hud(gs: GameState, size: Size): seq<Command> {
    [ FillText(ScoreText(gs.score), 10.0, size.height * 0.05),
      FillText(SpeedText(gs.speed), 10.0, size.height * 0.1),
      FillText(SpawnRateText(gs.obstacleSpawnRate), 10.0, size.height * 0.15) ]
  }

  /** The whole frame drawGame issues for a state, in drawing order. */
  function Scene(gs: GameState, size: Size): seq<Command> {
    [ ClearRect(0.0, 0.0, size.width, size.height),
      FillRect(Road, 0.0, 0.0, size.width, size.height) ]
    + LaneLines(size)
    + [PlayerRect(gs, size)]
    + ObstacleRects(gs.obstacles, size)
    + Hud(gs, size)
  }

  /**
   * The frame's layout: clearing and painting the road, the separators, the
   * player, one rectangle per obstacle in list order, then the HUD.
   */
  lemma SceneLayout(gs: GameState, size: Size)
    ensures var r := Scene(gs, size); var n := |gs.obstacles|;
      && |r| == 2 + (LANE_COUNT - 1) + 1 + n + 3
      && r[0] == ClearRect(0.0, 0.0, size.width, size.height)
      && r[1] == FillRect(Road, 0.0, 0.0, size.width, size.height)
      && r[2..6] == LaneLines(size)
      && r[6] == PlayerRect(gs, size)
      && r[7..7 + n] == ObstacleRects(gs.obstacles, size)
      && r[7 + n..] == Hud(gs, size)
  {
    var a := [ ClearRect(0.0, 0.0, size.width, size.height),
               FillRect(Road, 0.0, 0.0, size.width, size.height) ];
    var b := a + LaneLines(size);
    var c := b + [PlayerRect(gs, size)];
    var d := c + ObstacleRects(gs.obstacles, size);
    assert Scene(gs, size) == d + Hud(gs, size);
    assert b[2..6] == LaneLines(size);
    assert d[7..] == ObstacleRects(gs.obstacles, size);
  }

  /** The separators are vertical, span the height, and sit at i * width / LANE_COUNT for i = 1 .. 4, inside the canvas. */
  lemma LaneLinesGeometry(size: Size)
    ensures var r := LaneLines(size);
      forall k :: 0 <= k < |r| ==>
        && r[k].StrokeLine?
        && r[k].x0 == r[k].x1 == (k + 1) as real * LaneWidth(size)
        && r[k].y0 == 0.0 && r[k].y1 == size.height
        && (size.width > 0.0 ==> 0.0 < r[k].x0 < size.width)
  {
    var r := LaneLines(size);
    forall k | 0 <= k < |r|
      ensures r[k].x0 == (k + 1) as real * LaneWidth(size)
      ensures size.width > 0.0 ==> 0.0 < r[k].x0 < size.width
    {
      LaneLineAt(k + 1, size);
    }
  }

  /** Separator i sits i lane widths from the left edge, strictly inside a non-empty canvas. */
  lemma LaneLineAt(i: int, size: Size)
    requires 1 <= i < LANE_COUNT
    ensures LaneLine(i, size).x0 == i as real * LaneWidth(size)
    ensures size.width > 0.0 ==> 0.0 < LaneLine(i, size).x0 < size.width
  {
    var w := size.width;
    if i == 1 {
      assert LaneLine(i, size).x0 == w / 5.0;
    } else if i == 2 {
      assert LaneLine(i, size).x0 == 2.0 * w / 5.0;
    } else if i == 3 {
      assert LaneLine(i, size).x0 == 3.0 * w / 5.0;
    } else {
      assert i == 4;
      assert LaneLine(i, size).x0 == 4.0 * w / 5.0;
    }
  }

  /**
   * A lane rectangle is half a lane wide and centred in its lane: a quarter
   * lane of margin on each side, so it lies strictly inside the lane.
   */
  lemma LaneRectInLane(layer: Layer, lane: int, top: real, height: real, size: Size)
    ensures var c := LaneRect(layer, lane, top, height, size); var lw := LaneWidth(size);
      && c.FillRect? && c.layer == layer && c.y == top && c.h == height
      && c.w == lw * 0.5
      && c.x - lane as real * lw == (lane + 1) as real * lw - (c.x + c.w)
      && (size.width > 0.0 ==> lane as real * lw < c.x && c.x + c.w < (lane + 1) as real * lw)
  {
  }

  /** The player is drawn in the middle half of its lane, one tenth of the height tall, at 0.8h. */
  lemma PlayerRectInLane(gs: GameState, size: Size)
    requires size.width > 0.0
    ensures var c := PlayerRect(gs, size); var lw := LaneWidth(size);
      && c.FillRect? && c.layer == Player
      && c.y == size.height * 0.8 && c.h == size.height * 0.1 && c.w == lw * 0.5
      && gs.playerPosition as real * lw < c.x && c.x + c.w < (gs.playerPosition + 1) as real * lw
  {
    LaneRectInLane(Player, gs.playerPosition, size.height * 0.8, size.height * 0.1, size);
  }

  /**
   * Obstacle i is drawn as a rectangle in its own lane, from its y down by
   * `length` tenths of the height, as wide as the player.
   */
  lemma ObstacleRectsGeometry(obs: seq<Obstacle>, size: Size)
    ensures var r := ObstacleRects(obs, size); var lw := LaneWidth(size);
      forall i :: 0 <= i < |obs| ==>
        && r[i].FillRect? && r[i].layer == Hazard
        && r[i].y == obs[i].y && r[i].h == size.height * 0.1 * obs[i].length as real
        && r[i].w == lw * 0.5
        && (size.width > 0.0 ==>
              obs[i].lane as real * lw < r[i].x && r[i].x + r[i].w < (obs[i].lane + 1) as real * lw)
  {
    forall i | 0 <= i < |obs| {
      LaneRectInLane(Hazard, obs[i].lane, obs[i].y, size.height * 0.1 * obs[i].length as real, size);
    }
  }

  /** The `for` loop of drawGame: one dashed separator per inner lane boundary. */
  method DrawLaneLines(ctx: Canvas, size: Size)
    modifies ctx
    ensures ctx.commands == old(ctx.commands) + LaneLines(size)
  {
    ghost var lines := LaneLines(size);
    for i := 1 to LANE_COUNT
      invariant ctx.commands == old(ctx.commands) + lines[..i - 1]
    {
      var x := (i as real * size.width) / LANE_COUNT as real;
      assert StrokeLine(x, 0.0, x, size.height) == lines[i - 1];
      assert lines[..i] == lines[..i - 1] + [lines[i - 1]];
      ctx.commands := ctx.commands + [StrokeLine(x, 0.0, x, size.height)];
    }
    assert lines[..LANE_COUNT - 1] == lines;
  }

  /** The `forEach` of drawGame: one rectangle per obstacle, in list order. */
  method DrawObstacles(ctx: Canvas, obstacles: seq<Obstacle>, size: Size)
    modifies ctx
    ensures ctx.commands == old(ctx.commands) + ObstacleRects(obstacles, size)
  {
    var laneWidth := size.width / LANE_COUNT as real;
    var playerWidth := laneWidth * 0.5;
    var playerHeight := size.height * 0.1;
    ghost var rects := ObstacleRects(obstacles, size);
    for j := 0 to |obstacles|
      invariant ctx.commands == old(ctx.commands) + rects[..j]
    {
      var obstacle := obstacles[j];
      var obstacleX := obstacle.lane as real * laneWidth + (laneWidth - playerWidth) / 2.0;
      assert FillRect(Hazard, obstacleX, obstacle.y, playerWidth, playerHeight * obstacle.length as real) == rects[j];
      assert rects[..j + 1] == rects[..j] + [rects[j]];
      ctx.commands := ctx.commands + [FillRect(Hazard, obstacleX, obstacle.y, playerWidth, playerHeight * obstacle.length as real)];
    }
    assert rects[..|obstacles|] == rects;
  }

  /** Draws one frame of `gs` on `ctx`; the game state is a value and is not changed. */
  method DrawGame(ctx: Canvas, gs: GameState, size: Size)
    modifies ctx
    ensures ctx.commands == old(ctx.commands) + Scene(gs, size)
  {
    ctx.commands := ctx.commands + [ClearRect(0.0, 0.0, size.width, size.height)];
    ctx.commands := ctx.commands + [FillRect(Road, 0.0, 0.0, size.width, size.height)];

    DrawLaneLines(ctx, size);

    var laneWidth := size.width / LANE_COUNT as real;
    var playerWidth := laneWidth * 0.5;
    var playerHeight := size.height * 0.1;
    var playerY := size.height * 0.8;
    var playerX := gs.playerPosition as real * laneWidth + (laneWidth - playerWidth) / 2.0;
    assert FillRect(Player, playerX, playerY, playerWidth, playerHeight) == PlayerRect(gs, size);
    ctx.commands := ctx.commands + [FillRect(Player, playerX, playerY, playerWidth, playerHeight)];

    DrawObstacles(ctx, gs.obstacles, size);

    ctx.commands := ctx.commands + [FillText(ScoreText(gs.score), 10.0, size.height * 0.05)];
    ctx.commands := ctx.commands + [FillText(SpeedText(gs.speed), 10.0, size.height * 0.1)];
    ctx.commands := ctx.commands + [FillText(SpawnRateText(gs.obstacleSpawnRate), 10.0, size.height * 0.15)];
  }
}
