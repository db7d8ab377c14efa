/**
 * The simulation step of the lane-dodging game (utils/gameLogic.ts):
 * the game state, the difficulty ramp, the advance and cull of falling
 * obstacles, spawning, and the collision test that ends a round.
 *
 * Positions, speeds, sizes and clock values are reals (the source's
 * numbers are doubles; rounding is not modelled). The two Math.random()
 * draws are parameters in [0, 1).
 */
module GameLogic {

  const LANE_COUNT: int := 5
  const MAX_SPEED_MULTIPLIER: real := 5.0
  const INITIAL_SPAWN_INTERVAL: nat := 200
  const MIN_SPAWN_INTERVAL: nat := 100
  /** Milliseconds between two speed bumps. */
  const SPEED_INCREASE_INTERVAL: real := 2000.0
  const SPEED_INCREASE_AMOUNT: real := 0.1
  /** Height of the design device; falls are scaled by height / REFERENCE_HEIGHT. */
  const REFERENCE_HEIGHT: real := 844.0

  datatype Obstacle = Obstacle(lane: int, y: real, length: int)

  datatype Size = Size(width: real, height: real)

  datatype GameState = GameState(
    playerPosition: int,
    obstacles: seq<Obstacle>,
    score: nat,
    isGameOver: bool,
    isPaused: bool,
    speed: real,
    lastSpeedIncreaseTime: real,
    obstacleSpawnRate: nat)

  function MinReal(a: real, b: real): real { if a <= b then a else b }

  function MaxNat(a: nat, b: nat): nat { if a >= b then a else b }

  /** The state invariant every state the game creates satisfies. */
  ghost predicate Valid(gs: GameState) {
    && 0 <= gs.playerPosition < LANE_COUNT
    && 1.0 <= gs.speed <= MAX_SPEED_MULTIPLIER
    && gs.obstacleSpawnRate >= MIN_SPAWN_INTERVAL
    && forall o :: o in gs.obstacles ==> 0 <= o.lane < LANE_COUNT && 1 <= o.length <= 3
  }

  /** The step does anything only while the game is neither paused nor over. */
  predicate Active(gs: GameState) { !gs.isPaused && !gs.isGameOver }

  // ---------------------------------------------------------------------
  // Spawn period: max(100, floor(200 / sqrt(speed)))
  // ---------------------------------------------------------------------

  /**
   * For s > 0 this says k <= n / sqrt(s) < k + 1, that is,
   * k == floor(n / sqrt(s)), stated without a square root.
   */
  ghost predicate IsFloorQuotientBySqrt(k: nat, n: nat, s: real) {
    (k * k) as real * s <= (n * n) as real < ((k + 1) * (k + 1)) as real * s
  }

  /** The integer square root of m: the largest k with k * k <= m. */
  function Isqrt(m: nat): (k: nat)
    ensures k * k <= m < (k + 1) * (k + 1)
  {
    IsqrtFrom(m, 0)
  }

  function IsqrtFrom(m: nat, k: nat): (r: nat)
    requires k * k <= m
    ensures k <= r
    ensures r * r <= m < (r + 1) * (r + 1)
    decreases m - k
  {
    if m < (k + 1) * (k + 1) then k
    else
      assert k + 1 <= (k + 1) * (k + 1);
      IsqrtFrom(m, k + 1)
  }

  lemma MulBelowQuotient(a: real, b: real, s: real)
    requires s > 0.0 && a <= b / s
    ensures a * s <= b
  {
    assert a * s <= (b / s) * s;
  }

  lemma MulAboveQuotient(a: real, b: real, s: real)
    requires s > 0.0 && a > b / s
    ensures a * s > b
  {
    assert a * s > (b / s) * s;
  }

  /** floor(n / sqrt(s)) for s > 0, as Math.floor(n / Math.sqrt(s)) computes it. */
  function FloorQuotientBySqrt(n: nat, s: real): (k: nat)
    requires s > 0.0
    ensures IsFloorQuotientBySqrt(k, n, s)
  {
    var bound := (n * n) as real / s;
    var q := bound.Floor;
    assert q >= 0;
    var k := Isqrt(q);
    MulBelowQuotient((k * k) as real, (n * n) as real, s);
    MulAboveQuotient(((k + 1) * (k + 1)) as real, (n * n) as real, s);
    k
  }

  /** The spawn period for a given speed (utils/gameLogic.ts:43). */
  function SpawnInterval(speed: real): (rate: nat)
    requires speed > 0.0
    ensures rate >= MIN_SPAWN_INTERVAL
    ensures rate == MaxNat(MIN_SPAWN_INTERVAL, FloorQuotientBySqrt(INITIAL_SPAWN_INTERVAL, speed))
  {
    MaxNat(MIN_SPAWN_INTERVAL, FloorQuotientBySqrt(INITIAL_SPAWN_INTERVAL, speed))
  }

  /** floor(n / sqrt(s)) is determined uniquely by its defining inequalities. */
  lemma FloorQuotientBySqrtUnique(k1: nat, k2: nat, n: nat, s: real)
    requires s > 0.0
    requires IsFloorQuotientBySqrt(k1, n, s) && IsFloorQuotientBySqrt(k2, n, s)
    ensures k1 == k2
  {
    FloorQuotientIsLargest(k1, k2, n, s);
    FloorQuotientIsLargest(k2, k1, n, s);
  }

  /** Any j with j * j * s <= n * n is at most floor(n / sqrt(s)). */
  lemma FloorQuotientIsLargest(k: nat, j: nat, n: nat, s: real)
    requires s > 0.0
    requires IsFloorQuotientBySqrt(k, n, s) && (j * j) as real * s <= (n * n) as real
    ensures j <= k
  {
    if k < j {
      ScaledSquareMonotone(k + 1, j, s, s);
    }
  }

  lemma SquareMonotone(a: nat, b: nat)
    requires a <= b
    ensures a * a <= b * b
  {
    assert a * a <= a * b <= b * b;
  }

  lemma ScaledSquareMonotone(a: nat, b: nat, s: real, t: real)
    requires a <= b && 0.0 < s <= t
    ensures (a * a) as real * s <= (b * b) as real * t
  {
    SquareMonotone(a, b);
    var x, y := (a * a) as real, (b * b) as real;
    assert x * s <= y * s;
    assert y * s <= y * t;
  }

  /** Scaling a non-negative x by s >= 1 does not make it smaller. */
  lemma ScaleAtLeastOne(x: real, s: real)
    requires x >= 0.0 && s >= 1.0
    ensures x <= x * s
  {
    assert x * s - x == x * (s - 1.0);
  }

  /** Scaling a non-negative x by a smaller positive factor keeps it below y. */
  lemma ScaleDown(x: real, s1: real, s2: real, y: real)
    requires x >= 0.0 && 0.0 < s1 <= s2 && x * s2 <= y
    ensures x * s1 <= y
  {
    assert x * s2 - x * s1 == x * (s2 - s1);
  }

  /** Squares order their non-negative roots. */
  lemma SquareRootMonotone(a: nat, b: nat)
    requires a * a <= b * b
    ensures a <= b
  {
    if b < a {
      SquareMonotone(b + 1, a);
    }
  }

  /** For s >= 1 the quotient is at most n: sqrt(s) >= 1. */
  lemma FloorQuotientAtMost(k: nat, n: nat, s: real)
    requires s >= 1.0
    requires IsFloorQuotientBySqrt(k, n, s)
    ensures k <= n
  {
    ScaleAtLeastOne((k * k) as real, s);
    SquareRootMonotone(k, n);
  }

  /** floor(n / sqrt(s)) does not grow with s. */
  lemma FloorQuotientAntitone(k1: nat, k2: nat, n: nat, s1: real, s2: real)
    requires 0.0 < s1 <= s2
    requires IsFloorQuotientBySqrt(k1, n, s1) && IsFloorQuotientBySqrt(k2, n, s2)
    ensures k2 <= k1
  {
    ScaleDown((k2 * k2) as real, s1, s2, (n * n) as real);
    FloorQuotientIsLargest(k1, k2, n, s1);
  }

  /** From speed 1 up, the spawn period lies between MIN_SPAWN_INTERVAL and INITIAL_SPAWN_INTERVAL. */
  lemma SpawnIntervalBounds(speed: real)
    requires speed >= 1.0
    ensures MIN_SPAWN_INTERVAL <= SpawnInterval(speed) <= INITIAL_SPAWN_INTERVAL
  {
    FloorQuotientAtMost(FloorQuotientBySqrt(INITIAL_SPAWN_INTERVAL, speed), INITIAL_SPAWN_INTERVAL, speed);
  }

  /** A faster game never has a longer spawn period. */
  lemma SpawnIntervalAntitone(s1: real, s2: real)
    requires 0.0 < s1 <= s2
    ensures SpawnInterval(s2) <= SpawnInterval(s1)
  {
    var n := INITIAL_SPAWN_INTERVAL;
    var k1 := FloorQuotientBySqrt(n, s1);
    var k2 := FloorQuotientBySqrt(n, s2);
    FloorQuotientAntitone(k1, k2, n, s1, s2);
  }

  /** At the top speed the computed quotient is 89, so the floor of 100 decides. */
  lemma SpawnIntervalAtMaxSpeed()
    ensures FloorQuotientBySqrt(INITIAL_SPAWN_INTERVAL, MAX_SPEED_MULTIPLIER) == 89
    ensures SpawnInterval(MAX_SPEED_MULTIPLIER) == MIN_SPAWN_INTERVAL
  {
    var k := FloorQuotientBySqrt(INITIAL_SPAWN_INTERVAL, MAX_SPEED_MULTIPLIER);
    assert IsFloorQuotientBySqrt(89, INITIAL_SPAWN_INTERVAL, MAX_SPEED_MULTIPLIER);
    FloorQuotientBySqrtUnique(k, 89, INITIAL_SPAWN_INTERVAL, MAX_SPEED_MULTIPLIER);
  }

  /** The first bump, from speed 1 to 1.1, sets the period to floor(200 / sqrt(1.1)) == 190. */
  lemma SpawnIntervalAfterFirstBump()
    ensures SpawnInterval(1.1) == 190
  {
    var k := FloorQuotientBySqrt(INITIAL_SPAWN_INTERVAL, 1.1);
    assert IsFloorQuotientBySqrt(190, INITIAL_SPAWN_INTERVAL, 1.1);
    FloorQuotientBySqrtUnique(k, 190, INITIAL_SPAWN_INTERVAL, 1.1);
  }

  // ---------------------------------------------------------------------
  // Difficulty ramp (utils/gameLogic.ts:32-44)
  // ---------------------------------------------------------------------

  datatype Difficulty = Difficulty(speed: real, lastSpeedIncreaseTime: real, obstacleSpawnRate: nat)

  predicate SpeedIncreaseDue(gs: GameState, currentTime: real) {
    currentTime - gs.lastSpeedIncreaseTime >= SPEED_INCREASE_INTERVAL
  }

  function RampDifficulty(gs: GameState, currentTime: real): (d: Difficulty)
    requires gs.speed > 0.0
    ensures SpeedIncreaseDue(gs, currentTime) ==>
      && d.speed == MinReal(gs.speed + SPEED_INCREASE_AMOUNT, MAX_SPEED_MULTIPLIER)
      && d.lastSpeedIncreaseTime == currentTime
      && d.obstacleSpawnRate == SpawnInterval(d.speed)
    ensures !SpeedIncreaseDue(gs, currentTime) ==>
      d == Difficulty(gs.speed, gs.lastSpeedIncreaseTime, gs.obstacleSpawnRate)
    ensures d.speed > 0.0
    ensures gs.speed <= MAX_SPEED_MULTIPLIER ==> gs.speed <= d.speed <= MAX_SPEED_MULTIPLIER
    ensures SpeedIncreaseDue(gs, currentTime) ==> d.obstacleSpawnRate >= MIN_SPAWN_INTERVAL
  {
    if SpeedIncreaseDue(gs, currentTime) then
      var newSpeed := MinReal(gs.speed + SPEED_INCREASE_AMOUNT, MAX_SPEED_MULTIPLIER);
      Difficulty(newSpeed, currentTime, SpawnInterval(newSpeed))
    else
      Difficulty(gs.speed, gs.lastSpeedIncreaseTime, gs.obstacleSpawnRate)
  }

  /** Once the speed is at least 1, a bumped spawn period is at most 200. */
  lemma RampSpawnRateBounds(gs: GameState, currentTime: real)
    requires gs.speed >= 1.0 && SpeedIncreaseDue(gs, currentTime)
    ensures MIN_SPAWN_INTERVAL <= RampDifficulty(gs, currentTime).obstacleSpawnRate <= INITIAL_SPAWN_INTERVAL
  {
    SpawnIntervalBounds(RampDifficulty(gs, currentTime).speed);
  }

  // ---------------------------------------------------------------------
  // Advance and cull (utils/gameLogic.ts:46-48)
  // ---------------------------------------------------------------------

  /** How far every obstacle falls in one step. */
  function FallDistance(speed: real, height: real): real {
    speed * (height / REFERENCE_HEIGHT)
  }

  function Fall(o: Obstacle, dy: real): Obstacle {
    o.(y := o.y + dy)
  }

  /** The `map` of line 47: every obstacle moved down by dy, in the same order. */
  function Advance(obs: seq<Obstacle>, dy: real): (r: seq<Obstacle>)
    ensures |r| == |obs|
    ensures forall i :: 0 <= i < |obs| ==>
      r[i].y == obs[i].y + dy && r[i].lane == obs[i].lane && r[i].length == obs[i].length
  {
    if obs == [] then [] else [Fall(obs[0], dy)] + Advance(obs[1..], dy)
  }

  /** The `filter` of line 48: the obstacles still above the bottom edge, in the same order. */
  function Cull(obs: seq<Obstacle>, height: real): (r: seq<Obstacle>)
    ensures |r| <= |obs|
    ensures forall o :: o in r <==> o in obs && o.y < height
  {
    if obs == [] then []
    else (if obs[0].y < height then [obs[0]] else []) + Cull(obs[1..], height)
  }

  /** Culling distributes over concatenation: it keeps relative order. */
  lemma {:induction false} CullAppend(a: seq<Obstacle>, b: seq<Obstacle>, height: real)
    ensures Cull(a + b, height) == Cull(a, height) + Cull(b, height)
  {
    if a == [] {
      assert a + b == b;
    } else {
      assert (a + b)[0] == a[0];
      assert (a + b)[1..] == a[1..] + b;
      CullAppend(a[1..], b, height);
    }
  }

  /** A list with nothing at or past the bottom is kept whole, so culling twice is culling once. */
  lemma {:induction false} CullKeepsAll(obs: seq<Obstacle>, height: real)
    requires forall o :: o in obs ==> o.y < height
    ensures Cull(obs, height) == obs
  {
    if obs != [] {
      assert obs[0] in obs;
      CullKeepsAll(obs[1..], height);
    }
  }

  lemma CullIdempotent(obs: seq<Obstacle>, height: real)
    ensures Cull(Cull(obs, height), height) == Cull(obs, height)
  {
    CullKeepsAll(Cull(obs, height), height);
  }

  // ---------------------------------------------------------------------
  // Spawning (utils/gameLogic.ts:50-56)
  // ---------------------------------------------------------------------

  /** JavaScript's `score % 0` is NaN, which is never `=== 0`: a zero period never spawns. */
  predicate SpawnDue(score: nat, spawnRate: nat) {
    spawnRate != 0 && score % spawnRate == 0
  }

  /** Math.floor(Math.random() * LANE_COUNT) for a draw in [0, 1). */
  function DrawLane(draw: real): (lane: int)
    requires 0.0 <= draw < 1.0
    ensures 0 <= lane < LANE_COUNT
  {
    (draw * LANE_COUNT as real).Floor
  }

  /** Math.floor(Math.random() * 3) + 1 for a draw in [0, 1). */
  function DrawLength(draw: real): (length: int)
    requires 0.0 <= draw < 1.0
    ensures 1 <= length <= 3
  {
    (draw * 3.0).Floor + 1
  }

  /** The new obstacle starts one player-height above the top edge. */
  function SpawnObstacle(height: real, laneDraw: real, lengthDraw: real): (o: Obstacle)
    requires 0.0 <= laneDraw < 1.0 && 0.0 <= lengthDraw < 1.0
    ensures 0 <= o.lane < LANE_COUNT && 1 <= o.length <= 3
    ensures o.y == -height * 0.1
    ensures o.y < height <==> height > 0.0
  {
    Obstacle(DrawLane(laneDraw), -height * 0.1, DrawLength(lengthDraw))
  }

  // ---------------------------------------------------------------------
  // Collision (utils/gameLogic.ts:58-66)
  // ---------------------------------------------------------------------

  /**
   * The player occupies [0.8h, 0.9h) in its lane. An obstacle hits it when it
   * is in that lane and its one-player-height band [y, y + 0.1h) overlaps the
   * player's band; the obstacle's length plays no part.
   */
  predicate Hits(o: Obstacle, playerLane: int, height: real) {
    var playerY := height * 0.8;
    var playerHeight := height * 0.1;
    o.lane == playerLane && o.y + playerHeight > playerY && o.y < playerY + playerHeight
  }

  /** The `some` of line 61. */
  function AnyHit(obs: seq<Obstacle>, playerLane: int, height: real): (hit: bool)
    ensures hit <==> exists i :: 0 <= i < |obs| && Hits(obs[i], playerLane, height)
  {
    if obs == [] then false
    else
      assert forall i :: 1 <= i < |obs| ==> obs[i] == obs[1..][i - 1];
      Hits(obs[0], playerLane, height) || AnyHit(obs[1..], playerLane, height)
  }

  // ---------------------------------------------------------------------
  // The step (utils/gameLogic.ts:25-77)
  // ---------------------------------------------------------------------

  /** The remaining obstacles after one step, before spawning. */
  function Survivors(gs: GameState, speed: real, height: real): seq<Obstacle> {
    Cull(Advance(gs.obstacles, FallDistance(speed, height)), height)
  }

  function UpdateGame(gs: GameState, currentTime: real, canvas: Size, laneDraw: real, lengthDraw: real): (r: GameState)
    requires 0.0 <= laneDraw < 1.0 && 0.0 <= lengthDraw < 1.0
    requires Active(gs) ==> gs.speed > 0.0
    // paused or over: the very same state, whatever the time and size
    ensures !Active(gs) ==> r == gs
    // the step never moves the player nor (un)pauses
    ensures r.playerPosition == gs.playerPosition && r.isPaused == gs.isPaused
    // difficulty
    ensures Active(gs) && SpeedIncreaseDue(gs, currentTime) ==>
      && r.speed == MinReal(gs.speed + SPEED_INCREASE_AMOUNT, MAX_SPEED_MULTIPLIER)
      && r.lastSpeedIncreaseTime == currentTime
      && r.obstacleSpawnRate == SpawnInterval(r.speed)
    ensures !SpeedIncreaseDue(gs, currentTime) ==>
      r.speed == gs.speed && r.lastSpeedIncreaseTime == gs.lastSpeedIncreaseTime
      && r.obstacleSpawnRate == gs.obstacleSpawnRate
    ensures gs.speed <= MAX_SPEED_MULTIPLIER ==> gs.speed <= r.speed <= MAX_SPEED_MULTIPLIER
    // obstacles: the survivors, then one new obstacle iff the old score is a multiple of the new period
    ensures Active(gs) ==>
      r.obstacles == Survivors(gs, r.speed, canvas.height)
                     + (if SpawnDue(gs.score, r.obstacleSpawnRate)
                        then [SpawnObstacle(canvas.height, laneDraw, lengthDraw)] else [])
    ensures Active(gs) && canvas.height > 0.0 ==> forall o :: o in r.obstacles ==> o.y < canvas.height
    // collision and score
    ensures Active(gs) ==>
      (r.isGameOver <==> exists i :: 0 <= i < |r.obstacles| && Hits(r.obstacles[i], gs.playerPosition, canvas.height))
    ensures Active(gs) ==> r.score == if r.isGameOver then gs.score else gs.score + 1
  {
    if gs.isPaused || gs.isGameOver then gs
    else
      var d := RampDifficulty(gs, currentTime);
      var moved := Survivors(gs, d.speed, canvas.height);
      var obstacles :=
        if SpawnDue(gs.score, d.obstacleSpawnRate)
        then moved + [SpawnObstacle(canvas.height, laneDraw, lengthDraw)]
        else moved;
      var isCollision := AnyHit(obstacles, gs.playerPosition, canvas.height);
      gs.(obstacles := obstacles,
          score := if isCollision then gs.score else gs.score + 1,
          isGameOver := isCollision,
          speed := d.speed,
          lastSpeedIncreaseTime := d.lastSpeedIncreaseTime,
          obstacleSpawnRate := d.obstacleSpawnRate)
  }

  /**
   * Every obstacle that survives a step is an input obstacle fallen by the
   * step's distance, with its lane and length; and every input obstacle
   * whose fallen position is above the bottom edge survives.
   */
  lemma UpdateGameSurvivors(gs: GameState, currentTime: real, canvas: Size, laneDraw: real, lengthDraw: real)
    requires 0.0 <= laneDraw < 1.0 && 0.0 <= lengthDraw < 1.0
    requires Active(gs) && gs.speed > 0.0
    ensures var r := UpdateGame(gs, currentTime, canvas, laneDraw, lengthDraw);
      var dy := FallDistance(r.speed, canvas.height);
      var kept := Survivors(gs, r.speed, canvas.height);
      && kept <= r.obstacles
      && (forall o :: o in kept ==> exists i :: 0 <= i < |gs.obstacles| && o == Fall(gs.obstacles[i], dy))
      && (forall i :: 0 <= i < |gs.obstacles| && gs.obstacles[i].y + dy < canvas.height ==>
            Fall(gs.obstacles[i], dy) in kept)
  {
    var r := UpdateGame(gs, currentTime, canvas, laneDraw, lengthDraw);
    var dy := FallDistance(r.speed, canvas.height);
    var moved := Advance(gs.obstacles, dy);
    forall i | 0 <= i < |gs.obstacles|
      ensures moved[i] == Fall(gs.obstacles[i], dy)
    {
    }
    forall o | o in Survivors(gs, r.speed, canvas.height)
      ensures exists i :: 0 <= i < |gs.obstacles| && o == Fall(gs.obstacles[i], dy)
    {
      var i :| 0 <= i < |moved| && moved[i] == o;
    }
    forall i | 0 <= i < |gs.obstacles| && gs.obstacles[i].y + dy < canvas.height
      ensures Fall(gs.obstacles[i], dy) in Survivors(gs, r.speed, canvas.height)
    {
      assert moved[i] in moved;
    }
  }

  /** The step keeps the state invariant. */
  lemma UpdateGamePreservesValid(gs: GameState, currentTime: real, canvas: Size, laneDraw: real, lengthDraw: real)
    requires 0.0 <= laneDraw < 1.0 && 0.0 <= lengthDraw < 1.0
    requires Valid(gs)
    ensures Valid(UpdateGame(gs, currentTime, canvas, laneDraw, lengthDraw))
    ensures gs.score <= UpdateGame(gs, currentTime, canvas, laneDraw, lengthDraw).score
  {
    if Active(gs) {
      var r := UpdateGame(gs, currentTime, canvas, laneDraw, lengthDraw);
      var dy := FallDistance(r.speed, canvas.height);
      var moved := Advance(gs.obstacles, dy);
      forall o | o in Survivors(gs, r.speed, canvas.height)
        ensures 0 <= o.lane < LANE_COUNT && 1 <= o.length <= 3
      {
        var i :| 0 <= i < |moved| && moved[i] == o;
        assert gs.obstacles[i] in gs.obstacles;
      }
      if SpeedIncreaseDue(gs, currentTime) {
        RampSpawnRateBounds(gs, currentTime);
      }
    }
  }

  // ---------------------------------------------------------------------
  // Worked cases
  // ---------------------------------------------------------------------

  /** A state with score 0 always spawns, whatever the period. */
  lemma FirstStepSpawns(gs: GameState, currentTime: real, canvas: Size, laneDraw: real, lengthDraw: real)
    requires 0.0 <= laneDraw < 1.0 && 0.0 <= lengthDraw < 1.0
    requires Valid(gs) && Active(gs) && gs.score == 0 && gs.obstacles == []
    ensures var r := UpdateGame(gs, currentTime, canvas, laneDraw, lengthDraw);
      |r.obstacles| == 1 && r.obstacles[0] == SpawnObstacle(canvas.height, laneDraw, lengthDraw)
  {
    var r := UpdateGame(gs, currentTime, canvas, laneDraw, lengthDraw);
    assert Survivors(gs, r.speed, canvas.height) == [];
  }

  /**
   * A length-3 obstacle whose drawn body covers the player's band is not a hit
   * when its top lies outside (0.7h, 0.9h): only its first unit counts.
   */
  lemma CollisionIgnoresLength(height: real)
    requires height > 0.0
    ensures !Hits(Obstacle(2, height * 0.6, 3), 2, height)
    ensures Hits(Obstacle(2, height * 0.75, 1), 2, height)
    ensures !Hits(Obstacle(3, height * 0.75, 1), 2, height)
  {
  }
}
