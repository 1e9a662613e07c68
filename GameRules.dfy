/**
 * The rules of a round (src/systems.ts) stated over values: the geometry and
 * speed rules the movement system applies, the snapshot of everything the
 * systems change, and one function per system or handler giving the snapshot
 * it leaves behind. The class in Systems.dfy performs the same updates in place.
 */
module GameRules {
  import opened Wrappers
  import opened JsMath
  import opened GameConstants
  import opened Scoring
  import opened GameStateComponent
  import opened Animation

  // ---------------------------------------------------------------------------
  // Geometry

  function Add(a: Vec3, b: Vec3): Vec3 {
    Vec3(a.x + b.x, a.y + b.y, a.z + b.z)
  }

  function Scale(v: Vec3, k: real): Vec3 {
    Vec3(v.x * k, v.y * k, v.z * k)
  }

  function Abs(x: real): (r: real)
    ensures r >= 0.0 && (r == x || r == -x)
  {
    if x >= 0.0 then x else -x
  }

  /** `isPointInBox(point, center, scale)`: `scale` is the full size of the box. */
  function IsPointInBox(point: Vec3, center: Vec3, scale: Vec3): bool {
    var hx := scale.x / 2.0;
    var hy := scale.y / 2.0;
    var hz := scale.z / 2.0;
    point.x >= center.x - hx && point.x <= center.x + hx &&
    point.y >= center.y - hy && point.y <= center.y + hy &&
    point.z >= center.z - hz && point.z <= center.z + hz
  }

  /** A point is in the box exactly when on every axis it is at most half the size from the center. */
  lemma PointInBoxByDistance(point: Vec3, center: Vec3, scale: Vec3)
    ensures IsPointInBox(point, center, scale) <==>
      && Abs(point.x - center.x) <= scale.x / 2.0
      && Abs(point.y - center.y) <= scale.y / 2.0
      && Abs(point.z - center.z) <= scale.z / 2.0
  {
  }

  /** The bounds are inclusive: the corners belong to the box. */
  lemma CornersInBox(center: Vec3, scale: Vec3)
    requires scale.x >= 0.0 && scale.y >= 0.0 && scale.z >= 0.0
    ensures IsPointInBox(center, center, scale)
    ensures IsPointInBox(Add(center, Scale(scale, 0.5)), center, scale)
    ensures IsPointInBox(Add(center, Scale(scale, -0.5)), center, scale)
  {
  }

  /** A box with a negative size on some axis contains nothing. */
  lemma NegativeBoxEmpty(point: Vec3, center: Vec3, scale: Vec3)
    requires scale.x < 0.0 || scale.y < 0.0 || scale.z < 0.0
    ensures !IsPointInBox(point, center, scale)
  {
  }

  // ---------------------------------------------------------------------------
  // Speed

  lemma ProductNonNegative(a: real, b: real)
    requires a >= 0.0 && b >= 0.0
    ensures a * b >= 0.0
  {
  }

  /** The deceleration while a swipe's boost lasts: `Math.max(0, base - SWIPE_DECELERATION_REDUCTION)`. */
  function BoostedRate(base: real): (r: real)
    ensures r >= 0.0
    ensures base >= 0.0 ==> r <= base
  {
    MaxReal(0.0, base - SwipeDecelerationReduction)
  }

  /** The speed `elapsed` seconds after the last update: `Math.max(0, speedAtLastUpdate - rate * elapsed)`. */
  function DecayedSpeed(speedAtLastUpdate: real, rate: real, elapsed: real): (r: real)
    ensures r >= 0.0
  {
    MaxReal(0.0, speedAtLastUpdate - rate * elapsed)
  }

  /** Decay never raises the speed. */
  lemma DecayNeverSpeedsUp(speed: real, rate: real, elapsed: real)
    requires speed >= 0.0 && rate >= 0.0 && elapsed >= 0.0
    ensures DecayedSpeed(speed, rate, elapsed) <= speed
  {
    ProductNonNegative(rate, elapsed);
  }

  /** The longer the decay, the lower the speed. */
  lemma DecayMonotone(speed: real, rate: real, e1: real, e2: real)
    requires rate >= 0.0 && e1 <= e2
    ensures DecayedSpeed(speed, rate, e2) <= DecayedSpeed(speed, rate, e1)
  {
    var gap := rate * (e2 - e1);
    ProductNonNegative(rate, e2 - e1);
    assert rate * e2 == rate * e1 + gap;
  }

  /** A lower deceleration never leaves the penguin slower. */
  lemma LowerRateKeepsSpeed(speed: real, r1: real, r2: real, elapsed: real)
    requires r1 <= r2 && elapsed >= 0.0
    ensures DecayedSpeed(speed, r1, elapsed) >= DecayedSpeed(speed, r2, elapsed)
  {
    var gap := (r2 - r1) * elapsed;
    ProductNonNegative(r2 - r1, elapsed);
    assert r2 * elapsed == r1 * elapsed + gap;
  }

  /** With a positive deceleration the penguin stops within `speed / rate` seconds. */
  lemma DecayStops(speed: real, rate: real, elapsed: real)
    requires rate > 0.0 && elapsed >= speed / rate
    ensures DecayedSpeed(speed, rate, elapsed) == 0.0
  {
    var q := speed / rate;
    assert rate * q == speed;
    var e := elapsed - q;
    ProductNonNegative(rate, e);
    assert rate * elapsed == rate * q + rate * e;
  }

  // ---------------------------------------------------------------------------
  // Movement

  /** A `PenguinMovement` component. Times are in seconds. */
  datatype Movement = Movement(
    velocity: Vec3,
    currentSpeed: real,
    initialSpeed: real,
    baseDecelerationRate: real,
    currentDecelerationRate: real,
    direction: Vec3,
    startTime: real,
    decelerationReductionEndTime: real,
    lastSpeedUpdateTime: real,
    speedAtLastUpdate: real)

  /** The invariant of a movement: base rate and initial speed as created, speeds and rate not negative. */
  predicate ValidMovement(m: Movement) {
    && m.baseDecelerationRate == DecelerationRate
    && m.initialSpeed == InitialSpeed
    && m.currentDecelerationRate >= 0.0
    && m.currentSpeed >= 0.0
    && m.speedAtLastUpdate >= 0.0
  }

  /**
   * `initializePenguinMovement`: launched towards the home at the initial
   * speed, unless the penguin is within 0.01 of it. `distance` is the planar
   * distance between the two, the length of the flattened direction vector.
   */
  function Launched(penguin: Vec3, home: Vec3, distance: real, startTime: real): (r: Option<Movement>)
    requires IsDistance2D(penguin, home, distance)
    ensures r.Some? <==> distance >= 0.01
    ensures r.Some? ==> ValidMovement(r.value) && r.value.currentSpeed == InitialSpeed
    ensures r.Some? ==> var dir := r.value.direction;
      && dir.y == 0.0 && dir.x * distance == home.x - penguin.x && dir.z * distance == home.z - penguin.z
      && dir.x * dir.x + dir.z * dir.z == 1.0
      && r.value.velocity == Scale(dir, InitialSpeed)
      && r.value.startTime == startTime && r.value.lastSpeedUpdateTime == startTime
      && r.value.decelerationReductionEndTime == 0.0
  {
    if distance < 0.01 then None
    else
      var direction := Vec3((home.x - penguin.x) / distance, 0.0, (home.z - penguin.z) / distance);
      UnitDirection(home.x - penguin.x, home.z - penguin.z, distance);
      Some(Movement(Scale(direction, InitialSpeed), InitialSpeed, InitialSpeed, DecelerationRate, DecelerationRate,
                    direction, startTime, 0.0, startTime, InitialSpeed))
  }

  /** The flattened difference divided by its length has length 1. */
  lemma UnitDirection(dx: real, dz: real, d: real)
    requires d > 0.0 && d * d == dx * dx + dz * dz
    ensures (dx / d) * (dx / d) + (dz / d) * (dz / d) == 1.0
  {
    var a, b := dx / d, dz / d;
    var dd := d * d;
    PositiveProduct(d, d, dd);
    assert a * d == dx && b * d == dz;
    var s := a * a + b * b;
    assert s * dd == (a * d) * (a * d) + (b * d) * (b * d);
    assert (s - 1.0) * dd == 0.0;
    if s > 1.0 {
      PositiveProduct(s - 1.0, dd, (s - 1.0) * dd);
    } else if s < 1.0 {
      PositiveProduct(1.0 - s, dd, (1.0 - s) * dd);
    }
  }

  /** A product of positive numbers, named by `p`, is positive. */
  lemma PositiveProduct(a: real, b: real, p: real)
    requires a > 0.0 && b > 0.0 && p == a * b
    ensures p > 0.0
  {
    ProductPositive(a, b);
  }

  /** The deceleration in force at `now`: lowered while a swipe's boost lasts, the base rate otherwise. */
  function RateAt(m: Movement, now: real): real {
    if m.decelerationReductionEndTime > now then BoostedRate(m.baseDecelerationRate) else m.baseDecelerationRate
  }

  /** The speed update of `penguinMovementSystem` at time `now`. */
  function Ticked(m: Movement, now: real): (r: Movement)
    ensures ValidMovement(m) ==> ValidMovement(r)
  {
    var rate := RateAt(m, now);
    var speed := DecayedSpeed(m.speedAtLastUpdate, rate, now - m.lastSpeedUpdateTime);
    m.(currentDecelerationRate := rate, currentSpeed := speed, lastSpeedUpdateTime := now,
       speedAtLastUpdate := speed, velocity := Scale(m.direction, speed))
  }

  /** The boost of `handleSwipe` at time `now`, once the cooldown is over. */
  function Boosted(m: Movement, now: real): (r: Movement)
    ensures ValidMovement(m) ==> ValidMovement(r)
  {
    m.(decelerationReductionEndTime := now + SwipeDecelerationDuration,
       currentDecelerationRate := BoostedRate(m.baseDecelerationRate),
       lastSpeedUpdateTime := now,
       speedAtLastUpdate := m.currentSpeed)
  }

  /** The new position of the penguin after a frame of `dt` seconds at time `now`. */
  function PenguinAfter(m: Movement, position: Vec3, now: real, dt: real): Vec3
  {
    Add(position, Scale(Ticked(m, now).velocity, dt))
  }

  /** `Math.min(z, PENGUIN_PLAYER_STOP_Z)`. */
  function ClampZ(z: real): (r: real)
    ensures r <= PenguinPlayerStopZ
    ensures z <= PenguinPlayerStopZ ==> r == z
    ensures z > PenguinPlayerStopZ ==> r == PenguinPlayerStopZ
  {
    MinReal(z, PenguinPlayerStopZ)
  }

  /** The broom and the player follow the penguin's displacement but stop at the stop line. */
  function Followed(position: Vec3, delta: Vec3): (r: Vec3)
    ensures r.z <= PenguinPlayerStopZ
  {
    Vec3(position.x + delta.x, position.y + delta.y, ClampZ(position.z + delta.z))
  }

  /** The boost lasts exactly `SWIPE_DECELERATION_DURATION` seconds after the swipe. */
  lemma BoostLasts(m: Movement, swipeTime: real, now: real)
    requires ValidMovement(m)
    ensures now < swipeTime + SwipeDecelerationDuration ==> RateAt(Boosted(m, swipeTime), now) == BoostedRate(DecelerationRate)
    ensures now >= swipeTime + SwipeDecelerationDuration ==> RateAt(Boosted(m, swipeTime), now) == DecelerationRate
  {
  }

  /** A swipe lowers the deceleration from 0.56 to 0.16 per second. */
  lemma BoostedRateValue()
    ensures BoostedRate(DecelerationRate) == 0.16
  {
  }

  /** A swipe does not change the speed: the decay restarts from the speed the penguin had. */
  lemma SwipeKeepsSpeed(m: Movement, now: real)
    requires ValidMovement(m)
    ensures Ticked(Boosted(m, now), now).currentSpeed == m.currentSpeed
  {
  }

  /** Between two updates the speed never grows, however the boost changes. */
  lemma TickNeverSpeedsUp(m: Movement, now: real)
    requires ValidMovement(m) && now >= m.lastSpeedUpdateTime
    ensures Ticked(m, now).currentSpeed <= m.speedAtLastUpdate
  {
    DecayNeverSpeedsUp(m.speedAtLastUpdate, RateAt(m, now), now - m.lastSpeedUpdateTime);
  }

  // ---------------------------------------------------------------------------
  // The snapshot of a round

  // The animation clips the systems play.
  const PenguinIdle: string := "Idle"
  const PenguinJump: string := "Jump01"
  const PenguinSlide: string := "SlideIdle"
  const BroomSweeping: string := "BroomIdle01"
  const BroomResting: string := "BroomIdle02"
  const BroomSwipe: string := "BroomSwipe"
  const PlayerSweeping: string := "PenguinBroomIdle01"
  const PlayerResting: string := "PenguinBroomIdle02"
  const PlayerSwipe: string := "PenguinSwipe01"

  /** A box given by a Transform: `center` its position, `scale` its full size. */
  datatype Box = Box(center: Vec3, scale: Vec3)

  /**
   * What `initializeGameEntities` found in the scene; fixed for the session.
   * `hasBroom`/`hasPlayer`: the entity exists and has a Transform. The three
   * animator flags: the entity exists and has an Animator. The code tests the
   * two components separately, so any combination of the flags can occur.
   */
  datatype Scene = Scene(
    home: Option<Vec3>,
    loseZone: Option<Box>,
    hasBroom: bool,
    hasPlayer: bool,
    penguinAnimator: bool,
    broomAnimator: bool,
    playerAnimator: bool,
    penguinStart: Vec3,
    broomStart: Vec3,
    playerStart: Vec3)

  /** Everything the systems change. Times in `lastCountdownUpdate` are milliseconds, the others seconds. */
  datatype World = World(
    game: Record,
    penguin: Track,
    broom: Track,
    player: Track,
    penguinPos: Vec3,
    broomPos: Vec3,
    playerPos: Vec3,
    countdownTimer: int,
    lastCountdownUpdate: real,
    movement: Option<Movement>,
    lastSwipeTime: real,
    swipeBoxVisible: bool,
    submitted: seq<int>)

  /** The invariant every system and handler keeps. */
  predicate ValidWorld(w: World) {
    && ValidTrack(w.penguin) && ValidTrack(w.broom) && ValidTrack(w.player)
    && (w.game.state == Countdown ==>
          1 <= w.countdownTimer <= CountdownDuration && w.game.countdownValue == w.countdownTimer)
    && (w.game.state != Playing ==> w.movement.None?)
    && (w.movement.Some? ==> ValidMovement(w.movement.value))
    && (w.game.state != Ended ==> w.game.score == 0 && !w.game.hasLost)
    && 0 <= w.game.score <= MaxScore
    && (w.game.hasLost ==> w.game.score == 0)
    && (w.game.state == Ended && w.game.score > 0 ==>
          |w.submitted| > 0 && w.submitted[|w.submitted| - 1] == w.game.score)
    && ValidSubmissions(w.submitted)
  }

  /** Every submitted score is one that counts: above 0 and at most the maximum. */
  predicate ValidSubmissions(s: seq<int>) {
    forall i :: 0 <= i < |s| ==> 0 < s[i] <= MaxScore
  }

  /** `d` is the distance from `p` to the home, when the scene has one. */
  predicate DistanceToHome(sc: Scene, p: Vec3, d: real) {
    sc.home.Some? ==> IsDistance2D(p, sc.home.value, d)
  }

  /** The snapshot right after `initializeGameEntities`. */
  function InitialWorld(sc: Scene, penguinStates: seq<ClipState>, broomStates: seq<ClipState>,
                        playerStates: seq<ClipState>, broomPos: Vec3, playerPos: Vec3): World
  {
    World(Initial,
          Track(penguinStates, PenguinIdle, None, 0.0, false),
          Track(broomStates, BroomResting, None, 0.0, false),
          Track(playerStates, PlayerResting, None, 0.0, false),
          sc.penguinStart, broomPos, playerPos, 0, 0.0, None, 0.0, false, [])
  }

  // ---------------------------------------------------------------------------
  // The systems and handlers, as functions of the snapshot

  /** The click handler of the penguin friend: opens the dialog, in `idle` only. */
  function FriendDialogOpened(w: World): World {
    if w.game.state != Idle then w
    else w.(game := w.game.(showPenguinFriendDialog := true))
  }

  /** `closePenguinFriendDialog`. */
  function FriendDialogClosed(w: World): World {
    w.(game := w.game.(showPenguinFriendDialog := false))
  }

  /** `startGame`: in `idle` only; the three characters back at their start and a countdown of 3. */
  function GameStarted(sc: Scene, w: World, nowMs: real): World {
    if w.game.state != Idle then w
    else w.(
      penguinPos := sc.penguinStart,
      broomPos := if sc.hasBroom then sc.broomStart else w.broomPos,
      playerPos := if sc.hasPlayer then sc.playerStart else w.playerPos,
      penguin := PlayedWithTransition(sc.penguinAnimator, w.penguin, PenguinJump, true),
      game := Assigned(w.game, Countdown, CountdownDuration, 0, false),
      countdownTimer := CountdownDuration,
      lastCountdownUpdate := nowMs)
  }

  /** `startGameFromDialog`. */
  function StartedFromDialog(sc: Scene, w: World, nowMs: real): World {
    GameStarted(sc, FriendDialogClosed(w), nowMs)
  }

  /**
   * The end of the countdown: playing, the clips of the round started, the
   * distance to the home recorded and the penguin launched.
   */
  function PlayStarted(sc: Scene, w: World, nowMs: real, d: real): World
    requires DistanceToHome(sc, w.penguinPos, d)
  {
    var w1 := RoundClipsStarted(sc, w).(
      game := w.game.(state := Playing, countdownValue := 0, countdownShakeX := 0.0, countdownShakeY := 0.0));
    match sc.home
    case None => w1
    case Some(h) =>
      var w2 := w1.(game := w1.game.(distanceToHome := d));
      match Launched(w.penguinPos, h, d, nowMs / 1000.0)
      case None => w2
      case Some(m) => w2.(movement := Some(m), swipeBoxVisible := true)
  }

  /** The clips of the round: the penguin slides, the broom and the player sweep. */
  function RoundClipsStarted(sc: Scene, w: World): World {
    w.(penguin := PlayedWithTransition(sc.penguinAnimator, w.penguin, PenguinSlide, true),
       broom := PlayedWithTransition(sc.broomAnimator, w.broom, BroomSweeping, true).(restoreAt := 0.0, reachedStopZ := false),
       player := PlayedWithTransition(sc.playerAnimator, w.player, PlayerSweeping, true).(restoreAt := 0.0, reachedStopZ := false))
  }

  /**
   * `gameStateSystem` at time `nowMs`: during the countdown the shake offsets
   * follow the clock, and once a second has passed since the last update the
   * counter goes down by one; when it reaches 0 the round starts.
   */
  function CountdownTicked(sc: Scene, w: World, nowMs: real, shakeX: real, shakeY: real, d: real): World
    requires w.game.state == Countdown ==> DistanceToHome(sc, w.penguinPos, d)
  {
    if w.game.state != Countdown then w
    else
      var w1 := w.(game := w.game.(countdownShakeX := shakeX, countdownShakeY := shakeY));
      if (nowMs - w.lastCountdownUpdate) / 1000.0 < 1.0 then w1
      else
        var w2 := CountedDown(w1, nowMs);
        if w2.countdownTimer <= 0 then PlayStarted(sc, w2, nowMs, d) else w2
  }

  /** The counter one lower, in the timer and in the record, and the clock of the last update at `nowMs`. */
  function CountedDown(w: World, nowMs: real): World {
    var timer := w.countdownTimer - 1;
    w.(countdownTimer := timer, lastCountdownUpdate := nowMs, game := w.game.(countdownValue := timer))
  }

  /**
   * `handleSwipe` at time `nowMs`: while playing and before the player reaches
   * the stop line the swipe clips restart; the deceleration boost and the
   * cooldown clock only once the cooldown is over.
   */
  function SwipeHandled(sc: Scene, w: World, nowMs: real): World
  {
    if w.game.state != Playing then w
    else if sc.hasPlayer && w.playerPos.z >= PenguinPlayerStopZ then w
    else
      var now := nowMs / 1000.0;
      var w1 := SwipeClipsPlayed(sc, w, now);
      if now - w.lastSwipeTime >= SwipeCooldown then
        w1.(movement := if w.movement.Some? then Some(Boosted(w.movement.value, now)) else None,
            lastSwipeTime := now)
      else w1
  }

  /** The swipe clips of the broom and the player restarted at time `now`. */
  function SwipeClipsPlayed(sc: Scene, w: World, now: real): World {
    w.(broom := SwipePlayed(sc.broomAnimator, w.broom, BroomSwipe, now),
       player := SwipePlayed(sc.playerAnimator, w.player, PlayerSwipe, now))
  }

  /** The score of a round that ends with the penguin at `p`, `d` from the home. */
  function FinalScore(sc: Scene, p: Vec3, hasLost: bool, d: real): (r: int)
    requires DistanceToHome(sc, p, d)
    ensures 0 <= r <= MaxScore
    ensures hasLost || sc.home.None? ==> r == 0
  {
    if sc.home.Some? && !hasLost then CalculateScore(p, sc.home.value, d) else 0
  }

  /**
   * `endGame(hasLost)`: in `playing` only; the round ends with its score and
   * distance, the score is submitted when it counts, the penguin stops and the
   * end-of-round clips start.
   */
  function GameEnded(sc: Scene, w: World, hasLost: bool, d: real): World
    requires DistanceToHome(sc, w.penguinPos, d)
  {
    if w.game.state != Playing then w
    else
      var score := FinalScore(sc, w.penguinPos, hasLost, d);
      EndClipsPlayed(sc, w).(
        game := Assigned(w.game, Ended, 0, score, hasLost, if sc.home.Some? then d else 0.0),
        submitted := if !hasLost && score > 0 then w.submitted + [score] else w.submitted,
        movement := None)
  }

  /** The end-of-round clips: the penguin jumps, the broom and the player rest. */
  function EndClipsPlayed(sc: Scene, w: World): World {
    w.(penguin := PlayedWithTransition(sc.penguinAnimator, w.penguin, PenguinJump, true),
       broom := PlayedWithTransition(sc.broomAnimator, w.broom, BroomResting, true).(restoreAt := 0.0),
       player := PlayedWithTransition(sc.playerAnimator, w.player, PlayerResting, true).(restoreAt := 0.0))
  }

  /** `restartGame`: in `ended` only; back to `idle` with the characters at their start. */
  function GameRestarted(sc: Scene, w: World): World {
    if w.game.state != Ended then w
    else RestartClipsPlayed(sc, w).(
      game := Assigned(w.game, Idle, 0, 0, false, 0.0),
      penguinPos := sc.penguinStart,
      broomPos := if sc.hasBroom then sc.broomStart else w.broomPos,
      playerPos := if sc.hasPlayer then sc.playerStart else w.playerPos,
      swipeBoxVisible := false,
      movement := None)
  }

  /** The clips of a new round: the penguin idles, the broom and the player rest before the stop line. */
  function RestartClipsPlayed(sc: Scene, w: World): World {
    w.(penguin := PlayedWithTransition(sc.penguinAnimator, w.penguin, PenguinIdle, true),
       broom := PlayedWithTransition(sc.broomAnimator, w.broom, BroomResting, true).(restoreAt := 0.0, reachedStopZ := false),
       player := PlayedWithTransition(sc.playerAnimator, w.player, PlayerResting, true).(restoreAt := 0.0, reachedStopZ := false))
  }

  /**
   * The frame of `penguinMovementSystem` before its end checks: the speed
   * decays, the penguin moves, the broom and the player follow up to the stop
   * line, and the distance and `canSwipe` are refreshed.
   */
  function Moved(sc: Scene, w: World, m: Movement, now: real, dt: real, d: real): World
  {
    var m1 := Ticked(m, now);
    var delta := Scale(m1.velocity, dt);
    var broom1 := IdleRestoredIfDue(sc.broomAnimator, w.broom, BroomSweeping, now);
    var player1 := IdleRestoredIfDue(sc.playerAnimator, w.player, PlayerSweeping, now);
    var broomPos := if sc.hasBroom then Followed(w.broomPos, delta) else w.broomPos;
    var playerPos := if sc.hasPlayer then Followed(w.playerPos, delta) else w.playerPos;
    var playerZ := if sc.hasPlayer then playerPos.z else 0.0;
    w.(movement := Some(m1),
       penguinPos := Add(w.penguinPos, delta),
       broom := if sc.hasBroom then StopLineReached(sc.broomAnimator, broom1, broomPos.z, BroomResting) else broom1,
       player := if sc.hasPlayer then StopLineReached(sc.playerAnimator, player1, playerPos.z, PlayerResting) else player1,
       broomPos := broomPos,
       playerPos := playerPos,
       game := w.game.(distanceToHome := if sc.home.Some? then d else w.game.distanceToHome,
                       canSwipe := playerZ < PenguinPlayerStopZ))
  }

  /**
   * `penguinMovementSystem(dt)` at time `nowMs`, `d` being the distance from
   * the penguin's new position to the home: the round is lost when the penguin
   * lands in the lose zone and ends normally once it has (almost) stopped.
   */
  function MovementTicked(sc: Scene, w: World, nowMs: real, dt: real, d: real): World
    requires w.game.state == Playing && w.movement.Some? ==>
      DistanceToHome(sc, PenguinAfter(w.movement.value, w.penguinPos, nowMs / 1000.0, dt), d)
  {
    if w.game.state != Playing || w.movement.None? then w
    else
      EndChecked(sc, Moved(sc, w, w.movement.value, nowMs / 1000.0, dt, d), d)
  }

  /** The end checks of a movement frame: lost in the lose zone, ended once (almost) stopped. */
  function EndChecked(sc: Scene, w: World, d: real): World
    requires w.movement.Some? && DistanceToHome(sc, w.penguinPos, d)
  {
    if sc.loseZone.Some? && IsPointInBox(w.penguinPos, sc.loseZone.value.center, sc.loseZone.value.scale) then
      GameEnded(sc, w, true, d)
    else if w.movement.value.currentSpeed <= 0.01 then GameEnded(sc, w, false, d)
    else w
  }

  /** `animationTransitionSystem(dt)`: every crossfade in progress advances by `dt`. */
  function AnimationsStepped(sc: Scene, w: World, dt: real): World
    requires ValidWorld(w)
  {
    w.(penguin := Stepped(sc.penguinAnimator, w.penguin, dt),
       broom := Stepped(sc.broomAnimator, w.broom, dt),
       player := Stepped(sc.playerAnimator, w.player, dt))
  }

  // ---------------------------------------------------------------------------
  // Properties of a round

  /** The phase that follows `p`: idle, countdown, playing, ended, and idle again. */
  function NextPhase(p: Phase): Phase {
    match p
    case Idle => Countdown
    case Countdown => Playing
    case Playing => Ended
    case Ended => Idle
  }

  /** `after` is in the phase of `before` or in the one that follows it. */
  predicate FollowsPhaseOrder(before: World, after: World) {
    after.game.state == before.game.state || after.game.state == NextPhase(before.game.state)
  }

  /** The initial snapshot satisfies the invariant. */
  lemma InitialWorldValid(sc: Scene, ps: seq<ClipState>, bs: seq<ClipState>, qs: seq<ClipState>, b: Vec3, q: Vec3)
    ensures ValidWorld(InitialWorld(sc, ps, bs, qs, b, q))
    ensures InitialWorld(sc, ps, bs, qs, b, q).game.state == Idle
  {
  }

  /** The dialog and the animation system never change the phase. */
  lemma DialogAndAnimationKeepPhase(sc: Scene, w: World, dt: real)
    requires ValidWorld(w)
    ensures FriendDialogOpened(w).game.state == w.game.state
    ensures FriendDialogClosed(w).game.state == w.game.state
    ensures AnimationsStepped(sc, w, dt).game.state == w.game.state
  {
  }

  /** `startGame` acts in `idle` only, and starts a countdown of `COUNTDOWN_DURATION`. */
  lemma StartGameGuard(sc: Scene, w: World, nowMs: real)
    ensures w.game.state != Idle ==> GameStarted(sc, w, nowMs) == w
    ensures w.game.state == Idle ==>
      var r := GameStarted(sc, w, nowMs);
      && r.game.state == Countdown && r.game.countdownValue == CountdownDuration
      && r.countdownTimer == CountdownDuration && r.lastCountdownUpdate == nowMs
      && r.game.score == 0 && !r.game.hasLost && r.game.canSwipe
      && r.penguinPos == sc.penguinStart
      && r.game.showPenguinFriendDialog == w.game.showPenguinFriendDialog
    ensures FollowsPhaseOrder(w, GameStarted(sc, w, nowMs))
  {
  }

  /** The start button and the dialog's Yes button both start the countdown from `idle`, but the latter closes the dialog. */
  lemma StartFromDialogClosesDialog(sc: Scene, w: World, nowMs: real)
    ensures !StartedFromDialog(sc, w, nowMs).game.showPenguinFriendDialog
    ensures StartedFromDialog(sc, w, nowMs).game.state == GameStarted(sc, w, nowMs).game.state
  {
  }

  /**
   * A countdown tick: within a second of the last one only the shake moves;
   * after a second the counter goes down by exactly one, and the round starts
   * when it reaches 0.
   */
  lemma CountdownTick(sc: Scene, w: World, nowMs: real, shakeX: real, shakeY: real, d: real)
    requires ValidWorld(w) && w.game.state == Countdown && DistanceToHome(sc, w.penguinPos, d)
    ensures var r := CountdownTicked(sc, w, nowMs, shakeX, shakeY, d);
      && (nowMs - w.lastCountdownUpdate < 1000.0 ==>
            r == w.(game := w.game.(countdownShakeX := shakeX, countdownShakeY := shakeY)))
      && (nowMs - w.lastCountdownUpdate >= 1000.0 ==>
            r.countdownTimer == w.countdownTimer - 1 && r.lastCountdownUpdate == nowMs)
      && (nowMs - w.lastCountdownUpdate >= 1000.0 && w.countdownTimer > 1 ==>
            r.game.state == Countdown && r.game.countdownValue == w.countdownTimer - 1)
      && (nowMs - w.lastCountdownUpdate >= 1000.0 && w.countdownTimer == 1 ==>
            && r.game.state == Playing && r.game.countdownValue == 0
            && r.game.countdownShakeX == 0.0 && r.game.countdownShakeY == 0.0
            && (r.movement.Some? <==> sc.home.Some? && d >= 0.01)
            && (sc.home.Some? ==> r.game.distanceToHome == d))
    ensures FollowsPhaseOrder(w, CountdownTicked(sc, w, nowMs, shakeX, shakeY, d))
  {
    var w1 := w.(game := w.game.(countdownShakeX := shakeX, countdownShakeY := shakeY));
    var r := CountdownTicked(sc, w, nowMs, shakeX, shakeY, d);
    if nowMs - w.lastCountdownUpdate < 1000.0 {
      assert r == w1;
    } else {
      var w2 := CountedDown(w1, nowMs);
      assert w2.countdownTimer == w.countdownTimer - 1 && w2.game.countdownValue == w2.countdownTimer;
      if w.countdownTimer > 1 {
        assert r == w2;
      } else {
        assert r == PlayStarted(sc, w2, nowMs, d);
        assert r.game.state == Playing;
      }
    }
  }

  /** A penguin already on the home's spot records distance 0 and is not launched. */
  lemma OnHomeNotLaunched(sc: Scene, w: World, nowMs: real, d: real)
    requires sc.home.Some? && sc.home.value.x == w.penguinPos.x && sc.home.value.z == w.penguinPos.z
    requires DistanceToHome(sc, w.penguinPos, d)
    ensures PlayStarted(sc, w, nowMs, d).game.distanceToHome == 0.0
    ensures PlayStarted(sc, w, nowMs, d).movement == w.movement
  {
    Distance2DZero(w.penguinPos, sc.home.value, d);
  }

  /** Three ticks a second apart take a countdown started at `t0` to `playing`; no earlier tick counts. */
  lemma CountdownLastsThreeSeconds(sc: Scene, w: World, t0: real, sx: real, sy: real, d: real)
    requires ValidWorld(w) && w.game.state == Idle && DistanceToHome(sc, sc.penguinStart, d)
    ensures var w0 := GameStarted(sc, w, t0);
      && CountdownTicked(sc, w0, t0 + 999.0, sx, sy, d).countdownTimer == CountdownDuration
      && var w1 := CountdownTicked(sc, w0, t0 + 1000.0, sx, sy, d);
         && w1.game.state == Countdown && w1.game.countdownValue == 2
         && var w2 := CountdownTicked(sc, w1, t0 + 2000.0, sx, sy, d);
            && w2.game.state == Countdown && w2.game.countdownValue == 1
            && CountdownTicked(sc, w2, t0 + 3000.0, sx, sy, d).game.state == Playing
  {
    var w0 := GameStarted(sc, w, t0);
    CountdownTick(sc, w0, t0 + 1000.0, sx, sy, d);
    var w1 := CountdownTicked(sc, w0, t0 + 1000.0, sx, sy, d);
    CountdownTick(sc, w1, t0 + 2000.0, sx, sy, d);
    var w2 := CountdownTicked(sc, w1, t0 + 2000.0, sx, sy, d);
    CountdownTick(sc, w2, t0 + 3000.0, sx, sy, d);
  }

  /**
   * `endGame` acts in `playing` only. A lost round scores 0; a score is
   * submitted exactly when the round is not lost and scores more than 0.
   */
  lemma EndGameRules(sc: Scene, w: World, hasLost: bool, d: real)
    requires DistanceToHome(sc, w.penguinPos, d)
    ensures w.game.state != Playing ==> GameEnded(sc, w, hasLost, d) == w
    ensures w.game.state == Playing ==>
      var r := GameEnded(sc, w, hasLost, d);
      && r.game.state == Ended && r.game.hasLost == hasLost && r.movement.None? && r.game.canSwipe
      && (hasLost ==> r.game.score == 0)
      && (!hasLost && sc.home.Some? ==> r.game.score == CalculateScore(w.penguinPos, sc.home.value, d))
      && (r.submitted == w.submitted + [r.game.score] <==> !hasLost && r.game.score > 0)
      && (r.submitted == w.submitted <==> hasLost || r.game.score == 0)
    ensures FollowsPhaseOrder(w, GameEnded(sc, w, hasLost, d))
  {
  }

  /** `restartGame` acts in `ended` only, and returns to the initial record. */
  lemma RestartRules(sc: Scene, w: World)
    ensures w.game.state != Ended ==> GameRestarted(sc, w) == w
    ensures w.game.state == Ended ==>
      var r := GameRestarted(sc, w);
      && r.game == Initial.(showPenguinFriendDialog := w.game.showPenguinFriendDialog,
                            countdownShakeX := w.game.countdownShakeX, countdownShakeY := w.game.countdownShakeY)
      && r.movement.None? && !r.swipeBoxVisible && r.penguinPos == sc.penguinStart
      && !r.broom.reachedStopZ && !r.player.reachedStopZ
    ensures FollowsPhaseOrder(w, GameRestarted(sc, w))
  {
  }

  /**
   * `handleSwipe` changes nothing unless the round is playing and the player
   * is before the stop line; beyond the clips, it changes the movement and the
   * cooldown clock only once `SWIPE_COOLDOWN` has passed since the last boost.
   */
  lemma SwipeRules(sc: Scene, w: World, nowMs: real)
    requires ValidWorld(w)
    ensures w.game.state != Playing || (sc.hasPlayer && w.playerPos.z >= PenguinPlayerStopZ) ==>
      SwipeHandled(sc, w, nowMs) == w
    ensures w.game.state == Playing && !(sc.hasPlayer && w.playerPos.z >= PenguinPlayerStopZ) ==>
      var r := SwipeHandled(sc, w, nowMs);
      var now := nowMs / 1000.0;
      && r.game == w.game && r.penguinPos == w.penguinPos
      && (now - w.lastSwipeTime < SwipeCooldown ==> r.movement == w.movement && r.lastSwipeTime == w.lastSwipeTime)
      && (now - w.lastSwipeTime >= SwipeCooldown ==>
            r.lastSwipeTime == now &&
            (r.movement.Some? <==> w.movement.Some?) &&
            (r.movement.Some? ==>
               r.movement.value.currentDecelerationRate == BoostedRate(DecelerationRate) &&
               r.movement.value.speedAtLastUpdate == w.movement.value.currentSpeed &&
               r.movement.value.decelerationReductionEndTime == now + SwipeDecelerationDuration))
    ensures FollowsPhaseOrder(w, SwipeHandled(sc, w, nowMs))
  {
  }

  /**
   * A movement frame: the speed decays without going negative, the broom and
   * the player never pass the stop line, and while the round goes on
   * `canSwipe` says whether the player is before the stop line. The round is
   * lost exactly when the penguin lands in the lose zone.
   */
  lemma MovementRules(sc: Scene, w: World, nowMs: real, dt: real, d: real)
    requires ValidWorld(w) && w.game.state == Playing && w.movement.Some?
    requires DistanceToHome(sc, PenguinAfter(w.movement.value, w.penguinPos, nowMs / 1000.0, dt), d)
    ensures var r := MovementTicked(sc, w, nowMs, dt, d);
      var m := Ticked(w.movement.value, nowMs / 1000.0);
      var p := PenguinAfter(w.movement.value, w.penguinPos, nowMs / 1000.0, dt);
      var inLoseZone := sc.loseZone.Some? && IsPointInBox(p, sc.loseZone.value.center, sc.loseZone.value.scale);
      && r.penguinPos == p
      && m.currentSpeed >= 0.0
      && (sc.hasBroom ==> r.broomPos.z <= PenguinPlayerStopZ)
      && (sc.hasPlayer ==> r.playerPos.z <= PenguinPlayerStopZ)
      && (r.game.state == Playing <==> !inLoseZone && m.currentSpeed > 0.01)
      && (r.game.state == Playing ==>
            r.movement == Some(m) && r.game.canSwipe == (sc.hasPlayer ==> r.playerPos.z < PenguinPlayerStopZ))
      && (r.game.state == Ended ==> (r.game.hasLost <==> inLoseZone))
    ensures FollowsPhaseOrder(w, MovementTicked(sc, w, nowMs, dt, d))
  {
  }

  // ---------------------------------------------------------------------------
  // The invariant is kept

  lemma TrackRewritesValid(hasAnimator: bool, t: Track, clip: string, loop: bool, now: real, z: real, dt: real)
    requires ValidTrack(t)
    ensures ValidTrack(PlayedWithTransition(hasAnimator, t, clip, loop))
    ensures ValidTrack(SwipePlayed(hasAnimator, t, clip, now))
    ensures ValidTrack(IdleRestoredIfDue(hasAnimator, t, clip, now))
    ensures ValidTrack(StopLineReached(hasAnimator, t, z, clip))
    ensures ValidTrack(Stepped(hasAnimator, t, dt))
  {
  }

  lemma StartKeepsValid(sc: Scene, w: World, nowMs: real)
    requires ValidWorld(w)
    ensures ValidWorld(GameStarted(sc, w, nowMs))
  {
    if w.game.state == Idle {
      TrackRewritesValid(sc.penguinAnimator, w.penguin, PenguinJump, true, 0.0, 0.0, 0.0);
      var r := GameStarted(sc, w, nowMs);
      assert r.game.state == Countdown && r.countdownTimer == CountdownDuration == r.game.countdownValue;
      assert r.game.score == 0 && !r.game.hasLost && r.movement.None?;
      assert r.submitted == w.submitted && r.broom == w.broom && r.player == w.player;
    }
  }

  lemma DialogKeepsValid(sc: Scene, w: World, nowMs: real)
    requires ValidWorld(w)
    ensures ValidWorld(FriendDialogOpened(w)) && ValidWorld(FriendDialogClosed(w))
    ensures ValidWorld(StartedFromDialog(sc, w, nowMs))
  {
    StartKeepsValid(sc, FriendDialogClosed(w), nowMs);
  }

  lemma RoundClipsKeepValid(sc: Scene, w: World)
    requires ValidTrack(w.penguin) && ValidTrack(w.broom) && ValidTrack(w.player)
    ensures var r := RoundClipsStarted(sc, w);
      && ValidTrack(r.penguin) && ValidTrack(r.broom) && ValidTrack(r.player)
      && r.game == w.game && r.movement == w.movement && r.submitted == w.submitted
  {
    TrackRewritesValid(sc.penguinAnimator, w.penguin, PenguinSlide, true, 0.0, 0.0, 0.0);
    TrackRewritesValid(sc.broomAnimator, w.broom, BroomSweeping, true, 0.0, 0.0, 0.0);
    TrackRewritesValid(sc.playerAnimator, w.player, PlayerSweeping, true, 0.0, 0.0, 0.0);
  }

  lemma PlayStartKeepsValid(sc: Scene, w: World, nowMs: real, d: real)
    requires ValidTrack(w.penguin) && ValidTrack(w.broom) && ValidTrack(w.player)
    requires w.movement.None? && w.game.score == 0 && !w.game.hasLost
    requires ValidSubmissions(w.submitted) && DistanceToHome(sc, w.penguinPos, d)
    ensures ValidWorld(PlayStarted(sc, w, nowMs, d))
  {
    RoundClipsKeepValid(sc, w);
    var w1 := RoundClipsStarted(sc, w);
    var r := PlayStarted(sc, w, nowMs, d);
    assert r.game.state == Playing && r.game.score == 0 && !r.game.hasLost;
    assert r.submitted == w.submitted;
    assert r.penguin == w1.penguin && r.broom == w1.broom && r.player == w1.player;
    assert r.movement.Some? ==> ValidMovement(r.movement.value);
  }

  lemma CountdownKeepsValid(sc: Scene, w: World, nowMs: real, shakeX: real, shakeY: real, d: real)
    requires ValidWorld(w) && (w.game.state == Countdown ==> DistanceToHome(sc, w.penguinPos, d))
    ensures ValidWorld(CountdownTicked(sc, w, nowMs, shakeX, shakeY, d))
  {
    if w.game.state == Countdown {
      var w1 := w.(game := w.game.(countdownShakeX := shakeX, countdownShakeY := shakeY));
      if (nowMs - w.lastCountdownUpdate) / 1000.0 < 1.0 {
        assert CountdownTicked(sc, w, nowMs, shakeX, shakeY, d) == w1;
      } else {
        var w2 := CountedDown(w1, nowMs);
        assert w2.countdownTimer == w.countdownTimer - 1 == w2.game.countdownValue;
        assert w2.game.state == Countdown && w2.game.score == 0 && !w2.game.hasLost && w2.movement.None?;
        assert w2.submitted == w.submitted && w2.penguin == w.penguin && w2.broom == w.broom && w2.player == w.player;
        if w2.countdownTimer <= 0 {
          assert CountdownTicked(sc, w, nowMs, shakeX, shakeY, d) == PlayStarted(sc, w2, nowMs, d);
          PlayStartKeepsValid(sc, w2, nowMs, d);
        } else {
          assert CountdownTicked(sc, w, nowMs, shakeX, shakeY, d) == w2;
        }
      }
    }
  }

  lemma SwipeKeepsValid(sc: Scene, w: World, nowMs: real)
    requires ValidWorld(w)
    ensures ValidWorld(SwipeHandled(sc, w, nowMs))
  {
    if w.game.state == Playing && !(sc.hasPlayer && w.playerPos.z >= PenguinPlayerStopZ) {
      var now := nowMs / 1000.0;
      var w1 := SwipeClipsPlayed(sc, w, now);
      TrackRewritesValid(sc.broomAnimator, w.broom, BroomSwipe, true, now, 0.0, 0.0);
      TrackRewritesValid(sc.playerAnimator, w.player, PlayerSwipe, true, now, 0.0, 0.0);
      assert ValidTrack(w1.broom) && ValidTrack(w1.player);
      var r := SwipeHandled(sc, w, nowMs);
      assert r.game == w.game && r.submitted == w.submitted && r.penguin == w.penguin;
      assert r.broom == w1.broom && r.player == w1.player;
      if now - w.lastSwipeTime >= SwipeCooldown {
        assert r.movement == if w.movement.Some? then Some(Boosted(w.movement.value, now)) else None;
      } else {
        assert r.movement == w.movement;
      }
    }
  }

  lemma EndKeepsValid(sc: Scene, w: World, hasLost: bool, d: real)
    requires ValidWorld(w) && DistanceToHome(sc, w.penguinPos, d)
    ensures ValidWorld(GameEnded(sc, w, hasLost, d))
  {
    if w.game.state == Playing {
      TrackRewritesValid(sc.penguinAnimator, w.penguin, PenguinJump, true, 0.0, 0.0, 0.0);
      TrackRewritesValid(sc.broomAnimator, w.broom, BroomResting, true, 0.0, 0.0, 0.0);
      TrackRewritesValid(sc.playerAnimator, w.player, PlayerResting, true, 0.0, 0.0, 0.0);
      var r := GameEnded(sc, w, hasLost, d);
      var score := FinalScore(sc, w.penguinPos, hasLost, d);
      assert r.game.state == Ended && r.game.score == score && r.game.hasLost == hasLost && r.movement.None?;
      assert ValidTrack(r.penguin) && ValidTrack(r.broom) && ValidTrack(r.player);
      if !hasLost && score > 0 {
        assert r.submitted == w.submitted + [score];
        forall i | 0 <= i < |r.submitted| ensures 0 < r.submitted[i] <= MaxScore {
          if i < |w.submitted| {
            assert r.submitted[i] == w.submitted[i];
          }
        }
      } else {
        assert r.submitted == w.submitted;
      }
    }
  }

  lemma RestartKeepsValid(sc: Scene, w: World)
    requires ValidWorld(w)
    ensures ValidWorld(GameRestarted(sc, w))
  {
    if w.game.state == Ended {
      TrackRewritesValid(sc.penguinAnimator, w.penguin, PenguinIdle, true, 0.0, 0.0, 0.0);
      TrackRewritesValid(sc.broomAnimator, w.broom, BroomResting, true, 0.0, 0.0, 0.0);
      TrackRewritesValid(sc.playerAnimator, w.player, PlayerResting, true, 0.0, 0.0, 0.0);
      var r := GameRestarted(sc, w);
      assert r.game.state == Idle && r.game.score == 0 && !r.game.hasLost && r.movement.None?;
      assert r.submitted == w.submitted;
      assert ValidTrack(r.penguin) && ValidTrack(r.broom) && ValidTrack(r.player);
    }
  }

  lemma MovedKeepsValid(sc: Scene, w: World, now: real, dt: real, d: real)
    requires ValidWorld(w) && w.game.state == Playing && w.movement.Some?
    ensures var r := Moved(sc, w, w.movement.value, now, dt, d);
      ValidWorld(r) && r.game.state == Playing && r.penguinPos == PenguinAfter(w.movement.value, w.penguinPos, now, dt)
  {
    var b1 := IdleRestoredIfDue(sc.broomAnimator, w.broom, BroomSweeping, now);
    var p1 := IdleRestoredIfDue(sc.playerAnimator, w.player, PlayerSweeping, now);
    TrackRewritesValid(sc.broomAnimator, w.broom, BroomSweeping, true, now, 0.0, 0.0);
    TrackRewritesValid(sc.playerAnimator, w.player, PlayerSweeping, true, now, 0.0, 0.0);
    var r := Moved(sc, w, w.movement.value, now, dt, d);
    TrackRewritesValid(sc.broomAnimator, b1, BroomResting, true, now, r.broomPos.z, 0.0);
    TrackRewritesValid(sc.playerAnimator, p1, PlayerResting, true, now, r.playerPos.z, 0.0);
    assert r.game.state == Playing && r.game.score == 0 && !r.game.hasLost;
    assert r.submitted == w.submitted && r.penguin == w.penguin;
    assert ValidTrack(r.broom) && ValidTrack(r.player);
    assert r.movement == Some(Ticked(w.movement.value, now));
  }

  lemma EndCheckKeepsValid(sc: Scene, w: World, d: real)
    requires ValidWorld(w) && w.movement.Some? && DistanceToHome(sc, w.penguinPos, d)
    ensures ValidWorld(EndChecked(sc, w, d))
  {
    EndKeepsValid(sc, w, true, d);
    EndKeepsValid(sc, w, false, d);
  }

  lemma MovementKeepsValid(sc: Scene, w: World, nowMs: real, dt: real, d: real)
    requires ValidWorld(w)
    requires w.game.state == Playing && w.movement.Some? ==>
      DistanceToHome(sc, PenguinAfter(w.movement.value, w.penguinPos, nowMs / 1000.0, dt), d)
    ensures ValidWorld(MovementTicked(sc, w, nowMs, dt, d))
  {
    if w.game.state == Playing && w.movement.Some? {
      MovedKeepsValid(sc, w, nowMs / 1000.0, dt, d);
      EndCheckKeepsValid(sc, Moved(sc, w, w.movement.value, nowMs / 1000.0, dt, d), d);
    }
  }

  lemma AnimationsKeepValid(sc: Scene, w: World, dt: real)
    requires ValidWorld(w)
    ensures ValidWorld(AnimationsStepped(sc, w, dt))
  {
    TrackRewritesValid(sc.penguinAnimator, w.penguin, "", true, 0.0, 0.0, dt);
    TrackRewritesValid(sc.broomAnimator, w.broom, "", true, 0.0, 0.0, dt);
    TrackRewritesValid(sc.playerAnimator, w.player, "", true, 0.0, 0.0, dt);
    var r := AnimationsStepped(sc, w, dt);
    assert r.game == w.game && r.submitted == w.submitted && r.movement == w.movement;
  }
}
