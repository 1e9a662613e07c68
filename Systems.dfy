/**
 * The game systems and handlers of src/systems.ts, updating the scene in
 * place. The entities the systems mutate are objects: the game-state entity
 * (GameStateComponent.GameState) and the three animated characters
 * (Animation.AnimatedEntity); the module-level variables of systems.ts and the
 * penguin's Transform and PenguinMovement components are fields of `Game`.
 * Every method is proved against the function of GameRules that gives the
 * snapshot it leaves behind, and keeps GameRules.ValidWorld.
 */
module Systems {
  import opened Wrappers
  import opened GameConstants
  import opened Scoring
  import opened GameStateComponent
  import opened Animation
  import opened GameRules

  class Game {
    /** What `initializeGameEntities` found in the scene. */
    const scene: Scene
    const gs: GameState
    const penguin: AnimatedEntity
    const broom: AnimatedEntity
    const player: AnimatedEntity

    /** The Transform positions of the penguin, the broom and the player. */
    var penguinPos: Vec3
    var broomPos: Vec3
    var playerPos: Vec3
    /** `countdownTimer` and `lastCountdownUpdate` (milliseconds). */
    var countdownTimer: int
    var lastCountdownUpdate: real
    /** The penguin's `PenguinMovement` component, when it has one. */
    var movement: Option<Movement>
    /** The `SwipeBox` component's `lastSwipeTime` (seconds) and `isVisible`. */
    var lastSwipeTime: real
    var swipeBoxVisible: bool
    /** The scores handed to `submitScore`, oldest first. */
    var submitted: seq<int>

    ghost function Repr(): set<object> {
      {this, gs, penguin, penguin.states, broom, broom.states, player, player.states}
    }

    /** The snapshot of everything the systems change. */
    function Snapshot(): World
      reads Repr()
    {
      GameRules.World(gs.Snapshot(), penguin.Snapshot(), broom.Snapshot(), player.Snapshot(),
                      penguinPos, broomPos, playerPos, countdownTimer, lastCountdownUpdate,
                      movement, lastSwipeTime, swipeBoxVisible, submitted)
    }

    /** The objects are distinct, and each animator is there exactly when the scene has it. */
    ghost predicate Wired() {
      && penguin != broom && penguin != player && broom != player
      && penguin.states != broom.states && penguin.states != player.states && broom.states != player.states
      && penguin.hasAnimator == scene.penguinAnimator
      && broom.hasAnimator == scene.broomAnimator
      && player.hasAnimator == scene.playerAnimator
    }

    ghost predicate Valid()
      reads Repr()
    {
      gs.present && Wired() && ValidWorld(Snapshot())
    }

    /** `initializeGameEntities`: the game-state entity in its initial record and the characters in their idle clips. */
    constructor (scene: Scene, penguinStates: array<ClipState>, broomStates: array<ClipState>,
                 playerStates: array<ClipState>, broomPos: Vec3, playerPos: Vec3)
      requires penguinStates != broomStates && penguinStates != playerStates && broomStates != playerStates
      ensures Valid()
      ensures Snapshot() == InitialWorld(scene, penguinStates[..], broomStates[..], playerStates[..], broomPos, playerPos)
    {
      this.scene := scene;
      gs := new GameState();
      penguin := new AnimatedEntity(scene.penguinAnimator, penguinStates, PenguinIdle);
      broom := new AnimatedEntity(scene.broomAnimator, broomStates, BroomResting);
      player := new AnimatedEntity(scene.playerAnimator, playerStates, PlayerResting);
      penguinPos := scene.penguinStart;
      this.broomPos := broomPos;
      this.playerPos := playerPos;
      countdownTimer := 0;
      lastCountdownUpdate := 0.0;
      movement := None;
      lastSwipeTime := 0.0;
      swipeBoxVisible := false;
      submitted := [];
      new;
      InitialWorldValid(scene, penguinStates[..], broomStates[..], playerStates[..], broomPos, playerPos);
    }

    /** The click handler of the penguin friend: the dialog opens in `idle` only. */
    method OpenFriendDialog()
      requires Valid()
      modifies Repr()
      ensures Valid()
      ensures Snapshot() == FriendDialogOpened(old(Snapshot()))
    {
      DialogKeepsValid(scene, Snapshot(), 0.0);
      if gs.state != Idle {
        return;
      }
      gs.showPenguinFriendDialog := true;
    }

    /** `closePenguinFriendDialog`. */
    method CloseFriendDialog()
      requires Valid()
      modifies Repr()
      ensures Valid()
      ensures Snapshot() == FriendDialogClosed(old(Snapshot()))
    {
      DialogKeepsValid(scene, Snapshot(), 0.0);
      gs.showPenguinFriendDialog := false;
    }

    /** `startGameFromDialog`: the dialog closes, then `startGame`. */
    method StartGameFromDialog(nowMs: real)
      requires Valid()
      modifies Repr()
      ensures Valid()
      ensures Snapshot() == StartedFromDialog(scene, old(Snapshot()), nowMs)
    {
      CloseFriendDialog();
      StartGame(nowMs);
    }

    /** `startGame` at time `nowMs`. */
    method StartGame(nowMs: real)
      requires Valid()
      modifies Repr()
      ensures Valid()
      ensures Snapshot() == GameStarted(scene, old(Snapshot()), nowMs)
    {
      StartKeepsValid(scene, Snapshot(), nowMs);
      if gs.state != Idle {
        return;
      }
      ResetPositions();
      penguin.PlayWithTransition(PenguinJump, true);
      gs.SetGameState(Countdown, CountdownDuration, 0, false);
      countdownTimer := CountdownDuration;
      lastCountdownUpdate := nowMs;
    }

    /** The penguin, and the broom and the player when the scene has them, back at their start positions. */
    method ResetPositions()
      modifies this
      ensures penguinPos == scene.penguinStart
      ensures broomPos == if scene.hasBroom then scene.broomStart else old(broomPos)
      ensures playerPos == if scene.hasPlayer then scene.playerStart else old(playerPos)
      ensures countdownTimer == old(countdownTimer) && lastCountdownUpdate == old(lastCountdownUpdate)
      ensures movement == old(movement) && lastSwipeTime == old(lastSwipeTime)
      ensures swipeBoxVisible == old(swipeBoxVisible) && submitted == old(submitted)
    {
      penguinPos := scene.penguinStart;
      if scene.hasBroom {
        broomPos := scene.broomStart;
      }
      if scene.hasPlayer {
        playerPos := scene.playerStart;
      }
    }

    /**
     * `gameStateSystem` at time `nowMs`. The shake offsets are computed from
     * the clock by the caller; `d` is the distance from the penguin to the home.
     */
    method GameStateTick(nowMs: real, shakeX: real, shakeY: real, d: real)
      requires Valid() && (gs.state == Countdown ==> DistanceToHome(scene, penguinPos, d))
      modifies Repr()
      ensures Valid()
      ensures Snapshot() == CountdownTicked(scene, old(Snapshot()), nowMs, shakeX, shakeY, d)
    {
      CountdownKeepsValid(scene, Snapshot(), nowMs, shakeX, shakeY, d);
      if gs.state != Countdown {
        return;
      }
      Shake(shakeX, shakeY);
      if (nowMs - lastCountdownUpdate) / 1000.0 < 1.0 {
        return;
      }
      CountDown(nowMs);
      if countdownTimer <= 0 {
        StartPlaying(nowMs, d);
      }
    }

    /** The end of the countdown: playing, the round's clips started, and the penguin launched. */
    method StartPlaying(nowMs: real, d: real)
      requires gs.present && Wired()
      requires ValidTrack(penguin.Snapshot()) && ValidTrack(broom.Snapshot()) && ValidTrack(player.Snapshot())
      requires DistanceToHome(scene, penguinPos, d)
      modifies Repr()
      ensures gs.present
      ensures Snapshot() == PlayStarted(scene, old(Snapshot()), nowMs, d)
    {
      EnterPlaying();
      PlayRoundClips();
      if scene.home.Some? {
        RecordDistance(d);
        InitializeMovement(nowMs, d);
      }
    }

    /** `initializePenguinMovement` at time `nowMs`, `d` being the planar distance from the penguin to the home. */
    method InitializeMovement(nowMs: real, d: real)
      requires scene.home.Some? && DistanceToHome(scene, penguinPos, d)
      modifies this
      ensures var launched := Launched(old(penguinPos), scene.home.value, d, nowMs / 1000.0);
        && movement == (if launched.Some? then launched else old(movement))
        && swipeBoxVisible == (launched.Some? || old(swipeBoxVisible))
      ensures penguinPos == old(penguinPos) && broomPos == old(broomPos) && playerPos == old(playerPos)
      ensures countdownTimer == old(countdownTimer) && lastCountdownUpdate == old(lastCountdownUpdate)
      ensures lastSwipeTime == old(lastSwipeTime) && submitted == old(submitted)
    {
      var launched := Launched(penguinPos, scene.home.value, d, nowMs / 1000.0);
      if launched.None? {
        return;
      }
      movement := launched;
      swipeBoxVisible := true;
    }

    /** `handleSwipe` at time `nowMs`. */
    method HandleSwipe(nowMs: real)
      requires Valid()
      modifies Repr()
      ensures Valid()
      ensures Snapshot() == SwipeHandled(scene, old(Snapshot()), nowMs)
    {
      SwipeKeepsValid(scene, Snapshot(), nowMs);
      if gs.state == Playing && !(scene.hasPlayer && playerPos.z >= PenguinPlayerStopZ) {
        Swipe(nowMs / 1000.0);
      }
    }

    /** The swipe clips, then the boost once the cooldown is over. */
    method Swipe(now: real)
      requires Wired() && ValidTrack(broom.Snapshot()) && ValidTrack(player.Snapshot())
      requires movement.Some? ==> ValidMovement(movement.value)
      modifies broom, broom.states, player, player.states, this
      ensures var w1 := SwipeClipsPlayed(scene, old(Snapshot()), now);
        Snapshot() == if now - old(lastSwipeTime) >= SwipeCooldown then
          w1.(movement := if old(movement).Some? then Some(Boosted(old(movement).value, now)) else None, lastSwipeTime := now)
        else w1
    {
      PlaySwipeClips(now);
      if now - lastSwipeTime >= SwipeCooldown {
        Boost(now);
      }
    }

    /** `swipeInputSystem`: a swipe when the key went down this frame, during play. */
    method SwipeInput(nowMs: real, pressed: bool)
      requires Valid()
      modifies Repr()
      ensures Valid()
      ensures Snapshot() == if pressed then SwipeHandled(scene, old(Snapshot()), nowMs) else old(Snapshot())
    {
      SwipeRules(scene, Snapshot(), nowMs);
      if gs.state != Playing {
        return;
      }
      if pressed {
        HandleSwipe(nowMs);
      }
    }

    /** `endGame(hasLost)`, `d` being the distance from the penguin to the home. */
    method EndGame(hasLost: bool, d: real)
      requires Valid() && DistanceToHome(scene, penguinPos, d)
      modifies Repr()
      ensures Valid()
      ensures Snapshot() == GameEnded(scene, old(Snapshot()), hasLost, d)
    {
      EndKeepsValid(scene, Snapshot(), hasLost, d);
      if gs.state != Playing {
        return;
      }
      var score := FinalScore(scene, penguinPos, hasLost, d);
      RecordEnd(score, hasLost, if scene.home.Some? then d else 0.0);
      PlayEndClips();
    }

    /** `restartGame`. */
    method RestartGame()
      requires Valid()
      modifies Repr()
      ensures Valid()
      ensures Snapshot() == GameRestarted(scene, old(Snapshot()))
    {
      RestartKeepsValid(scene, Snapshot());
      if gs.state != Ended {
        return;
      }
      gs.ResetGameState();
      ResetPositions();
      swipeBoxVisible := false;
      movement := None;
      PlayRestartClips();
    }

    /**
     * `penguinMovementSystem(dt)` at time `nowMs`; `d` is the distance from the
     * penguin's new position to the home.
     */
    method MovementTick(nowMs: real, dt: real, d: real)
      requires Valid()
      requires gs.state == Playing && movement.Some? ==>
        DistanceToHome(scene, PenguinAfter(movement.value, penguinPos, nowMs / 1000.0, dt), d)
      modifies Repr()
      ensures Valid()
      ensures Snapshot() == MovementTicked(scene, old(Snapshot()), nowMs, dt, d)
    {
      MovementKeepsValid(scene, Snapshot(), nowMs, dt, d);
      if gs.state != Playing || movement.None? {
        return;
      }
      MovedKeepsValid(scene, Snapshot(), nowMs / 1000.0, dt, d);
      Move(nowMs / 1000.0, dt, d);
      if scene.loseZone.Some? && IsPointInBox(penguinPos, scene.loseZone.value.center, scene.loseZone.value.scale) {
        EndGame(true, d);
        return;
      }
      if movement.value.currentSpeed <= 0.01 {
        EndGame(false, d);
      }
    }

    /** The frame of `penguinMovementSystem` at time `now` (seconds) before its end checks. */
    method Move(now: real, dt: real, d: real)
      requires gs.present && Wired() && movement.Some? && ValidMovement(movement.value)
      requires ValidTrack(broom.Snapshot()) && ValidTrack(player.Snapshot())
      modifies Repr()
      ensures gs.present
      ensures Snapshot() == Moved(scene, old(Snapshot()), old(movement.value), now, dt, d)
    {
      var delta := Scale(Ticked(movement.value, now).velocity, dt);
      TickMovement(now, dt);
      RestoreIdlesIfDue(now);
      if scene.hasBroom {
        FollowBroom(delta);
      }
      if scene.hasPlayer {
        FollowPlayer(delta);
      }
      RefreshDistanceAndSwipe(d);
    }

    /** `animationTransitionSystem(dt)`: the penguin's, the broom's and the player's crossfades advance. */
    method AnimationTick(dt: real)
      requires Valid()
      modifies Repr()
      ensures Valid()
      ensures Snapshot() == AnimationsStepped(scene, old(Snapshot()), dt)
    {
      AnimationsKeepValid(scene, Snapshot(), dt);
      penguin.Step(dt);
      broom.Step(dt);
      player.Step(dt);
    }

    // -------------------------------------------------------------------------
    // The steps the handlers are made of

    /** The countdown shake offsets of the record. */
    method Shake(shakeX: real, shakeY: real)
      modifies gs
      ensures gs.present == old(gs.present)
      ensures Snapshot() == old(Snapshot()).(game := old(gs.Snapshot()).(countdownShakeX := shakeX, countdownShakeY := shakeY))
    {
      gs.countdownShakeX := shakeX;
      gs.countdownShakeY := shakeY;
    }

    /** One second of the countdown: the counter one lower, in the timer and in the record. */
    method CountDown(nowMs: real)
      modifies this, gs
      ensures gs.present == old(gs.present)
      ensures Snapshot() == CountedDown(old(Snapshot()), nowMs)
    {
      countdownTimer := countdownTimer - 1;
      lastCountdownUpdate := nowMs;
      gs.countdownValue := countdownTimer;
    }

    /** The record in `playing`, with the countdown and its shake cleared. */
    method EnterPlaying()
      modifies gs
      ensures gs.present == old(gs.present)
      ensures Snapshot() == old(Snapshot()).(game := old(gs.Snapshot()).(state := Playing, countdownValue := 0,
                                                                    countdownShakeX := 0.0, countdownShakeY := 0.0))
    {
      gs.state, gs.countdownValue, gs.countdownShakeX, gs.countdownShakeY := Playing, 0, 0.0, 0.0;
    }

    /** The distance to the home in the record. */
    method RecordDistance(d: real)
      modifies gs
      ensures gs.present == old(gs.present)
      ensures Snapshot() == old(Snapshot()).(game := old(gs.Snapshot()).(distanceToHome := d))
    {
      gs.distanceToHome := d;
    }

    /** The record of an ended round, the score submitted when it counts, and the movement removed. */
    method RecordEnd(score: int, hasLost: bool, distance: real)
      requires gs.present
      modifies this, gs
      ensures gs.present
      ensures Snapshot() == old(Snapshot()).(game := Assigned(old(gs.Snapshot()), Ended, 0, score, hasLost, distance),
                                       submitted := if !hasLost && score > 0 then old(submitted) + [score] else old(submitted),
                                       movement := None)
    {
      gs.SetGameState(Ended, 0, score, hasLost, distance);
      if !hasLost && score > 0 {
        submitted := submitted + [score];
      }
      movement := None;
    }

    /** The deceleration boost of a swipe at time `now`, and the cooldown clock restarted. */
    method Boost(now: real)
      requires movement.Some? ==> ValidMovement(movement.value)
      modifies this
      ensures Snapshot() == old(Snapshot()).(movement := if old(movement).Some? then Some(Boosted(old(movement).value, now)) else None,
                                       lastSwipeTime := now)
    {
      if movement.Some? {
        movement := Some(Boosted(movement.value, now));
      }
      lastSwipeTime := now;
    }

    /** The speed update and the penguin's step of a movement frame at time `now`. */
    method TickMovement(now: real, dt: real)
      requires movement.Some? && ValidMovement(movement.value)
      modifies this
      ensures Snapshot() == old(Snapshot()).(movement := Some(Ticked(old(movement).value, now)),
                                       penguinPos := PenguinAfter(old(movement).value, old(penguinPos), now, dt))
    {
      var m := Ticked(movement.value, now);
      movement := Some(m);
      penguinPos := Add(penguinPos, Scale(m.velocity, dt));
    }

    /** The distance to the home, when the scene has one, and `canSwipe` from the player's position. */
    method RefreshDistanceAndSwipe(d: real)
      modifies gs
      ensures gs.present == old(gs.present)
      ensures Snapshot() == old(Snapshot()).(game := old(gs.Snapshot()).(
        distanceToHome := if scene.home.Some? then d else old(gs.distanceToHome),
        canSwipe := (if scene.hasPlayer then playerPos.z else 0.0) < PenguinPlayerStopZ))
    {
      if scene.home.Some? {
        gs.distanceToHome := d;
      }
      var playerZ := if scene.hasPlayer then playerPos.z else 0.0;
      gs.canSwipe := playerZ < PenguinPlayerStopZ;
    }

    method PlayRoundClips()
      requires Wired() && ValidTrack(penguin.Snapshot()) && ValidTrack(broom.Snapshot()) && ValidTrack(player.Snapshot())
      modifies penguin, penguin.states, broom, broom.states, player, player.states
      ensures Snapshot() == RoundClipsStarted(scene, old(Snapshot()))
    {
      penguin.PlayWithTransition(PenguinSlide, true);
      broom.PlayWithTransition(BroomSweeping, true);
      broom.restoreAt, broom.reachedStopZ := 0.0, false;
      player.PlayWithTransition(PlayerSweeping, true);
      player.restoreAt, player.reachedStopZ := 0.0, false;
    }

    method PlayEndClips()
      requires Wired() && ValidTrack(penguin.Snapshot()) && ValidTrack(broom.Snapshot()) && ValidTrack(player.Snapshot())
      modifies penguin, penguin.states, broom, broom.states, player, player.states
      ensures Snapshot() == EndClipsPlayed(scene, old(Snapshot()))
    {
      penguin.PlayWithTransition(PenguinJump, true);
      broom.PlayWithTransition(BroomResting, true);
      broom.restoreAt := 0.0;
      player.PlayWithTransition(PlayerResting, true);
      player.restoreAt := 0.0;
    }

    method PlayRestartClips()
      requires Wired() && ValidTrack(penguin.Snapshot()) && ValidTrack(broom.Snapshot()) && ValidTrack(player.Snapshot())
      modifies penguin, penguin.states, broom, broom.states, player, player.states
      ensures Snapshot() == RestartClipsPlayed(scene, old(Snapshot()))
    {
      penguin.PlayWithTransition(PenguinIdle, true);
      broom.PlayWithTransition(BroomResting, true);
      broom.restoreAt, broom.reachedStopZ := 0.0, false;
      player.PlayWithTransition(PlayerResting, true);
      player.restoreAt, player.reachedStopZ := 0.0, false;
    }

    method PlaySwipeClips(now: real)
      requires Wired() && ValidTrack(broom.Snapshot()) && ValidTrack(player.Snapshot())
      modifies broom, broom.states, player, player.states
      ensures Snapshot() == SwipeClipsPlayed(scene, old(Snapshot()), now)
    {
      broom.PlaySwipe(BroomSwipe, now);
      player.PlaySwipe(PlayerSwipe, now);
    }

    method RestoreIdlesIfDue(now: real)
      requires Wired() && ValidTrack(broom.Snapshot()) && ValidTrack(player.Snapshot())
      modifies broom, broom.states, player, player.states
      ensures ValidTrack(broom.Snapshot()) && ValidTrack(player.Snapshot())
      ensures Snapshot() == old(Snapshot()).(broom := IdleRestoredIfDue(scene.broomAnimator, old(broom.Snapshot()), BroomSweeping, now),
                                       player := IdleRestoredIfDue(scene.playerAnimator, old(player.Snapshot()), PlayerSweeping, now))
    {
      broom.RestoreIdleIfDue(BroomSweeping, now);
      player.RestoreIdleIfDue(PlayerSweeping, now);
    }

    /** The broom follows the penguin's displacement up to the stop line, and rests once there. */
    method FollowBroom(delta: Vec3)
      requires Wired() && ValidTrack(broom.Snapshot())
      modifies this, broom, broom.states
      ensures ValidTrack(broom.Snapshot())
      ensures Snapshot() == old(Snapshot()).(broomPos := Followed(old(broomPos), delta),
        broom := StopLineReached(scene.broomAnimator, old(broom.Snapshot()), Followed(old(broomPos), delta).z, BroomResting))
    {
      broomPos := Followed(broomPos, delta);
      broom.ReachStopLine(broomPos.z, BroomResting);
    }

    /** The player follows the penguin's displacement up to the stop line, and rests once there. */
    method FollowPlayer(delta: Vec3)
      requires Wired() && ValidTrack(player.Snapshot())
      modifies this, player, player.states
      ensures ValidTrack(player.Snapshot())
      ensures Snapshot() == old(Snapshot()).(playerPos := Followed(old(playerPos), delta),
        player := StopLineReached(scene.playerAnimator, old(player.Snapshot()), Followed(old(playerPos), delta).z, PlayerResting))
    {
      playerPos := Followed(playerPos, delta);
      player.ReachStopLine(playerPos.z, PlayerResting);
    }
  }
}
