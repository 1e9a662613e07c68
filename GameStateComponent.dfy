/**
 * The `GameState` component of the game-state entity and its helpers
 * (src/gameState.ts). The record has the nine fields the game creates it with
 * (src/systems.ts:361-371); the component schema in src/components.ts lists
 * only the first six.
 */
module GameStateComponent {
  import opened Wrappers

  /** The `state` string: 'idle' | 'countdown' | 'playing' | 'ended'. */
  datatype Phase = Idle | Countdown | Playing | Ended

  /** A snapshot of the component's fields. */
  datatype Record = Record(
    state: Phase,
    countdownValue: int,
    score: int,
    hasLost: bool,
    distanceToHome: real,
    canSwipe: bool,
    showPenguinFriendDialog: bool,
    countdownShakeX: real,
    countdownShakeY: real)

  /** The record after `setGameState(state, ...)`, with the source's default arguments. */
  function Assigned(r: Record, state: Phase, countdownValue: int := 0, score: int := 0, hasLost: bool := false,
                    distanceToHome: real := 0.0, canSwipe: bool := true): Record
  {
    r.(state := state, countdownValue := countdownValue, score := score, hasLost := hasLost,
       distanceToHome := distanceToHome, canSwipe := canSwipe)
  }

  /** The record the game-state entity is created with. */
  const Initial: Record := Record(Idle, 0, 0, false, 0.0, true, false, 0.0, 0.0)

  /**
   * The game-state entity. `present` says whether it has the `GameState`
   * component; the fields are the component's fields, updated in place.
   */
  class GameState {
    var present: bool
    var state: Phase
    var countdownValue: int
    var score: int
    var hasLost: bool
    var distanceToHome: real
    var canSwipe: bool
    var showPenguinFriendDialog: bool
    var countdownShakeX: real
    var countdownShakeY: real

    function Snapshot(): Record
      reads this
    {
      Record(state, countdownValue, score, hasLost, distanceToHome, canSwipe,
             showPenguinFriendDialog, countdownShakeX, countdownShakeY)
    }

    /** `GameState.create` with the initial record. */
    constructor ()
      ensures present && Snapshot() == Initial
    {
      present := true;
      state, countdownValue, score, hasLost, distanceToHome := Idle, 0, 0, false, 0.0;
      canSwipe, showPenguinFriendDialog, countdownShakeX, countdownShakeY := true, false, 0.0, 0.0;
    }

    /** An entity without the component. */
    constructor Absent()
      ensures !present
    {
      present := false;
      state, countdownValue, score, hasLost, distanceToHome := Idle, 0, 0, false, 0.0;
      canSwipe, showPenguinFriendDialog, countdownShakeX, countdownShakeY := true, false, 0.0, 0.0;
    }

    /** `getGameState`: the phase, or nothing when the entity has no component. */
    function GetGameState(): (r: Option<Phase>)
      reads this
      ensures r.None? <==> !present
      ensures r.Some? ==> r.value == state
    {
      if present then Some(state) else None
    }

    /**
     * `setGameState`: the six game fields take exactly the arguments, with the
     * source's defaults; the dialog flag and the countdown shake are untouched.
     */
    method SetGameState(state: Phase, countdownValue: int := 0, score: int := 0, hasLost: bool := false,
                        distanceToHome: real := 0.0, canSwipe: bool := true)
      requires present
      modifies this
      ensures present
      ensures Snapshot() == Assigned(old(Snapshot()), state, countdownValue, score, hasLost, distanceToHome, canSwipe)
    {
      this.state := state;
      this.countdownValue := countdownValue;
      this.score := score;
      this.hasLost := hasLost;
      this.distanceToHome := distanceToHome;
      this.canSwipe := canSwipe;
    }

    /**
     * `resetGameState`: back to the initial record, except that the dialog flag
     * and the countdown shake keep their values.
     */
    method ResetGameState()
      requires present
      modifies this
      ensures present
      ensures Snapshot() == Initial.(showPenguinFriendDialog := old(showPenguinFriendDialog),
                                     countdownShakeX := old(countdownShakeX),
                                     countdownShakeY := old(countdownShakeY))
      ensures GetGameState() == Some(Idle)
    {
      SetGameState(Idle, 0, 0, false, 0.0);
    }
  }
}
