/** The tuning constants of the game (src/constants.ts), as exact numbers. */
module GameConstants {

  /** Speed of the penguin when it is launched, in units per second. */
  const InitialSpeed: real := 5.3
  /** Base speed loss per second. */
  const DecelerationRate: real := 0.56
  /** How much a swipe lowers the deceleration while its boost lasts. */
  const SwipeDecelerationReduction: real := 0.4
  /** Seconds a swipe's lowered deceleration lasts. */
  const SwipeDecelerationDuration: real := 2.0
  /** Seconds of countdown before the penguin is launched. */
  const CountdownDuration: int := 3
  /** The score of a penguin that stops on the target. */
  const MaxScore: int := 1000
  /** Seconds between two swipes that boost. */
  const SwipeCooldown: real := 0.2
  /** Seconds an animation crossfade lasts. */
  const AnimationTransitionDuration: real := 0.6
  /** Seconds the swipe clip of the broom and the player plays before their idle clip is restored. */
  const BroomSwipeAnimationDuration: real := 0.5
  /** The z the broom and the player never pass; no swipe is accepted once the player is there. */
  const PenguinPlayerStopZ: real := 58.0
}
