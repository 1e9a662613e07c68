/**
 * Types shared by the server and the client: the leaderboard record
 * (src/shared/leaderboard.ts) and the room messages as the code sends them.
 */
module Shared {

  /** The single durable storage key holding the all-time leaderboard. */
  const LeaderboardAllTimeKey: string := "leaderboard:allTime"

  /** One player's all-time record; `address` is the merge key. */
  datatype LeaderboardEntry = LeaderboardEntry(
    address: string,
    displayName: string,
    bestScore: int,
    playCount: int)

  /**
   * A JavaScript number as far as the code distinguishes it: a finite value,
   * or NaN / an infinity (rejected by every `Number.isFinite` guard).
   */
  datatype JsNumber = Finite(value: real) | NonFinite

  /**
   * The `score` field of an inbound `submitScore` payload: missing (the code
   * reads `data?.score ?? 0`), not a number, or an integer (the client always
   * sends `Math.round` of its score).
   */
  datatype ScoreField = Absent | NotANumber | Num(n: int)

  /** The messages sent through the room, by their use sites. */
  datatype Message =
    | Ping(ts: int)
    | GetLeaderboard
    | SubmitScore(score: int)
    | LeaderboardUpdate(entries: seq<LeaderboardEntry>)
}
