/**
 * The client-side leaderboard cache (src/leaderboard/leaderboardClient.ts): the
 * last snapshot received, a `roomReady` latch, and a single pending score held
 * while the room is not ready (the latest one wins). `room.send` calls are an
 * append-only log; the host's `isRoomReady()` is passed in where the code asks it.
 */
module LeaderboardClient {
  import opened Wrappers
  import opened Shared
  import opened JsMath

  /** The guard shared by both send paths: finite and above zero. */
  predicate Submittable(score: JsNumber) {
    score.Finite? && score.value > 0.0
  }

  /** Every `submitScore` this client sends carries a non-negative integer. */
  predicate SentScoresNonNegative(outbox: seq<Message>) {
    forall i :: 0 <= i < |outbox| && outbox[i].SubmitScore? ==> outbox[i].score >= 0
  }

  class Client {
    /** The last `leaderboardUpdate` snapshot. */
    var entries: seq<LeaderboardEntry>
    var roomReady: bool
    var pendingScore: Option<real>
    /** Every `room.send`, oldest first. */
    var outbox: seq<Message>

    /** A score is only ever pending while the room is not ready, and it passed the guard. */
    ghost predicate Valid()
      reads this
    {
      (pendingScore.Some? ==> !roomReady && pendingScore.value > 0.0) &&
      SentScoresNonNegative(outbox)
    }

    /** The module's initial values. */
    constructor ()
      ensures Valid()
      ensures entries == [] && !roomReady && pendingScore == None && outbox == []
    {
      entries, roomReady, pendingScore, outbox := [], false, None, [];
    }

    /** `initLeaderboardClient`: clears the latch and announces at once if the host is ready. */
    method Init(hostReady: bool)
      requires Valid()
      modifies this
      ensures Valid() && entries == old(entries)
      ensures roomReady == hostReady
      ensures !hostReady ==> pendingScore == old(pendingScore) && outbox == old(outbox)
      ensures hostReady ==> (
        pendingScore == None &&
        outbox == old(outbox) + [GetLeaderboard] +
          (if old(pendingScore).Some? then [Message.SubmitScore(Round(old(pendingScore).value))] else []))
    {
      roomReady := false;
      if hostReady {
        NotifyRoomReady();
      }
    }

    /** The `onRoomReady` callback. */
    method OnRoomReady(isReady: bool)
      requires Valid()
      modifies this
      ensures Valid() && entries == old(entries)
      ensures !isReady ==> roomReady == old(roomReady) && pendingScore == old(pendingScore) && outbox == old(outbox)
      ensures isReady ==> roomReady
      ensures isReady && old(roomReady) ==> pendingScore == old(pendingScore) && outbox == old(outbox)
      ensures isReady && !old(roomReady) ==> (
        pendingScore == None &&
        outbox == old(outbox) + [GetLeaderboard] +
          (if old(pendingScore).Some? then [Message.SubmitScore(Round(old(pendingScore).value))] else []))
    {
      if isReady {
        NotifyRoomReady();
      }
    }

    /**
     * `notifyRoomReady`: the first call asks for a snapshot and flushes the pending
     * score once; every later call does nothing.
     */
    method NotifyRoomReady()
      requires Valid()
      modifies this
      ensures Valid() && roomReady && entries == old(entries)
      ensures old(roomReady) ==> pendingScore == old(pendingScore) && outbox == old(outbox)
      ensures !old(roomReady) ==> (
        pendingScore == None &&
        outbox == old(outbox) + [GetLeaderboard] +
          (if old(pendingScore).Some? then [Message.SubmitScore(Round(old(pendingScore).value))] else []))
    {
      if roomReady { return; }
      roomReady := true;
      outbox := outbox + [GetLeaderboard];
      if pendingScore.Some? {
        var score := pendingScore.value;
        pendingScore := None;
        RoundOfPositive(score);
        outbox := outbox + [Message.SubmitScore(Round(score))];
      }
    }

    /** `submitScore`: drop, queue (latest wins) or send the rounded score. */
    method SubmitScore(score: JsNumber, hostReady: bool)
      requires Valid()
      modifies this
      ensures Valid() && entries == old(entries)
      ensures !Submittable(score) ==>
        roomReady == old(roomReady) && pendingScore == old(pendingScore) && outbox == old(outbox)
      ensures Submittable(score) && old(roomReady) ==>
        roomReady && pendingScore == old(pendingScore) &&
        outbox == old(outbox) + [Message.SubmitScore(Round(score.value))]
      ensures Submittable(score) && !old(roomReady) && !hostReady ==>
        !roomReady && pendingScore == Some(score.value) && outbox == old(outbox)
      ensures Submittable(score) && !old(roomReady) && hostReady ==>
        roomReady && pendingScore == None &&
        outbox == old(outbox) + [GetLeaderboard] +
          (if old(pendingScore).Some? then [Message.SubmitScore(Round(old(pendingScore).value))] else []) +
          [Message.SubmitScore(Round(score.value))]
    {
      if !score.Finite? || score.value <= 0.0 { return; }
      if !roomReady && hostReady {
        NotifyRoomReady();
      }
      if !roomReady {
        pendingScore := Some(score.value);
        return;
      }
      RoundOfPositive(score.value);
      outbox := outbox + [Message.SubmitScore(Round(score.value))];
    }

    /** The `leaderboardUpdate` handler: the snapshot is replaced wholesale; a missing list is empty. */
    method OnLeaderboardUpdate(data: Option<seq<LeaderboardEntry>>)
      requires Valid()
      modifies this
      ensures Valid()
      ensures entries == if data.Some? then data.value else []
      ensures roomReady == old(roomReady) && pendingScore == old(pendingScore) && outbox == old(outbox)
    {
      entries := if data.Some? then data.value else [];
    }

    /** `getLeaderboardEntries`. */
    method GetLeaderboardEntries() returns (r: seq<LeaderboardEntry>)
      ensures r == entries
    {
      r := entries;
    }
  }

  /**
   * A score of 750 submitted before the room is ready is sent exactly once, right
   * after the snapshot request, when the room becomes ready; a second ready event
   * sends nothing more.
   */
  method PendingScoreScenario()
  {
    var client := new Client();
    client.SubmitScore(Finite(750.0), false);
    assert client.outbox == [] && client.pendingScore == Some(750.0);
    client.OnRoomReady(true);
    RoundOfInteger(750);
    assert client.outbox == [GetLeaderboard, SubmitScore(750)];
    client.OnRoomReady(true);
    assert client.outbox == [GetLeaderboard, SubmitScore(750)];
  }

  /** While not ready, only the latest of several scores is kept. */
  method LatestPendingWinsScenario()
  {
    var client := new Client();
    client.SubmitScore(Finite(300.0), false);
    client.SubmitScore(NonFinite, false);
    client.SubmitScore(Finite(-5.0), false);
    client.SubmitScore(Finite(200.0), false);
    assert client.pendingScore == Some(200.0);
    client.NotifyRoomReady();
    RoundOfInteger(200);
    assert client.outbox == [GetLeaderboard, SubmitScore(200)];
  }
}
