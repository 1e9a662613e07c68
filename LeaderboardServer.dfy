/**
 * The authoritative leaderboard of the server process (src/server/server.ts):
 * a JavaScript `Map` from lower-cased address to entry, kept here as a sequence in
 * insertion order (updating a key keeps its place, a new key is appended), the
 * `room.send` calls as an append-only log, and the durable blob under
 * `leaderboard:allTime` as a field that a successful save overwrites.
 */
module LeaderboardServer {
  import opened Wrappers
  import opened JsText
  import opened Shared
  import opened Ranking

  /** The cap on the snapshot that is broadcast and persisted. */
  const SnapshotLimit: nat := 50

  /** The length of the address prefix used when no live name is known. */
  const FallbackNameLength: nat := 8

  /** A connected player: `PlayerIdentityData.address` and `AvatarBase.name`. */
  datatype Player = Player(address: string, name: string)

  /**
   * One element of the stored JSON list as `JSON.parse` hands it back: every field
   * may be missing; a missing element (`null`) is a record with no address.
   * `bestScore`/`playCount` are None when `Number(...)` of them is NaN.
   */
  datatype StoredEntry = StoredEntry(
    address: Option<string>,
    displayName: Option<string>,
    bestScore: Option<int>,
    playCount: Option<int>)

  /** What `Storage.get` of the leaderboard key comes back with. */
  datatype LoadResult =
    | Stored(entries: seq<StoredEntry>)   // a non-empty JSON string, parsed
    | NothingStored                       // null or the empty string
    | NotFound                            // an error whose status or message says 404
    | StorageError                        // any other failure, a parse error included

  // ---------------------------------------------------------------------------
  // The map as a sequence

  predicate UniqueKeys(s: seq<LeaderboardEntry>) {
    forall i, j :: 0 <= i < j < |s| ==> s[i].address != s[j].address
  }

  function Keys(s: seq<LeaderboardEntry>): set<string> {
    set i | 0 <= i < |s| :: s[i].address
  }

  /** `map.get(key)`. */
  function Lookup(s: seq<LeaderboardEntry>, key: string): (r: Option<LeaderboardEntry>)
    ensures r.Some? ==> r.value in s && r.value.address == key
    ensures r.None? <==> key !in Keys(s)
  {
    if s == [] then None
    else if s[0].address == key then Some(s[0])
    else
      var r := Lookup(s[1..], key);
      assert Keys(s) == {s[0].address} + Keys(s[1..]) by {
        forall i | 0 <= i < |s| ensures s[i].address in {s[0].address} + Keys(s[1..]) {
          if i > 0 { assert s[i] == s[1..][i - 1]; }
        }
      }
      r
  }

  /** With unique keys, the entry found for a key is the one at its index. */
  lemma {:induction false} LookupAt(s: seq<LeaderboardEntry>, i: nat)
    requires UniqueKeys(s) && i < |s|
    ensures Lookup(s, s[i].address) == Some(s[i])
  {
    if i > 0 {
      LookupAt(s[1..], i - 1);
    }
  }

  /** `map.set(e.address, e)`: replaces the entry in place, or appends a new key. */
  function Put(s: seq<LeaderboardEntry>, e: LeaderboardEntry): (r: seq<LeaderboardEntry>)
    requires UniqueKeys(s)
    ensures UniqueKeys(r)
  {
    if e.address in Keys(s) then
      var r := seq(|s|, i requires 0 <= i < |s| => if s[i].address == e.address then e else s[i]);
      PutInPlaceLookup(s, e, r);
      r
    else
      PutAppendLookup(s, e);
      s + [e]
  }

  /** After `set`, the key maps to the new entry and every other key is as before. */
  lemma PutLookup(s: seq<LeaderboardEntry>, e: LeaderboardEntry)
    requires UniqueKeys(s)
    ensures Keys(Put(s, e)) == Keys(s) + {e.address}
    ensures Lookup(Put(s, e), e.address) == Some(e)
    ensures forall k :: k != e.address ==> Lookup(Put(s, e), k) == Lookup(s, k)
  {
    if e.address in Keys(s) {
      PutInPlaceLookup(s, e, Put(s, e));
    } else {
      PutAppendLookup(s, e);
    }
  }

  lemma PutInPlaceLookup(s: seq<LeaderboardEntry>, e: LeaderboardEntry, r: seq<LeaderboardEntry>)
    requires UniqueKeys(s) && e.address in Keys(s)
    requires r == seq(|s|, i requires 0 <= i < |s| => if s[i].address == e.address then e else s[i])
    ensures UniqueKeys(r)
    ensures Keys(r) == Keys(s) + {e.address}
    ensures Lookup(r, e.address) == Some(e)
    ensures forall k :: k != e.address ==> Lookup(r, k) == Lookup(s, k)
  {
    assert forall i :: 0 <= i < |s| ==> r[i].address == s[i].address;
    assert Keys(r) == Keys(s);
    var j :| 0 <= j < |s| && s[j].address == e.address;
    LookupAt(r, j);
    forall k | k != e.address ensures Lookup(r, k) == Lookup(s, k) {
      if k in Keys(s) {
        var i :| 0 <= i < |s| && s[i].address == k;
        LookupAt(r, i);
        LookupAt(s, i);
      }
    }
  }

  lemma PutAppendLookup(s: seq<LeaderboardEntry>, e: LeaderboardEntry)
    requires UniqueKeys(s) && e.address !in Keys(s)
    ensures UniqueKeys(s + [e])
    ensures Keys(s + [e]) == Keys(s) + {e.address}
    ensures Lookup(s + [e], e.address) == Some(e)
    ensures forall k :: k != e.address ==> Lookup(s + [e], k) == Lookup(s, k)
  {
    var r := s + [e];
    assert forall i :: 0 <= i < |s| ==> r[i] == s[i] && s[i].address in Keys(s);
    assert UniqueKeys(r);
    assert Keys(r) == Keys(s) + {e.address} by {
      assert forall i :: 0 <= i < |r| ==> r[i].address in Keys(s) + {e.address};
      assert forall k :: k in Keys(s) ==> exists i :: 0 <= i < |s| && s[i].address == k && r[i].address == k;
      assert r[|s|].address == e.address;
    }
    LookupAt(r, |s|);
    forall k | k != e.address ensures Lookup(r, k) == Lookup(s, k) {
      if k in Keys(s) {
        var i :| 0 <= i < |s| && s[i].address == k;
        LookupAt(r, i);
        LookupAt(s, i);
      }
    }
  }

  /** Setting a key that is present keeps every entry's place; only that key's entry changes. */
  lemma PutKeepsPositions(s: seq<LeaderboardEntry>, e: LeaderboardEntry)
    requires UniqueKeys(s)
    ensures e.address in Keys(s) ==>
      |Put(s, e)| == |s| &&
      forall i :: 0 <= i < |s| ==> Put(s, e)[i] == if s[i].address == e.address then e else s[i]
    ensures e.address !in Keys(s) ==> Put(s, e) == s + [e]
  {
  }

  /** The store invariant: one entry per key, every key lower-case. */
  predicate WellKeyed(s: seq<LeaderboardEntry>) {
    UniqueKeys(s) && forall i :: 0 <= i < |s| ==> IsLower(s[i].address)
  }

  lemma PutWellKeyed(s: seq<LeaderboardEntry>, e: LeaderboardEntry)
    requires WellKeyed(s) && IsLower(e.address)
    ensures WellKeyed(Put(s, e))
  {
    var r := Put(s, e);
    PutLookup(s, e);
    forall i | 0 <= i < |r| ensures IsLower(r[i].address) {
      assert r[i] in r;
      var l := Lookup(r, r[i].address);
      LookupAt(r, i);
      if r[i].address != e.address {
        assert Lookup(s, r[i].address) == l;
      }
    }
  }

  // ---------------------------------------------------------------------------
  // Submission

  /** `getPlayerName`: the first connected player whose lower-cased address matches. */
  function DisplayName(address: string, players: seq<Player>): (r: string)
    ensures address != "" ==> r != ""
    ensures r == Prefix(address, FallbackNameLength) || exists i :: 0 <= i < |players| && r == players[i].name
  {
    if players == [] then Prefix(address, FallbackNameLength)
    else if Lower(players[0].address) == address then
      (if players[0].name != "" then players[0].name else Prefix(address, FallbackNameLength))
    else
      var r := DisplayName(address, players[1..]);
      assert forall i :: 0 <= i < |players| - 1 ==> players[1..][i] == players[i + 1];
      r
  }

  /** The name is the first matching player's non-empty name, else the first 8 characters. */
  lemma {:induction false} DisplayNameFirstMatch(address: string, players: seq<Player>, i: nat)
    requires i < |players| && Lower(players[i].address) == address
    requires forall j :: 0 <= j < i ==> Lower(players[j].address) != address
    ensures DisplayName(address, players) ==
      if players[i].name != "" then players[i].name else Prefix(address, FallbackNameLength)
  {
    if i > 0 {
      DisplayNameFirstMatch(address, players[1..], i - 1);
    }
  }

  lemma {:induction false} DisplayNameNoMatch(address: string, players: seq<Player>)
    requires forall j :: 0 <= j < |players| ==> Lower(players[j].address) != address
    ensures DisplayName(address, players) == Prefix(address, FallbackNameLength)
  {
    if players != [] {
      DisplayNameNoMatch(address, players[1..]);
    }
  }

  /** The for-of loop of `getPlayerName`, which returns at the first match. */
  method GetPlayerName(address: string, players: seq<Player>) returns (name: string)
    ensures name == DisplayName(address, players)
  {
    var i := 0;
    while i < |players|
      invariant 0 <= i <= |players|
      invariant DisplayName(address, players) == DisplayName(address, players[i..])
    {
      assert players[i..][1..] == players[i + 1..];
      if Lower(players[i].address) == address {
        name := if players[i].name != "" then players[i].name else Prefix(address, FallbackNameLength);
        return;
      }
      i := i + 1;
    }
    name := Prefix(address, FallbackNameLength);
  }

  /** The guard of the handler: a sender context and a finite score above zero. */
  predicate Accepted(from: Option<string>, score: ScoreField) {
    from.Some? && score.Num? && score.n > 0
  }

  /** The merged record: best = max, one more play; a new address starts at one play. */
  function Merged(existing: Option<LeaderboardEntry>, address: string, name: string, score: int): (e: LeaderboardEntry)
    ensures e.address == address && e.displayName == name
    ensures e.bestScore == if existing.Some? && existing.value.bestScore > score then existing.value.bestScore else score
    ensures e.playCount == if existing.Some? then existing.value.playCount + 1 else 1
  {
    var best := if existing.Some? then (if existing.value.bestScore > score then existing.value.bestScore else score) else score;
    LeaderboardEntry(address, name, best, (if existing.Some? then existing.value.playCount else 0) + 1)
  }

  /** The store after an accepted submission of `score` from sender `from`. */
  function Submitted(s: seq<LeaderboardEntry>, from: string, score: int, players: seq<Player>): (r: seq<LeaderboardEntry>)
    requires UniqueKeys(s)
    ensures UniqueKeys(r)
  {
    var address := Lower(from);
    Put(s, Merged(Lookup(s, address), address, DisplayName(address, players), score))
  }

  /** The merge law: the sender's entry holds the max score, one more play and the lower-cased key. */
  lemma SubmittedEntry(s: seq<LeaderboardEntry>, from: string, score: int, players: seq<Player>)
    requires UniqueKeys(s)
    ensures var key := Lower(from);
      var old_ := Lookup(s, key);
      var new_ := Lookup(Submitted(s, from, score, players), key);
      new_.Some? && new_.value.address == key &&
      new_.value.displayName == DisplayName(key, players) &&
      (old_.None? ==> new_.value.bestScore == score && new_.value.playCount == 1) &&
      (old_.Some? ==>
         new_.value.bestScore == (if old_.value.bestScore > score then old_.value.bestScore else score) &&
         new_.value.playCount == old_.value.playCount + 1)
  {
    var key := Lower(from);
    PutLookup(s, Merged(Lookup(s, key), key, DisplayName(key, players), score));
  }

  /** A submission changes no other address's entry, and keeps every other entry in its place. */
  lemma SubmittedOthers(s: seq<LeaderboardEntry>, from: string, score: int, players: seq<Player>)
    requires UniqueKeys(s)
    ensures forall k :: k != Lower(from) ==> Lookup(Submitted(s, from, score, players), k) == Lookup(s, k)
    ensures forall i :: 0 <= i < |s| && s[i].address != Lower(from) ==> Submitted(s, from, score, players)[i] == s[i]
  {
    var key := Lower(from);
    PutLookup(s, Merged(Lookup(s, key), key, DisplayName(key, players), score));
    PutKeepsPositions(s, Merged(Lookup(s, key), key, DisplayName(key, players), score));
  }

  /** Two submissions from one address: the best of the two scores, two plays. */
  lemma SubmitTwice(s: seq<LeaderboardEntry>, from: string, s1: int, s2: int, players: seq<Player>)
    requires UniqueKeys(s) && Lower(from) !in Keys(s)
    ensures var r := Submitted(Submitted(s, from, s1, players), from, s2, players);
      var e := Lookup(r, Lower(from));
      e.Some? && e.value.bestScore == (if s1 > s2 then s1 else s2) && e.value.playCount == 2
  {
    SubmittedEntry(s, from, s1, players);
    SubmittedEntry(Submitted(s, from, s1, players), from, s2, players);
  }

  /** A lower score later never lowers the best score, but still counts as a play. */
  lemma BestScoreNeverDecreases(s: seq<LeaderboardEntry>, from: string, score: int, players: seq<Player>)
    requires UniqueKeys(s) && Lookup(s, Lower(from)).Some?
    ensures var before := Lookup(s, Lower(from)).value;
      var after := Lookup(Submitted(s, from, score, players), Lower(from));
      after.Some? && after.value.bestScore >= before.bestScore && after.value.bestScore >= score &&
      after.value.playCount == before.playCount + 1
  {
    SubmittedEntry(s, from, score, players);
  }

  // ---------------------------------------------------------------------------
  // Snapshots

  /** `getSortedEntries()`: by best score, descending, ties in insertion order, at most 50. */
  function SortedEntries(s: seq<LeaderboardEntry>): (r: seq<LeaderboardEntry>)
    ensures |r| <= SnapshotLimit && |r| <= |s|
  {
    Top(s, SnapshotLimit)
  }

  /** The snapshot is sorted, drawn from the store, and is the whole store when it has at most 50 entries. */
  lemma SortedEntriesShape(s: seq<LeaderboardEntry>)
    ensures Descending(SortedEntries(s))
    ensures multiset(SortedEntries(s)) <= multiset(s)
    ensures |s| <= SnapshotLimit ==> multiset(SortedEntries(s)) == multiset(s)
    ensures |s| > SnapshotLimit ==> |SortedEntries(s)| == SnapshotLimit
  {
    TopShape(s, SnapshotLimit);
  }

  /** Two different addresses submitting 500 and then 900 are listed 900 first. */
  lemma TwoPlayersScenario(a: string, b: string, players: seq<Player>)
    requires Lower(a) != Lower(b)
    ensures var r := SortedEntries(Submitted(Submitted([], a, 500, players), b, 900, players));
      |r| == 2 && r[0].address == Lower(b) && r[0].bestScore == 900 && r[1].address == Lower(a) && r[1].bestScore == 500
  {
    var s1 := Submitted([], a, 500, players);
    assert s1 == [LeaderboardEntry(Lower(a), DisplayName(Lower(a), players), 500, 1)];
    var s2 := Submitted(s1, b, 900, players);
    assert Lower(b) !in Keys(s1);
    var eb := LeaderboardEntry(Lower(b), DisplayName(Lower(b), players), 900, 1);
    assert s2 == s1 + [eb];
    assert SortByScore(s2) == Insert(s1[0], SortByScore([eb]));
  }

  // ---------------------------------------------------------------------------
  // Loading

  /** One stored element as the load loop normalises it; None when it has no address. */
  function Normalized(e: StoredEntry): (r: Option<LeaderboardEntry>)
    ensures r.None? <==> e.address.None? || e.address.value == ""
    ensures r.Some? ==> r.value.address == Lower(e.address.value) && IsLower(r.value.address)
    ensures r.Some? ==> r.value.bestScore == (if e.bestScore.Some? then e.bestScore.value else 0)
    ensures r.Some? ==> r.value.playCount == (if e.playCount.Some? then e.playCount.value else 0)
    ensures r.Some? ==> r.value.address != "" && r.value.displayName != ""
  {
    if e.address.None? || e.address.value == "" then None
    else
      var a := e.address.value;
      LowerIsLower(a);
      Some(LeaderboardEntry(
        Lower(a),
        if e.displayName.Some? && e.displayName.value != "" then e.displayName.value else Prefix(a, FallbackNameLength),
        if e.bestScore.Some? then e.bestScore.value else 0,
        if e.playCount.Some? then e.playCount.value else 0))
  }

  /** The map the load loop builds from an empty map, one stored element at a time. */
  function Rebuilt(list: seq<StoredEntry>): (r: seq<LeaderboardEntry>)
    ensures WellKeyed(r)
  {
    if list == [] then []
    else
      var acc := Rebuilt(list[..|list| - 1]);
      var n := Normalized(list[|list| - 1]);
      if n.None? then acc else PutWellKeyed(acc, n.value); Put(acc, n.value)
  }

  /** The durable form of a snapshot: every field present (JSON passes the list through). */
  function ToStored(l: seq<LeaderboardEntry>): (r: seq<StoredEntry>)
    ensures |r| == |l|
  {
    seq(|l|, i requires 0 <= i < |l| =>
      StoredEntry(Some(l[i].address), Some(l[i].displayName), Some(l[i].bestScore), Some(l[i].playCount)))
  }

  /** A list that survives a save and a load unchanged. */
  predicate Reloadable(l: seq<LeaderboardEntry>) {
    WellKeyed(l) && forall i :: 0 <= i < |l| ==> l[i].address != "" && l[i].displayName != ""
  }

  /** Dropping the last entry keeps a list reloadable. */
  lemma ReloadableInit(l: seq<LeaderboardEntry>)
    requires Reloadable(l) && l != []
    ensures Reloadable(l[..|l| - 1])
  {
    var init := l[..|l| - 1];
    assert forall i :: 0 <= i < |init| ==> init[i] == l[i];
  }

  /** Saving commutes with dropping the last entry. */
  lemma ToStoredInit(l: seq<LeaderboardEntry>)
    requires l != []
    ensures ToStored(l)[..|l| - 1] == ToStored(l[..|l| - 1])
  {
  }

  /** The load loop's last step, unfolded. */
  lemma RebuiltLast(list: seq<StoredEntry>)
    requires list != []
    ensures var init, n := Rebuilt(list[..|list| - 1]), Normalized(list[|list| - 1]);
      Rebuilt(list) == if n.None? then init else Put(init, n.value)
  {
  }

  /** The load loop's last step on a saved list: it sets the last saved entry as it was. */
  lemma ReloadUnfold(l: seq<LeaderboardEntry>)
    requires Reloadable(l) && l != []
    ensures Rebuilt(ToStored(l)) == Put(Rebuilt(ToStored(l[..|l| - 1])), l[|l| - 1])
  {
    var n := |l| - 1;
    ToStoredInit(l);
    RebuiltLast(ToStored(l));
    LowerOfLower(l[n].address);
    assert Normalized(ToStored(l)[n]) == Some(l[n]);
  }

  /** Setting a key the list does not hold appends the entry. */
  lemma PutFresh(s: seq<LeaderboardEntry>, e: LeaderboardEntry)
    requires UniqueKeys(s) && forall i :: 0 <= i < |s| ==> s[i].address != e.address
    ensures Put(s, e) == s + [e]
  {
    PutKeepsPositions(s, e);
  }

  /** Loading the last saved element appends it, given that the rest loads back as itself. */
  lemma ReloadLast(l: seq<LeaderboardEntry>)
    requires Reloadable(l) && l != []
    requires Rebuilt(ToStored(l[..|l| - 1])) == l[..|l| - 1]
    ensures Rebuilt(ToStored(l)) == l
  {
    var n := |l| - 1;
    var init := l[..n];
    ReloadableInit(l);
    ReloadUnfold(l);
    assert forall i :: 0 <= i < |init| ==> init[i].address != l[n].address;
    PutFresh(init, l[n]);
    assert init + [l[n]] == l;
  }

  /** Loading what was saved gives the same list back, in the same order. */
  lemma {:induction false} ReloadRoundTrip(l: seq<LeaderboardEntry>)
    requires Reloadable(l)
    ensures Rebuilt(ToStored(l)) == l
  {
    if l != [] {
      ReloadableInit(l);
      ReloadRoundTrip(l[..|l| - 1]);
      ReloadLast(l);
    }
  }

  /** With unique keys no entry occurs twice. */
  lemma {:induction false} OccursOnce(s: seq<LeaderboardEntry>, x: LeaderboardEntry)
    requires UniqueKeys(s)
    ensures multiset(s)[x] <= 1
  {
    if s != [] {
      OccursOnce(s[1..], x);
      assert s == [s[0]] + s[1..];
      if s[0] == x {
        assert x !in s[1..];
      }
    }
  }

  lemma OccursTwice(r: seq<LeaderboardEntry>, i: nat, j: nat)
    requires i < j < |r| && r[i] == r[j]
    ensures multiset(r)[r[i]] >= 2
  {
    assert r == r[..i] + [r[i]] + r[i + 1..j] + [r[j]] + r[j + 1..];
  }

  /** With unique keys, any sub-multiset has unique keys too. */
  lemma UniqueKeysSub(s: seq<LeaderboardEntry>, r: seq<LeaderboardEntry>)
    requires WellKeyed(s) && multiset(r) <= multiset(s)
    ensures WellKeyed(r)
  {
    forall i | 0 <= i < |r| ensures IsLower(r[i].address) && r[i] in s {
      assert r[i] in multiset(r);
    }
    forall i, j | 0 <= i < j < |r| ensures r[i].address != r[j].address {
      if r[i] == r[j] {
        OccursTwice(r, i, j);
        OccursOnce(s, r[i]);
      }
    }
  }

  /**
   * Saving and reloading a store of at most 50 players gives back the same entries
   * (in score order); a larger store comes back with only its top 50.
   */
  lemma PersistThenLoad(s: seq<LeaderboardEntry>)
    requires Reloadable(s)
    ensures Rebuilt(ToStored(SortedEntries(s))) == SortedEntries(s)
    ensures |s| <= SnapshotLimit ==> multiset(Rebuilt(ToStored(SortedEntries(s)))) == multiset(s)
    ensures |s| > SnapshotLimit ==> |Rebuilt(ToStored(SortedEntries(s)))| == SnapshotLimit
  {
    var r := SortedEntries(s);
    SortedEntriesShape(s);
    UniqueKeysSub(s, r);
    forall i | 0 <= i < |r| ensures r[i].address != "" && r[i].displayName != "" {
      assert r[i] in multiset(r);
      assert r[i] in s;
    }
    ReloadRoundTrip(r);
  }

  /** Setting a lower-case entry with a non-empty key and name keeps a list reloadable. */
  lemma PutReloadable(s: seq<LeaderboardEntry>, e: LeaderboardEntry)
    requires Reloadable(s) && IsLower(e.address) && e.address != "" && e.displayName != ""
    ensures Reloadable(Put(s, e))
  {
    PutWellKeyed(s, e);
    PutKeepsPositions(s, e);
  }

  /** Whatever the load loop rebuilds survives the next save and load. */
  lemma {:induction false} RebuiltReloadable(list: seq<StoredEntry>)
    ensures Reloadable(Rebuilt(list))
  {
    if list != [] {
      var init := list[..|list| - 1];
      RebuiltReloadable(init);
      RebuiltLast(list);
      var n := Normalized(list[|list| - 1]);
      if n.Some? {
        PutReloadable(Rebuilt(init), n.value);
      }
    }
  }

  /** A submission from a non-empty sender keeps the store reloadable. */
  lemma SubmittedReloadable(s: seq<LeaderboardEntry>, from: string, score: int, players: seq<Player>)
    requires Reloadable(s) && from != ""
    ensures Reloadable(Submitted(s, from, score, players))
  {
    var address := Lower(from);
    LowerIsLower(from);
    PutReloadable(s, Merged(Lookup(s, address), address, DisplayName(address, players), score));
  }

  /**
   * A store built from loads and non-empty senders' submissions persists and
   * reloads as its snapshot.
   */
  lemma SubmitPersistLoad(s: seq<LeaderboardEntry>, from: string, score: int, players: seq<Player>)
    requires Reloadable(s) && from != ""
    ensures var t := Submitted(s, from, score, players);
      Rebuilt(ToStored(SortedEntries(t))) == SortedEntries(t)
  {
    SubmittedReloadable(s, from, score, players);
    PersistThenLoad(Submitted(s, from, score, players));
  }

  /**
   * A submission whose sender address is empty is stored under the key "" with
   * an empty name, and the next load skips it.
   */
  lemma EmptySenderNotReloaded(score: int, players: seq<Player>)
    ensures Submitted([], "", score, players) != []
    ensures Rebuilt(ToStored(SortedEntries(Submitted([], "", score, players)))) == []
  {
    var t := Submitted([], "", score, players);
    var e := LeaderboardEntry("", DisplayName("", players), score, 1);
    assert t == [e];
    assert SortByScore(t) == [e];
    assert SortedEntries(t) == [e];
    var st := ToStored([e]);
    assert Normalized(st[0]).None?;
    assert st[..0] == [];
  }

  // ---------------------------------------------------------------------------
  // The handlers

  class Server {
    /** `leaderboardByAddress`, in insertion order. */
    var store: seq<LeaderboardEntry>
    /** Every `room.send`, oldest first. */
    var outbox: seq<Message>
    /** The value under the leaderboard key, as last written by this process. */
    var blob: Option<seq<LeaderboardEntry>>

    ghost predicate Valid()
      reads this
    {
      WellKeyed(store)
    }

    constructor ()
      ensures Valid() && store == [] && outbox == [] && blob == None
    {
      store, outbox, blob := [], [], None;
    }

    /** `broadcastLeaderboard`. */
    method BroadcastLeaderboard()
      modifies this
      ensures store == old(store) && blob == old(blob)
      ensures outbox == old(outbox) + [LeaderboardUpdate(SortedEntries(store))]
    {
      outbox := outbox + [LeaderboardUpdate(SortedEntries(store))];
    }

    /** `persistLeaderboard`: writes the snapshot; a failed write is only logged. */
    method PersistLeaderboard(saveOk: bool)
      modifies this
      ensures store == old(store) && outbox == old(outbox)
      ensures blob == if saveOk then Some(SortedEntries(store)) else old(blob)
    {
      if saveOk {
        blob := Some(SortedEntries(store));
      }
    }

    /** The `submitScore` handler. */
    method OnSubmitScore(from: Option<string>, score: ScoreField, players: seq<Player>, saveOk: bool)
      requires Valid()
      modifies this
      ensures Valid()
      ensures !Accepted(from, score) ==> store == old(store) && outbox == old(outbox) && blob == old(blob)
      ensures Accepted(from, score) ==>
        store == Submitted(old(store), from.value, score.n, players) &&
        blob == (if saveOk then Some(SortedEntries(store)) else old(blob)) &&
        outbox == old(outbox) + [LeaderboardUpdate(SortedEntries(store))]
      ensures Reloadable(old(store)) && (from.Some? ==> from.value != "") ==> Reloadable(store)
    {
      if from.None? { return; }
      if !score.Num? || score.n <= 0 { return; }
      var address := Lower(from.value);
      LowerIsLower(from.value);
      var displayName := GetPlayerName(address, players);
      var existing := Lookup(store, address);
      PutWellKeyed(store, Merged(existing, address, displayName, score.n));
      if Reloadable(store) && from.value != "" {
        SubmittedReloadable(store, from.value, score.n, players);
      }
      store := Put(store, Merged(existing, address, displayName, score.n));
      PersistLeaderboard(saveOk);
      BroadcastLeaderboard();
    }

    /** The `getLeaderboard` handler: a broadcast whether or not there is a sender. */
    method OnGetLeaderboard()
      modifies this
      ensures store == old(store) && blob == old(blob)
      ensures outbox == old(outbox) + [LeaderboardUpdate(SortedEntries(store))]
    {
      BroadcastLeaderboard();
    }

    /** `loadLeaderboard`, given what the storage read came back with. */
    method LoadLeaderboard(loaded: LoadResult)
      requires Valid()
      modifies this
      ensures Valid() && blob == old(blob)
      ensures loaded.Stored? ==> store == Rebuilt(loaded.entries)
      ensures loaded.NotFound? ==> store == []
      ensures loaded.NothingStored? || loaded.StorageError? ==> store == old(store)
      ensures loaded.StorageError? ==> outbox == old(outbox)
      ensures !loaded.StorageError? ==> outbox == old(outbox) + [LeaderboardUpdate(SortedEntries(store))]
      ensures Reloadable(old(store)) || loaded.Stored? || loaded.NotFound? ==> Reloadable(store)
    {
      match loaded
      case NothingStored =>
        BroadcastLeaderboard();
      case Stored(list) =>
        store := [];
        var i := 0;
        while i < |list|
          invariant 0 <= i <= |list|
          invariant store == Rebuilt(list[..i])
          invariant outbox == old(outbox) && blob == old(blob)
        {
          assert list[..i + 1][..i] == list[..i];
          var n := Normalized(list[i]);
          if n.Some? {
            PutWellKeyed(store, n.value);
            store := Put(store, n.value);
          }
          i := i + 1;
        }
        assert list[..i] == list;
        RebuiltReloadable(list);
        BroadcastLeaderboard();
      case NotFound =>
        store := [];
        BroadcastLeaderboard();
      case StorageError =>
    }

    /** The `onReady` callback: announce with a ping, then load. */
    method OnRoomReady(isReady: bool, now: int, loaded: LoadResult)
      requires Valid()
      modifies this
      ensures Valid() && blob == old(blob)
      ensures !isReady ==> store == old(store) && outbox == old(outbox)
      ensures isReady && loaded.Stored? ==> store == Rebuilt(loaded.entries)
      ensures isReady && loaded.NotFound? ==> store == []
      ensures isReady && (loaded.NothingStored? || loaded.StorageError?) ==> store == old(store)
      ensures isReady && loaded.StorageError? ==> outbox == old(outbox) + [Ping(now)]
      ensures isReady && !loaded.StorageError? ==>
        outbox == old(outbox) + [Ping(now), LeaderboardUpdate(SortedEntries(store))]
      ensures Reloadable(old(store)) ==> Reloadable(store)
    {
      if !isReady { return; }
      outbox := outbox + [Ping(now)];
      LoadLeaderboard(loaded);
    }
  }

  /** A fresh server with nothing stored answers `getLeaderboard` with an empty snapshot. */
  method EmptyBootScenario()
  {
    var server := new Server();
    server.OnRoomReady(true, 0, NotFound);
    server.OnGetLeaderboard();
    assert server.outbox[2] == LeaderboardUpdate([]);
  }
}
