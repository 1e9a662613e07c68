/**
 * `entries.sort((a, b) => b.bestScore - a.bestScore).slice(0, n)` as used by the
 * server snapshot and by both leaderboard displays. `Array.prototype.sort` is
 * stable, so entries with equal scores keep their relative order.
 */
module Ranking {
  import opened Shared

  /** Non-increasing by bestScore. */
  predicate Descending(s: seq<LeaderboardEntry>) {
    forall i, j :: 0 <= i < j < |s| ==> s[i].bestScore >= s[j].bestScore
  }

  /** The entries of s that have score k, in order: what stability preserves. */
  function WithScore(s: seq<LeaderboardEntry>, k: int): seq<LeaderboardEntry>
  {
    if s == [] then [] else (if s[0].bestScore == k then [s[0]] else []) + WithScore(s[1..], k)
  }

  /** Puts e in front of the first entry whose score is not above e's. */
  function Insert(e: LeaderboardEntry, s: seq<LeaderboardEntry>): (r: seq<LeaderboardEntry>)
    ensures |r| == |s| + 1
    ensures multiset(r) == multiset(s) + multiset{e}
  {
    if s == [] then [e]
    else if s[0].bestScore <= e.bestScore then [e] + s
    else
      assert s == [s[0]] + s[1..];
      [s[0]] + Insert(e, s[1..])
  }

  /** Inserting under a bound keeps every score under it. */
  lemma {:induction false} InsertBelow(e: LeaderboardEntry, s: seq<LeaderboardEntry>, b: int)
    requires e.bestScore <= b
    requires forall i :: 0 <= i < |s| ==> s[i].bestScore <= b
    ensures forall i :: 0 <= i < |Insert(e, s)| ==> Insert(e, s)[i].bestScore <= b
  {
    if s == [] {
      assert Insert(e, s) == [e];
    } else if s[0].bestScore <= e.bestScore {
      assert Insert(e, s) == [e] + s;
    } else {
      InsertBelow(e, s[1..], b);
      assert Insert(e, s) == [s[0]] + Insert(e, s[1..]);
    }
  }

  /** Inserting into a sorted list keeps it sorted. */
  lemma {:induction false} InsertDescending(e: LeaderboardEntry, s: seq<LeaderboardEntry>)
    requires Descending(s)
    ensures Descending(Insert(e, s))
  {
    if s == [] {
      assert Insert(e, s) == [e];
    } else if s[0].bestScore <= e.bestScore {
      assert Insert(e, s) == [e] + s;
    } else {
      var t := Insert(e, s[1..]);
      InsertDescending(e, s[1..]);
      InsertBelow(e, s[1..], s[0].bestScore);
      assert Insert(e, s) == [s[0]] + t;
    }
  }

  /** The stable descending sort by bestScore (an insertion sort). */
  function SortByScore(s: seq<LeaderboardEntry>): (r: seq<LeaderboardEntry>)
    ensures multiset(r) == multiset(s)
    ensures |r| == |s|
  {
    if s == [] then []
    else
      assert s == [s[0]] + s[1..];
      Insert(s[0], SortByScore(s[1..]))
  }

  /** The sort's output is in descending order. */
  lemma {:induction false} SortDescending(s: seq<LeaderboardEntry>)
    ensures Descending(SortByScore(s))
  {
    if s != [] {
      SortDescending(s[1..]);
      InsertDescending(s[0], SortByScore(s[1..]));
    }
  }

  lemma WithScoreCons(x: LeaderboardEntry, t: seq<LeaderboardEntry>, k: int)
    ensures WithScore([x] + t, k) == (if x.bestScore == k then [x] else []) + WithScore(t, k)
  {
    assert ([x] + t)[1..] == t;
  }

  /** One step past a higher-scored head: the head keeps its place among the entries with score k. */
  lemma InsertPastHead(e: LeaderboardEntry, s: seq<LeaderboardEntry>, k: int)
    requires s != [] && s[0].bestScore > e.bestScore
    requires WithScore(Insert(e, s[1..]), k) == (if e.bestScore == k then [e] else []) + WithScore(s[1..], k)
    ensures WithScore(Insert(e, s), k) == (if e.bestScore == k then [e] else []) + WithScore(s, k)
  {
    var t := Insert(e, s[1..]);
    var head := if s[0].bestScore == k then [s[0]] else [];
    var mine := if e.bestScore == k then [e] else [];
    var w := WithScore(s[1..], k);
    assert Insert(e, s) == [s[0]] + t;
    calc {
      WithScore(Insert(e, s), k);
    == { WithScoreCons(s[0], t, k); }
      head + (mine + w);
    == { assert head == [] || mine == []; }
      mine + (head + w);
    == { assert s == [s[0]] + s[1..]; WithScoreCons(s[0], s[1..], k); }
      mine + WithScore(s, k);
    }
  }

  /** Inserting e adds it in front of the entries of s with e's score, and touches no other score. */
  lemma {:induction false} InsertWithScore(e: LeaderboardEntry, s: seq<LeaderboardEntry>, k: int)
    ensures WithScore(Insert(e, s), k) == (if e.bestScore == k then [e] else []) + WithScore(s, k)
  {
    if s == [] {
      assert Insert(e, s) == [e] + [];
      WithScoreCons(e, [], k);
    } else if s[0].bestScore <= e.bestScore {
      assert Insert(e, s) == [e] + s;
      WithScoreCons(e, s, k);
    } else {
      InsertWithScore(e, s[1..], k);
      InsertPastHead(e, s, k);
    }
  }

  /** Stability: for every score, the entries with that score come out in input order. */
  lemma {:induction false} SortByScoreStable(s: seq<LeaderboardEntry>, k: int)
    ensures WithScore(SortByScore(s), k) == WithScore(s, k)
  {
    if s != [] {
      SortByScoreStable(s[1..], k);
      InsertWithScore(s[0], SortByScore(s[1..]), k);
    }
  }

  /** `.slice(0, n)`. */
  function Take(s: seq<LeaderboardEntry>, n: nat): (r: seq<LeaderboardEntry>)
    ensures |r| <= n && |r| <= |s|
    ensures r <= s
    ensures |s| <= n ==> r == s
  {
    if |s| <= n then s else s[..n]
  }

  /** The first n of the sorted list. */
  function Top(s: seq<LeaderboardEntry>, n: nat): (r: seq<LeaderboardEntry>)
    ensures |r| == if |s| < n then |s| else n
  {
    Take(SortByScore(s), n)
  }

  /** The top n are sorted and drawn from s; when s has at most n entries they are all of s. */
  lemma TopShape(s: seq<LeaderboardEntry>, n: nat)
    ensures Descending(Top(s, n))
    ensures multiset(Top(s, n)) <= multiset(s)
    ensures |s| <= n ==> multiset(Top(s, n)) == multiset(s)
  {
    var sorted := SortByScore(s);
    var r := Top(s, n);
    SortDescending(s);
    assert r == sorted[..|r|];
    assert sorted == r + sorted[|r|..];
    assert multiset(sorted) == multiset(r) + multiset(sorted[|r|..]);
  }

  /** Whatever the top n leave out scores no higher than anything they keep. */
  lemma TopKeepsBest(s: seq<LeaderboardEntry>, n: nat, x: LeaderboardEntry)
    requires x in multiset(s) && x !in multiset(Top(s, n))
    ensures forall i :: 0 <= i < |Top(s, n)| ==> x.bestScore <= Top(s, n)[i].bestScore
  {
    var sorted := SortByScore(s);
    var r := Top(s, n);
    SortDescending(s);
    assert r == sorted[..|r|];
    assert sorted == r + sorted[|r|..];
    assert multiset(sorted) == multiset(r) + multiset(sorted[|r|..]);
    assert x in multiset(sorted[|r|..]);
    var j :| |r| <= j < |sorted| && sorted[j] == x;
  }

  /** Exactly the entries of s with score above zero, in order (`filter(p => p.bestScore > 0)`). */
  function Scored(s: seq<LeaderboardEntry>): seq<LeaderboardEntry>
  {
    if s == [] then [] else (if s[0].bestScore > 0 then [s[0]] else []) + Scored(s[1..])
  }

  /** The filter keeps only positive bests, and only entries of s. */
  lemma {:induction false} ScoredShape(s: seq<LeaderboardEntry>)
    ensures forall i :: 0 <= i < |Scored(s)| ==> Scored(s)[i].bestScore > 0
    ensures multiset(Scored(s)) <= multiset(s)
  {
    if s != [] {
      ScoredShape(s[1..]);
      assert s == [s[0]] + s[1..];
    }
  }

  /** Every entry with a positive best survives the filter. */
  lemma {:induction false} ScoredKeeps(s: seq<LeaderboardEntry>, e: LeaderboardEntry)
    requires e in s && e.bestScore > 0
    ensures e in Scored(s)
  {
    assert s == [s[0]] + s[1..];
    if s[0] != e {
      ScoredKeeps(s[1..], e);
    }
  }
}
