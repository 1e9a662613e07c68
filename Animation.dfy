/**
 * Animation crossfades over an entity's animator states (src/systems.ts).
 * Each animated entity (Penguin, Broom, PenguinPlayer) has an array of clip
 * states that the game rewrites in place, the clip it regards as current, at
 * most one crossfade in progress, and, for the broom and the player, when to
 * restore their idle clip after a swipe and whether they reached the stop line.
 */
module Animation {
  import opened Wrappers
  import opened JsMath
  import opened GameConstants

  /** One entry of `Animator.states`. */
  datatype ClipState = ClipState(clip: string, playing: bool, weight: real, shouldReset: bool, loop: bool)

  /** An `AnimationTransition` in progress. */
  datatype Transition = Transition(fromClip: string, toClip: string, toLoop: bool, elapsed: real, duration: real)

  /** The animation state of one entity. `restoreAt` 0 means no idle restore is pending. */
  datatype Track = Track(
    states: seq<ClipState>,
    currentClip: string,
    active: Option<Transition>,
    restoreAt: real,
    reachedStopZ: bool)

  /** Every crossfade in progress lasts the transition duration. */
  predicate ValidTrack(t: Track) {
    t.active.Some? ==> t.active.value.duration == AnimationTransitionDuration
  }

  /** No two states play the same clip. */
  predicate UniqueClips(s: seq<ClipState>) {
    forall i, j :: 0 <= i < j < |s| ==> s[i].clip != s[j].clip
  }

  /** `states.find(s => s.clip === clip)`: the index of the first state of `clip`. */
  function Find(s: seq<ClipState>, clip: string): (r: Option<nat>)
    ensures r.Some? ==> r.value < |s| && s[r.value].clip == clip
    ensures r.Some? ==> forall j :: 0 <= j < r.value ==> s[j].clip != clip
    ensures r.None? ==> forall j :: 0 <= j < |s| ==> s[j].clip != clip
  {
    if |s| == 0 then None
    else if s[0].clip == clip then Some(0)
    else match Find(s[1..], clip)
      case None => None
      case Some(i) => Some(i + 1)
  }

  /** Find looks only at the clip names. */
  lemma {:induction false} FindSameClips(s: seq<ClipState>, u: seq<ClipState>, clip: string)
    requires |s| == |u| && forall i :: 0 <= i < |s| ==> s[i].clip == u[i].clip
    ensures Find(s, clip) == Find(u, clip)
  {
    if |s| > 0 && s[0].clip != clip {
      FindSameClips(s[1..], u[1..], clip);
    }
  }

  /** The sum of the weights. */
  function TotalWeight(s: seq<ClipState>): real {
    if |s| == 0 then 0.0 else s[0].weight + TotalWeight(s[1..])
  }

  /** Replacing one state changes the total by the difference of the two weights. */
  lemma {:induction false} TotalWeightUpdate(s: seq<ClipState>, i: nat, c: ClipState)
    requires i < |s|
    ensures TotalWeight(s[i := c]) == TotalWeight(s) - s[i].weight + c.weight
  {
    if i == 0 {
      assert s[i := c][1..] == s[1..];
    } else {
      assert s[i := c][1..] == s[1..][i - 1 := c];
      TotalWeightUpdate(s[1..], i - 1, c);
    }
  }

  /** Replaces the state at `i`, when there is one, by `f` applied to it. */
  function SetFound(s: seq<ClipState>, i: Option<nat>, c: ClipState -> ClipState): seq<ClipState> {
    if i.Some? && i.value < |s| then s[i.value := c(s[i.value])] else s
  }

  /** The reset loop of a crossfade start and of a swipe: all stopped, weight 0, no forced restart. */
  function Cleared(s: seq<ClipState>): seq<ClipState> {
    seq(|s|, i requires 0 <= i < |s| => s[i].(playing := false, weight := 0.0, shouldReset := false))
  }

  /** The reset loop of the idle restore: all stopped with weight 0, `shouldReset` kept. */
  function Silenced(s: seq<ClipState>): seq<ClipState> {
    seq(|s|, i requires 0 <= i < |s| => s[i].(playing := false, weight := 0.0))
  }

  /** The completion loop: only the states of `toClip` play, with weight 1; the others weigh 0. */
  function Completed(s: seq<ClipState>, toClip: string): seq<ClipState> {
    seq(|s|, i requires 0 <= i < |s| =>
      s[i].(playing := s[i].clip == toClip, weight := if s[i].clip == toClip then 1.0 else 0.0))
  }

  /** The states once a crossfade from `fromClip` to `toClip` has started. */
  function CrossfadeStarted(s: seq<ClipState>, fromClip: string, toClip: string, loop: bool): seq<ClipState> {
    var c := SetFound(Cleared(s), Find(s, fromClip), (x: ClipState) => x.(playing := true, weight := 1.0));
    SetFound(c, Find(s, toClip), (x: ClipState) => x.(playing := true, weight := 0.0, loop := loop))
  }

  /** The per-frame weight update of a crossfade. */
  function Blended(s: seq<ClipState>, fromClip: string, toClip: string, fromWeight: real, toWeight: real): seq<ClipState> {
    var c := SetFound(s, Find(s, fromClip), (x: ClipState) => x.(weight := fromWeight));
    SetFound(c, Find(s, toClip), (x: ClipState) => x.(weight := toWeight))
  }

  /** The swipe clip restarted from its first frame, alone and not looping. */
  function OneShot(s: seq<ClipState>, clip: string): seq<ClipState> {
    SetFound(Cleared(s), Find(s, clip),
             (x: ClipState) => x.(shouldReset := true, playing := true, weight := 1.0, loop := false))
  }

  /** The idle clip playing alone, looping. */
  function IdleRestored(s: seq<ClipState>, clip: string): seq<ClipState> {
    SetFound(Silenced(s), Find(s, clip), (x: ClipState) => x.(playing := true, weight := 1.0, loop := true))
  }

  /** The same clips in the same order; every rewrite above keeps the clips. */
  predicate SameClips(s: seq<ClipState>, u: seq<ClipState>) {
    |s| == |u| && forall i :: 0 <= i < |s| ==> s[i].clip == u[i].clip
  }

  /** The crossfade easing: quadratic ease-in-out, with `Math.pow(x, 2)` written as a product. */
  function Ease(p: real): real {
    if p < 0.5 then 2.0 * p * p else 1.0 - (-2.0 * p + 2.0) * (-2.0 * p + 2.0) / 2.0
  }

  /** `Math.min(1, elapsed / duration)` once `dt` more seconds have passed. */
  function Progress(t: Transition, dt: real): (r: real)
    requires t.duration > 0.0
    ensures r <= 1.0
  {
    MinReal(1.0, (t.elapsed + dt) / t.duration)
  }

  /**
   * `play...WithTransition(entity, toClip, loop)`: nothing when the entity has
   * no animator or `toClip` is already current; the current clip alone when
   * the animator has no state for `toClip`; otherwise the states are reset and
   * a crossfade starts.
   */
  function PlayedWithTransition(hasAnimator: bool, t: Track, toClip: string, loop: bool): Track {
    if !hasAnimator || t.currentClip == toClip then t
    else if Find(t.states, toClip).None? then t.(currentClip := toClip)
    else t.(states := CrossfadeStarted(t.states, t.currentClip, toClip, loop),
            active := Some(Transition(t.currentClip, toClip, loop, 0.0, AnimationTransitionDuration)))
  }

  /**
   * One entity's part of `animationTransitionSystem(dt)`: advance the crossfade
   * in progress, and once its progress reaches 1 leave only `toClip` playing.
   */
  function Stepped(hasAnimator: bool, t: Track, dt: real): Track
    requires ValidTrack(t)
  {
    match t.active
    case None => t
    case Some(tr) => if hasAnimator then Advanced(t, tr, dt) else t.(active := None)
  }

  /** A frame of the crossfade `tr` on an entity with an animator. */
  function Advanced(t: Track, tr: Transition, dt: real): Track
    requires tr.duration > 0.0
  {
    var p := Progress(tr, dt);
    var blended := Blended(t.states, tr.fromClip, tr.toClip, 1.0 - Ease(p), Ease(p));
    if p >= 1.0 then t.(states := Completed(blended, tr.toClip), currentClip := tr.toClip, active := None)
    else t.(states := blended, active := Some(tr.(elapsed := tr.elapsed + dt)))
  }

  /** The swipe in `handleSwipe`: drop the crossfade, play `clip` once, restore the idle clip later. */
  function SwipePlayed(hasAnimator: bool, t: Track, clip: string, now: real): Track {
    if !hasAnimator then t
    else t.(active := None, states := OneShot(t.states, clip), restoreAt := now + BroomSwipeAnimationDuration)
  }

  /** The idle restore in `penguinMovementSystem`, once the pending restore time has come. */
  function IdleRestoredIfDue(hasAnimator: bool, t: Track, clip: string, now: real): Track {
    if t.restoreAt > 0.0 && now >= t.restoreAt then
      if hasAnimator then t.(restoreAt := 0.0, states := IdleRestored(t.states, clip), currentClip := clip)
      else t.(restoreAt := 0.0)
    else t
  }

  /** The one-time crossfade to the second idle clip when the entity first reaches the stop line. */
  function StopLineReached(hasAnimator: bool, t: Track, clampedZ: real, clip: string): Track {
    if !t.reachedStopZ && clampedZ >= PenguinPlayerStopZ - 0.01 then
      PlayedWithTransition(hasAnimator, t.(reachedStopZ := true), clip, true)
    else t
  }

  // ---------------------------------------------------------------------------
  // Properties of the rewrites

  /**
   * The resting crossfade happens once: a track that has reached the stop line is
   * left alone, an arrival sets the flag, and every later frame changes nothing.
   */
  lemma StopLineOnce(hasAnimator: bool, t: Track, clampedZ: real, clip: string, laterZ: real, laterClip: string)
    ensures t.reachedStopZ ==> StopLineReached(hasAnimator, t, clampedZ, clip) == t
    ensures clampedZ >= PenguinPlayerStopZ - 0.01 ==> StopLineReached(hasAnimator, t, clampedZ, clip).reachedStopZ
    ensures clampedZ < PenguinPlayerStopZ - 0.01 ==> StopLineReached(hasAnimator, t, clampedZ, clip) == t
    ensures var r := StopLineReached(hasAnimator, t, clampedZ, clip);
      r.reachedStopZ ==> StopLineReached(hasAnimator, r, laterZ, laterClip) == r
  {
  }

  lemma {:induction false} ClearedTotal(s: seq<ClipState>)
    ensures TotalWeight(Cleared(s)) == 0.0
  {
    if |s| > 0 {
      assert Cleared(s)[1..] == Cleared(s[1..]);
      ClearedTotal(s[1..]);
    }
  }

  lemma {:induction false} SilencedTotal(s: seq<ClipState>)
    ensures TotalWeight(Silenced(s)) == 0.0
  {
    if |s| > 0 {
      assert Silenced(s)[1..] == Silenced(s[1..]);
      SilencedTotal(s[1..]);
    }
  }

  /** When clips are unique, completion leaves a total weight of 1 if `toClip` has a state, else 0. */
  lemma {:induction false} CompletedTotal(s: seq<ClipState>, toClip: string)
    requires UniqueClips(s)
    ensures TotalWeight(Completed(s, toClip)) == if Find(s, toClip).Some? then 1.0 else 0.0
  {
    if |s| > 0 {
      assert Completed(s, toClip)[1..] == Completed(s[1..], toClip);
      assert UniqueClips(s[1..]) by {
        forall i, j | 0 <= i < j < |s| - 1 ensures s[1..][i].clip != s[1..][j].clip {
          assert s[1..][i] == s[i + 1] && s[1..][j] == s[j + 1];
        }
      }
      CompletedTotal(s[1..], toClip);
      if s[0].clip == toClip {
        forall k | 0 <= k < |s| - 1 ensures s[1..][k].clip != toClip {
          assert s[1..][k] == s[k + 1];
        }
      }
    }
  }

  /** When clips are unique and `toClip` has a state, completion plays that state and no other. */
  lemma CompletedPlaysOnlyTarget(s: seq<ClipState>, toClip: string, i: nat)
    requires UniqueClips(s) && Find(s, toClip).Some? && i < |s|
    ensures Completed(s, toClip)[i].playing <==> i == Find(s, toClip).value
    ensures Completed(s, toClip)[i].weight == if i == Find(s, toClip).value then 1.0 else 0.0
  {
  }

  /** Completing twice is completing once. */
  lemma CompletedIdempotent(s: seq<ClipState>, toClip: string)
    ensures Completed(Completed(s, toClip), toClip) == Completed(s, toClip)
  {
  }

  /** Completion overrides every weight, so the blend of the final frame leaves no trace. */
  lemma CompletedAfterBlend(s: seq<ClipState>, fromClip: string, toClip: string, fw: real, tw: real)
    ensures Completed(Blended(s, fromClip, toClip, fw, tw), toClip) == Completed(s, toClip)
  {
    var b := Blended(s, fromClip, toClip, fw, tw);
    assert |b| == |s|;
    forall i | 0 <= i < |s| ensures Completed(b, toClip)[i] == Completed(s, toClip)[i] {
      assert b[i].clip == s[i].clip && b[i].shouldReset == s[i].shouldReset && b[i].loop == s[i].loop;
    }
  }

  /** A crossfade starts from a total weight of 1 when `fromClip` has a state, else 0. */
  lemma CrossfadeStartTotal(s: seq<ClipState>, fromClip: string, toClip: string, loop: bool)
    requires fromClip != toClip && Find(s, toClip).Some?
    ensures TotalWeight(CrossfadeStarted(s, fromClip, toClip, loop)) == if Find(s, fromClip).Some? then 1.0 else 0.0
  {
    var c0 := Cleared(s);
    ClearedTotal(s);
    var j := Find(s, toClip).value;
    var c := SetFound(c0, Find(s, fromClip), (x: ClipState) => x.(playing := true, weight := 1.0));
    if Find(s, fromClip).Some? {
      var i := Find(s, fromClip).value;
      TotalWeightUpdate(c0, i, c0[i].(playing := true, weight := 1.0));
      assert i != j;
    }
    assert c[j].weight == 0.0;
    TotalWeightUpdate(c, j, c[j].(playing := true, weight := 0.0, loop := loop));
  }

  /** A swipe leaves a total weight of 1 when the swipe clip has a state, else 0. */
  lemma OneShotTotal(s: seq<ClipState>, clip: string)
    ensures TotalWeight(OneShot(s, clip)) == if Find(s, clip).Some? then 1.0 else 0.0
  {
    ClearedTotal(s);
    if Find(s, clip).Some? {
      var i := Find(s, clip).value;
      TotalWeightUpdate(Cleared(s), i, Cleared(s)[i].(shouldReset := true, playing := true, weight := 1.0, loop := false));
    }
  }

  /** An idle restore leaves a total weight of 1 when the idle clip has a state, else 0. */
  lemma IdleRestoredTotal(s: seq<ClipState>, clip: string)
    ensures TotalWeight(IdleRestored(s, clip)) == if Find(s, clip).Some? then 1.0 else 0.0
  {
    SilencedTotal(s);
    if Find(s, clip).Some? {
      var i := Find(s, clip).value;
      TotalWeightUpdate(Silenced(s), i, Silenced(s)[i].(playing := true, weight := 1.0, loop := true));
    }
  }

  /** The easing is 0 at the start, 1 at the end, and stays within [0, 1]. */
  lemma EaseBounds(p: real)
    requires 0.0 <= p <= 1.0
    ensures 0.0 <= Ease(p) <= 1.0
    ensures p == 0.0 ==> Ease(p) == 0.0
    ensures p == 1.0 ==> Ease(p) == 1.0
  {
    if p < 0.5 {
      var q := p * p;
      SquareAtMost(p, 0.5);
      assert 2.0 * p * p == 2.0 * q;
    } else {
      var u := -2.0 * p + 2.0;
      SquareAtMost(u, 1.0);
    }
  }

  lemma SquareAtMost(a: real, b: real)
    requires 0.0 <= a <= b
    ensures 0.0 <= a * a <= b * b
  {
    var d := b - a;
    assert b * b - a * a == d * (b + a);
  }

  /** The start guard: asking for the clip that is already current changes nothing. */
  lemma PlayCurrentIsNoOp(hasAnimator: bool, t: Track, loop: bool)
    ensures PlayedWithTransition(hasAnimator, t, t.currentClip, loop) == t
  {
  }

  /** The progress reaches 1 exactly when the elapsed time reaches the duration. */
  lemma ProgressComplete(t: Transition, dt: real)
    requires t.duration > 0.0
    ensures Progress(t, dt) >= 1.0 <==> t.elapsed + dt >= t.duration
  {
    DivAtLeastOne(t.elapsed + dt, t.duration);
  }

  /** Once the elapsed time reaches the duration, a step completes the crossfade. */
  lemma StepCompletes(t: Track, dt: real)
    requires ValidTrack(t) && t.active.Some?
    requires t.active.value.elapsed + dt >= t.active.value.duration
    ensures Stepped(true, t, dt)
         == t.(states := Completed(t.states, t.active.value.toClip), currentClip := t.active.value.toClip, active := None)
  {
    var tr := t.active.value;
    ProgressComplete(tr, dt);
    var p := Progress(tr, dt);
    CompletedAfterBlend(t.states, tr.fromClip, tr.toClip, 1.0 - Ease(p), Ease(p));
  }

  /** Starting a crossfade keeps the clips, and completing it plays the states of `toClip` alone. */
  lemma StartedThenCompleted(s: seq<ClipState>, fromClip: string, toClip: string, loop: bool)
    ensures SameClips(CrossfadeStarted(s, fromClip, toClip, loop), s)
    ensures var r := Completed(CrossfadeStarted(s, fromClip, toClip, loop), toClip);
      SameClips(r, s) && forall i :: 0 <= i < |r| ==> (r[i].playing <==> s[i].clip == toClip)
  {
  }

  /**
   * A crossfade started on an animator with unique clips, once a whole
   * transition duration has passed, ends with `toClip` current and playing
   * alone at full weight, nothing in progress, and every clip name kept.
   */
  lemma CrossfadeEndsOnTarget(t: Track, toClip: string, loop: bool, dt: real)
    requires UniqueClips(t.states) && t.currentClip != toClip && Find(t.states, toClip).Some?
    requires dt >= AnimationTransitionDuration
    ensures var r := Stepped(true, PlayedWithTransition(true, t, toClip, loop), dt);
      && r.currentClip == toClip && r.active.None?
      && SameClips(r.states, t.states)
      && (forall i :: 0 <= i < |r.states| ==> (r.states[i].playing <==> t.states[i].clip == toClip))
      && TotalWeight(r.states) == 1.0
  {
    var started := PlayedWithTransition(true, t, toClip, loop);
    StepCompletes(started, dt);
    var s := started.states;
    StartedThenCompleted(t.states, t.currentClip, toClip, loop);
    FindSameClips(s, t.states, toClip);
    assert UniqueClips(s) by {
      forall i, j | 0 <= i < j < |s| ensures s[i].clip != s[j].clip {
        assert s[i].clip == t.states[i].clip && s[j].clip == t.states[j].clip;
      }
    }
    CompletedTotal(s, toClip);
  }

  // ---------------------------------------------------------------------------
  // The entity, updated in place

  /** One animated entity: its animator states and the game's crossfade bookkeeping for it. */
  class AnimatedEntity {
    /** Whether the entity has an `Animator` component. */
    const hasAnimator: bool
    /** `Animator.states`, rewritten in place. */
    const states: array<ClipState>
    var currentClip: string
    var active: Option<Transition>
    var restoreAt: real
    var reachedStopZ: bool

    function Snapshot(): Track
      reads this, states
    {
      Track(states[..], currentClip, active, restoreAt, reachedStopZ)
    }

    ghost predicate Valid()
      reads this, states
    {
      ValidTrack(Snapshot())
    }

    constructor (hasAnimator: bool, states: array<ClipState>, initialClip: string)
      ensures this.hasAnimator == hasAnimator && this.states == states
      ensures Snapshot() == Track(states[..], initialClip, None, 0.0, false)
      ensures Valid()
    {
      this.hasAnimator := hasAnimator;
      this.states := states;
      currentClip := initialClip;
      active := None;
      restoreAt := 0.0;
      reachedStopZ := false;
    }

    /** The reset loop: every state stopped, weight 0, no forced restart. */
    method ClearAll()
      modifies states
      ensures states[..] == Cleared(old(states[..]))
    {
      for i := 0 to states.Length
        invariant forall j :: 0 <= j < i ==> states[j] == old(states[j]).(playing := false, weight := 0.0, shouldReset := false)
        invariant forall j :: i <= j < states.Length ==> states[j] == old(states[j])
      {
        states[i] := states[i].(playing := false, weight := 0.0, shouldReset := false);
      }
    }

    /** The idle restore's reset loop: every state stopped with weight 0. */
    method SilenceAll()
      modifies states
      ensures states[..] == Silenced(old(states[..]))
    {
      for i := 0 to states.Length
        invariant forall j :: 0 <= j < i ==> states[j] == old(states[j]).(playing := false, weight := 0.0)
        invariant forall j :: i <= j < states.Length ==> states[j] == old(states[j])
      {
        states[i] := states[i].(playing := false, weight := 0.0);
      }
    }

    /** The completion loop: the states of `toClip` play at weight 1, the others stop at weight 0. */
    method CompleteAll(toClip: string)
      modifies states
      ensures states[..] == Completed(old(states[..]), toClip)
    {
      for i := 0 to states.Length
        invariant forall j :: 0 <= j < i ==>
          states[j] == old(states[j]).(playing := old(states[j]).clip == toClip,
                                       weight := if old(states[j]).clip == toClip then 1.0 else 0.0)
        invariant forall j :: i <= j < states.Length ==> states[j] == old(states[j])
      {
        states[i] := states[i].(playing := states[i].clip == toClip,
                                weight := if states[i].clip == toClip then 1.0 else 0.0);
      }
    }

    /** `play...WithTransition(entity, toClip, loop)`. */
    method PlayWithTransition(toClip: string, loop: bool)
      requires Valid()
      modifies this, states
      ensures Valid()
      ensures Snapshot() == PlayedWithTransition(hasAnimator, old(Snapshot()), toClip, loop)
    {
      if !hasAnimator || currentClip == toClip {
        return;
      }
      var fromClip := currentClip;
      var fromIndex := Find(states[..], fromClip);
      var toIndex := Find(states[..], toClip);
      if toIndex.None? {
        currentClip := toClip;
        return;
      }
      ClearAll();
      if fromIndex.Some? {
        states[fromIndex.value] := states[fromIndex.value].(playing := true, weight := 1.0);
      }
      var j := toIndex.value;
      states[j] := states[j].(playing := true, weight := 0.0, loop := loop);
      active := Some(Transition(fromClip, toClip, loop, 0.0, AnimationTransitionDuration));
    }

    /** The per-frame weights of the two clips of a crossfade. */
    method SetWeights(fromClip: string, toClip: string, fromWeight: real, toWeight: real)
      modifies states
      ensures states[..] == Blended(old(states[..]), fromClip, toClip, fromWeight, toWeight)
    {
      var fromIndex := Find(states[..], fromClip);
      var toIndex := Find(states[..], toClip);
      if fromIndex.Some? {
        states[fromIndex.value] := states[fromIndex.value].(weight := fromWeight);
      }
      if toIndex.Some? {
        states[toIndex.value] := states[toIndex.value].(weight := toWeight);
      }
    }

    /** This entity's part of `animationTransitionSystem(dt)`. */
    method Step(dt: real)
      requires Valid()
      modifies this, states
      ensures Valid()
      ensures Snapshot() == Stepped(hasAnimator, old(Snapshot()), dt)
    {
      if active.None? {
        return;
      }
      if !hasAnimator {
        active := None;
        return;
      }
      Advance(active.value, dt);
    }

    /** A frame of the crossfade `t` in progress. */
    method Advance(t: Transition, dt: real)
      requires t.duration > 0.0
      modifies this, states
      ensures active.Some? ==> active.value.duration == t.duration
      ensures Snapshot() == Advanced(old(Snapshot()), t, dt)
    {
      var progress := Progress(t, dt);
      var eased := Ease(progress);
      SetWeights(t.fromClip, t.toClip, 1.0 - eased, eased);
      if progress >= 1.0 {
        CompleteAll(t.toClip);
        currentClip := t.toClip;
        active := None;
      } else {
        active := Some(t.(elapsed := t.elapsed + dt));
      }
    }

    /** The swipe clip of `handleSwipe`: played once from its first frame, idle restore scheduled. */
    method PlaySwipe(clip: string, now: real)
      requires Valid()
      modifies this, states
      ensures Valid()
      ensures Snapshot() == SwipePlayed(hasAnimator, old(Snapshot()), clip, now)
    {
      if !hasAnimator {
        return;
      }
      active := None;
      ghost var before := states[..];
      ClearAll();
      var i := Find(states[..], clip);
      FindSameClips(states[..], before, clip);
      if i.Some? {
        states[i.value] := states[i.value].(shouldReset := true, playing := true, weight := 1.0, loop := false);
      }
      restoreAt := now + BroomSwipeAnimationDuration;
    }

    /** The idle restore of `penguinMovementSystem`, when the pending restore time has come. */
    method RestoreIdleIfDue(clip: string, now: real)
      requires Valid()
      modifies this, states
      ensures Valid()
      ensures Snapshot() == IdleRestoredIfDue(hasAnimator, old(Snapshot()), clip, now)
    {
      if restoreAt > 0.0 && now >= restoreAt {
        restoreAt := 0.0;
        if hasAnimator {
          ghost var before := states[..];
          SilenceAll();
          var i := Find(states[..], clip);
          FindSameClips(states[..], before, clip);
          if i.Some? {
            states[i.value] := states[i.value].(playing := true, weight := 1.0, loop := true);
          }
          currentClip := clip;
        }
      }
    }

    /** The switch to the second idle clip the first time the entity reaches the stop line. */
    method ReachStopLine(clampedZ: real, clip: string)
      requires Valid()
      modifies this, states
      ensures Valid()
      ensures Snapshot() == StopLineReached(hasAnimator, old(Snapshot()), clampedZ, clip)
    {
      if !reachedStopZ && clampedZ >= PenguinPlayerStopZ - 0.01 {
        reachedStopZ := true;
        PlayWithTransition(clip, true);
      }
    }
  }
}
