/**
 * Distance-based scoring (src/scoring.ts). Positions are exact reals; the
 * square root of `calculateDistance2D` is not computed here: a distance is any
 * non-negative number whose square is the planar squared distance, and the
 * caller supplies it.
 */
module Scoring {
  import opened JsMath
  import opened GameConstants

  /** An SDK `Vector3`. */
  datatype Vec3 = Vec3(x: real, y: real, z: real)

  /** The default `maxDistance` (z 5 to z 65). */
  const DefaultMaxDistance: real := 60.0

  /** `dx * dx + dz * dz`: the square of the distance in the ground plane, ignoring height. */
  function SquaredDistance2D(a: Vec3, b: Vec3): (r: real)
    ensures r >= 0.0
  {
    var dx := a.x - b.x;
    var dz := a.z - b.z;
    assert dx * dx >= 0.0 && dz * dz >= 0.0;
    dx * dx + dz * dz
  }

  /** `d` is `calculateDistance2D(a, b)`: the non-negative square root of the planar squared distance. */
  predicate IsDistance2D(a: Vec3, b: Vec3, d: real) {
    d >= 0.0 && d * d == SquaredDistance2D(a, b)
  }

  lemma ProductPositive(a: real, b: real)
    requires a > 0.0 && b > 0.0
    ensures a * b > 0.0
  {
  }

  /** Squaring is strictly increasing on the non-negative numbers. */
  lemma SquareLess(a: real, b: real)
    requires 0.0 <= a < b
    ensures a * a < b * b
  {
    var p := (b - a) * (b + a);
    assert b * b - a * a == p;
    ProductPositive(b - a, b + a);
  }

  /** The square root is unique, so the distance is a function of the two positions. */
  lemma Distance2DUnique(a: Vec3, b: Vec3, d1: real, d2: real)
    requires IsDistance2D(a, b, d1) && IsDistance2D(a, b, d2)
    ensures d1 == d2
  {
    if d1 < d2 {
      SquareLess(d1, d2);
    } else if d2 < d1 {
      SquareLess(d2, d1);
    }
  }

  /** The distance does not depend on the order of the two positions. */
  lemma Distance2DSymmetric(a: Vec3, b: Vec3, d: real)
    ensures IsDistance2D(a, b, d) <==> IsDistance2D(b, a, d)
  {
    assert (a.x - b.x) * (a.x - b.x) == (b.x - a.x) * (b.x - a.x);
    assert (a.z - b.z) * (a.z - b.z) == (b.z - a.z) * (b.z - a.z);
  }

  /** Heights are ignored: moving either position vertically keeps the distance. */
  lemma Distance2DIgnoresHeight(a: Vec3, b: Vec3, d: real, ya: real, yb: real)
    ensures IsDistance2D(a, b, d) <==> IsDistance2D(a.(y := ya), b.(y := yb), d)
  {
  }

  /** Two positions that agree on x and z are at distance zero, whatever their heights. */
  lemma Distance2DZero(a: Vec3, b: Vec3, d: real)
    requires IsDistance2D(a, b, d) && a.x == b.x && a.z == b.z
    ensures d == 0.0
  {
    assert IsDistance2D(a, b, 0.0);
    Distance2DUnique(a, b, d, 0.0);
  }

  /** `Math.min(1, distance / maxDistance)`: 0 on the target, 1 at or beyond the maximum. */
  function NormalizedDistance(distance: real, maxDistance: real): (r: real)
    requires distance >= 0.0 && maxDistance > 0.0
    ensures 0.0 <= r <= 1.0
    ensures r == 1.0 <==> distance >= maxDistance
  {
    RatioAtLeastOne(distance, maxDistance);
    MinReal(1.0, distance / maxDistance)
  }

  lemma RatioAtLeastOne(d: real, m: real)
    requires d >= 0.0 && m > 0.0
    ensures d / m >= 0.0
    ensures d / m >= 1.0 <==> d >= m
  {
    var q := d / m;
    assert q * m == d;
    if d >= m {
      assert q >= 1.0;
    } else {
      assert q < 1.0;
    }
  }

  /** `calculateScore` given the distance: `max(0, round(1000 * (1 - normalized)))`. */
  function ScoreForDistance(distance: real, maxDistance: real): (r: int)
    requires distance >= 0.0 && maxDistance > 0.0
    ensures 0 <= r <= MaxScore
  {
    var score := MaxScore as real * (1.0 - NormalizedDistance(distance, maxDistance));
    RoundMonotone(score, MaxScore as real);
    RoundOfInteger(MaxScore);
    var rounded := Round(score);
    if rounded > 0 then rounded else 0
  }

  /** `calculateScore(penguin, target)` with the default maximum, `d` being their distance. */
  function CalculateScore(penguin: Vec3, target: Vec3, d: real): (r: int)
    requires IsDistance2D(penguin, target, d)
    ensures 0 <= r <= MaxScore
  {
    ScoreForDistance(d, DefaultMaxDistance)
  }

  /** On the target the score is the maximum. */
  lemma ScoreOnTarget(maxDistance: real)
    requires maxDistance > 0.0
    ensures ScoreForDistance(0.0, maxDistance) == MaxScore
  {
    assert NormalizedDistance(0.0, maxDistance) == 0.0;
    RoundOfInteger(MaxScore);
  }

  /** At or beyond the maximum distance the score is zero. */
  lemma ScoreBeyondMax(distance: real, maxDistance: real)
    requires maxDistance > 0.0 && distance >= maxDistance
    ensures ScoreForDistance(distance, maxDistance) == 0
  {
    assert NormalizedDistance(distance, maxDistance) == 1.0;
    RoundOfInteger(0);
  }

  /** Less distance never scores less: the score is non-increasing in the distance. */
  lemma ScoreMonotone(d1: real, d2: real, maxDistance: real)
    requires 0.0 <= d1 <= d2 && maxDistance > 0.0
    ensures ScoreForDistance(d2, maxDistance) <= ScoreForDistance(d1, maxDistance)
  {
    var n1, n2 := NormalizedDistance(d1, maxDistance), NormalizedDistance(d2, maxDistance);
    var q1, q2 := d1 / maxDistance, d2 / maxDistance;
    assert q1 <= q2 by {
      var m1, m2 := q1 * maxDistance, q2 * maxDistance;
      assert m1 == d1 && m2 == d2;
    }
    assert n1 <= n2;
    assert MaxScore as real * (1.0 - n2) <= MaxScore as real * (1.0 - n1);
    RoundMonotone(MaxScore as real * (1.0 - n2), MaxScore as real * (1.0 - n1));
  }

  /** Half the maximum distance away scores half the points. */
  lemma HalfwayScore()
    ensures ScoreForDistance(30.0, DefaultMaxDistance) == 500
  {
    assert NormalizedDistance(30.0, DefaultMaxDistance) == 0.5;
    RoundOfInteger(500);
  }

  /** Any position on the target scores the maximum, wherever the target is. */
  lemma ScoreAtTarget(penguin: Vec3, target: Vec3, d: real)
    requires IsDistance2D(penguin, target, d) && penguin.x == target.x && penguin.z == target.z
    ensures CalculateScore(penguin, target, d) == MaxScore
  {
    Distance2DZero(penguin, target, d);
    ScoreOnTarget(DefaultMaxDistance);
  }
}
