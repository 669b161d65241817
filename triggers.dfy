/**
 * The per-frame trigger checks of `_stepPlayer` and `_updateGoal`:
 * collectible pickup, drone contact and the goal radius. Distances are
 * compared squared; `DistanceTest` shows this is the same test as the
 * source's `distanceTo(...) < radius`.
 */
module Triggers {
  import opened Geometry
  import opened Oscillators

  /** A collectible is picked up closer than 1.2 units to the player's centre. */
  const PickupRadius := 1.2

  datatype Collectible = Collectible(pos: Vec3, taken: bool)

  datatype Goal = Goal(pos: Vec3, radius: real)

  /** The point `q` lies strictly closer than `r` to `p`. */
  predicate Within(p: Vec3, q: Vec3, r: real)
  {
    r > 0.0 && DistSq(p, q) < r * r
  }

  /** For the distance `d` between `p` and `q`, `d < r` is exactly `Within(p, q, r)`. */
  lemma DistanceTest(p: Vec3, q: Vec3, r: real, d: real)
    requires d >= 0.0 && d * d == DistSq(p, q)
    ensures Within(p, q, r) <==> d < r
  {
    assert r * r - d * d == (r - d) * (r + d);
    if d < r {
      assert 0.0 < r + d;
      assert 0.0 < (r - d) * (r + d);
    } else if r > 0.0 {
      assert 0.0 < r + d;
      assert (r - d) * (r + d) <= 0.0;
    }
  }

  /** The collectible loop of `_stepPlayer`: every untaken collectible near `p` becomes taken. */
  function Pickup(cs: seq<Collectible>, p: Vec3): (r: seq<Collectible>)
    ensures |r| == |cs|
    ensures forall i :: 0 <= i < |cs| ==>
      r[i].pos == cs[i].pos && (r[i].taken <==> cs[i].taken || Within(cs[i].pos, p, PickupRadius))
  {
    seq(|cs|, i requires 0 <= i < |cs| =>
      if !cs[i].taken && Within(cs[i].pos, p, PickupRadius) then cs[i].(taken := true) else cs[i])
  }

  /** The collectible loop of `_respawn`: every collectible is put back. */
  function ClearTaken(cs: seq<Collectible>): (r: seq<Collectible>)
    ensures |r| == |cs|
    ensures forall i :: 0 <= i < |cs| ==> r[i] == Collectible(cs[i].pos, false)
  {
    seq(|cs|, i requires 0 <= i < |cs| => cs[i].(taken := false))
  }

  /** Picking up never puts a collectible back, and a second pickup at the same spot changes nothing. */
  lemma PickupMonotoneIdempotent(cs: seq<Collectible>, p: Vec3)
    ensures forall i :: 0 <= i < |cs| && cs[i].taken ==> Pickup(cs, p)[i].taken
    ensures Pickup(Pickup(cs, p), p) == Pickup(cs, p)
  {
  }

  /** Clearing twice is clearing once. */
  lemma ClearTakenIdempotent(cs: seq<Collectible>)
    ensures ClearTaken(ClearTaken(cs)) == ClearTaken(cs)
  {
  }

  /** The drone loop of `_stepPlayer`: the player's box overlaps some drone's box. */
  predicate HitsHazard(player: Box, enemies: seq<Enemy>)
  {
    exists i :: 0 <= i < |enemies| && BoxOverlap(player, enemies[i].Aabb()).hit
  }

  /** The player stands in the goal's trigger sphere. */
  predicate AtGoal(p: Vec3, g: Goal)
  {
    Within(p, g.pos, g.radius)
  }
}
