/**
 * The sequential box resolver of `Game._resolvePlayerCollisions`, as a
 * specification on values. Each collider that overlaps the player pushes the
 * player out along its minimum-depth axis; the colliders are visited in one
 * fixed order, static platforms first, then moving platforms.
 */
module Collision {
  import opened Wrappers
  import opened Geometry

  /**
   * One entry of `[...this.platforms, ...this.movingPlatforms]`. `moving` is
   * the index of the moving platform the entry stands for, and `None` for a
   * static platform, which has no `delta` field.
   */
  datatype Collider = Collider(box: Box, moving: Option<nat>)

  /** The part of the player the resolver reads and writes. */
  datatype Body = Body(pos: Vec3, vel: Vec3, grounded: bool, ground: Option<nat>)

  /** The collider list in visiting order: every static box, then every moving box. */
  function Colliders(statics: seq<Box>, movers: seq<Box>): (cs: seq<Collider>)
    ensures |cs| == |statics| + |movers|
  {
    seq(|statics|, i requires 0 <= i < |statics| => Collider(statics[i], None))
      + seq(|movers|, j requires 0 <= j < |movers| => Collider(movers[j], Some(j)))
  }

  /** Static boxes come first and carry no platform index; moving ones follow, tagged with their index. */
  lemma CollidersLayout(statics: seq<Box>, movers: seq<Box>)
    ensures var cs := Colliders(statics, movers);
      (forall i :: 0 <= i < |statics| ==> cs[i] == Collider(statics[i], None))
      && (forall j :: 0 <= j < |movers| ==> cs[|statics| + j] == Collider(movers[j], Some(j)))
  {
  }

  /** Push direction: -1 when the player's centre is strictly below the collider's on that axis. */
  function Direction(player: real, collider: real): (d: real)
    ensures d == -1.0 || d == 1.0
    ensures d == -1.0 <==> player < collider
  {
    if player < collider then -1.0 else 1.0
  }

  function PlayerBox(b: Body, half: Vec3): Box { Box(b.pos, half) }

  function OverlapOf(b: Body, half: Vec3, c: Collider): Overlap
  {
    BoxOverlap(PlayerBox(b, half), c.box)
  }

  function PushAxis(o: Overlap): Axis { ChooseAxis(o.ox, o.oy, o.oz) }

  /** The collider overlaps the player and pushes it up along y: the player lands on it. */
  predicate Lands(b: Body, half: Vec3, c: Collider)
  {
    var o := OverlapOf(b, half, c);
    o.hit && PushAxis(o) == Y && Direction(b.pos.y, c.box.c.y) == 1.0
  }

  /** The effect of one collider on the player (one iteration of the resolver loop). */
  function ResolveOne(b: Body, half: Vec3, c: Collider): (r: Body)
    ensures !OverlapOf(b, half, c).hit ==> r == b
    ensures OverlapOf(b, half, c).hit ==>
      var o := OverlapOf(b, half, c);
      var a := PushAxis(o);
      && Get(r.pos, a) == Get(b.pos, a) + Direction(Get(b.pos, a), Get(c.box.c, a)) * Depth(o, a)
      && Get(r.vel, a) == 0.0
      && (forall a' :: a' != a ==> Get(r.pos, a') == Get(b.pos, a') && Get(r.vel, a') == Get(b.vel, a'))
    ensures r.grounded <==> b.grounded || Lands(b, half, c)
    ensures r.ground == if Lands(b, half, c) && c.moving.Some? then c.moving else b.ground
  {
    var o := OverlapOf(b, half, c);
    if !o.hit then b
    else
      var a := PushAxis(o);
      var dir := Direction(Get(b.pos, a), Get(c.box.c, a));
      var pos := With(b.pos, a, Get(b.pos, a) + dir * Depth(o, a));
      var vel := With(b.vel, a, 0.0);
      if a == Y && dir > 0.0 then
        Body(pos, vel, true, if c.moving.Some? then c.moving else b.ground)
      else
        Body(pos, vel, b.grounded, b.ground)
  }

  /** The resolver's three branches, written per axis as the source writes them. */
  lemma ResolveOneBranches(b: Body, half: Vec3, c: Collider)
    requires OverlapOf(b, half, c).hit
    ensures var o := OverlapOf(b, half, c); var r := ResolveOne(b, half, c);
      if o.ox <= o.oy && o.ox <= o.oz then
        r == b.(pos := b.pos.(x := b.pos.x + Direction(b.pos.x, c.box.c.x) * o.ox), vel := b.vel.(x := 0.0))
      else if o.oz <= o.ox && o.oz <= o.oy then
        r == b.(pos := b.pos.(z := b.pos.z + Direction(b.pos.z, c.box.c.z) * o.oz), vel := b.vel.(z := 0.0))
      else
        var dir := Direction(b.pos.y, c.box.c.y);
        r == Body(b.pos.(y := b.pos.y + dir * o.oy), b.vel.(y := 0.0),
                  b.grounded || dir > 0.0, if dir > 0.0 && c.moving.Some? then c.moving else b.ground)
  {
    var o := OverlapOf(b, half, c);
    if o.ox <= o.oy && o.ox <= o.oz {
      assert PushAxis(o) == X;
    } else if o.oz <= o.ox && o.oz <= o.oy {
      assert PushAxis(o) == Z;
    } else {
      assert PushAxis(o) == Y;
    }
  }

  /** The whole pass: the colliders applied one after another, each to the body the previous one left. */
  function ResolveAll(b: Body, half: Vec3, cs: seq<Collider>): (r: Body)
    ensures b.grounded ==> r.grounded
    ensures (b.ground.Some? ==> b.grounded) ==> (r.ground.Some? ==> r.grounded)
    decreases |cs|
  {
    if cs == [] then b
    else ResolveOne(ResolveAll(b, half, cs[..|cs| - 1]), half, cs[|cs| - 1])
  }

  /** One more step of the pass: the prefix of length `i + 1` is the prefix of length `i`, then collider `i`. */
  lemma ResolveAllStep(b: Body, half: Vec3, cs: seq<Collider>, i: nat)
    requires i < |cs|
    ensures ResolveAll(b, half, cs[..i + 1]) == ResolveOne(ResolveAll(b, half, cs[..i]), half, cs[i])
  {
    assert cs[..i + 1][..i] == cs[..i];
  }

  /** Resolving against `s + t` is resolving against `s`, then against `t`. */
  lemma {:induction false} ResolveAllAppend(b: Body, half: Vec3, s: seq<Collider>, t: seq<Collider>)
    ensures ResolveAll(b, half, s + t) == ResolveAll(ResolveAll(b, half, s), half, t)
    decreases |t|
  {
    if t == [] {
      assert s + t == s;
    } else {
      var t' := t[..|t| - 1];
      assert (s + t)[..|s + t| - 1] == s + t';
      ResolveAllAppend(b, half, s, t');
    }
  }

  /**
   * The static platforms are all resolved before any moving platform: the
   * pass over the world's colliders is the pass over the static ones alone,
   * continued over the moving ones alone.
   */
  lemma StaticsBeforeMovers(b: Body, half: Vec3, statics: seq<Box>, movers: seq<Box>)
    ensures ResolveAll(b, half, Colliders(statics, movers))
         == ResolveAll(ResolveAll(b, half, Colliders(statics, [])), half, Colliders([], movers))
  {
    var cs := Colliders(statics, movers);
    CollidersLayout(statics, movers);
    CollidersLayout(statics, []);
    CollidersLayout([], movers);
    assert cs == Colliders(statics, []) + Colliders([], movers);
    ResolveAllAppend(b, half, Colliders(statics, []), Colliders([], movers));
  }

  /** A pass over colliders none of which touches the player changes nothing. */
  lemma {:induction false} ResolveAllUntouched(b: Body, half: Vec3, cs: seq<Collider>)
    requires forall i :: 0 <= i < |cs| ==> !OverlapOf(b, half, cs[i]).hit
    ensures ResolveAll(b, half, cs) == b
    decreases |cs|
  {
    if cs != [] {
      ResolveAllUntouched(b, half, cs[..|cs| - 1]);
    }
  }

  /** At its turn in the pass over `cs`, collider `i` pushes the player up along y. */
  predicate LandsAt(b: Body, half: Vec3, cs: seq<Collider>, i: nat)
    requires i < |cs|
  {
    Lands(ResolveAll(b, half, cs[..i]), half, cs[i])
  }

  /** Whether collider `i` lands the player does not depend on the colliders after it. */
  lemma LandsAtPrefix(b: Body, half: Vec3, cs: seq<Collider>, n: nat, i: nat)
    requires i < n <= |cs|
    ensures LandsAt(b, half, cs[..n], i) == LandsAt(b, half, cs, i)
  {
    assert cs[..n][..i] == cs[..i];
  }

  /**
   * Starting from a cleared ground flag, the player ends the pass grounded
   * exactly when some collider, at its turn, pushed the player up along y.
   */
  lemma {:induction false} GroundedIffLanded(b: Body, half: Vec3, cs: seq<Collider>)
    requires !b.grounded
    ensures ResolveAll(b, half, cs).grounded <==> exists i: nat :: i < |cs| && LandsAt(b, half, cs, i)
    decreases |cs|
  {
    if cs != [] {
      var n := |cs| - 1;
      var init := cs[..n];
      GroundedIffLanded(b, half, init);
      assert LandsAt(b, half, cs, n) == Lands(ResolveAll(b, half, init), half, cs[n]);
      if ResolveAll(b, half, cs).grounded {
        if !LandsAt(b, half, cs, n) {
          var i: nat :| i < n && LandsAt(b, half, init, i);
          LandsAtPrefix(b, half, cs, n, i);
        }
      } else {
        assert !ResolveAll(b, half, init).grounded;
        forall i: nat | i < n ensures !LandsAt(b, half, cs, i) {
          LandsAtPrefix(b, half, cs, n, i);
        }
      }
    }
  }

  /**
   * Starting from a cleared support, the pass binds a support only to a
   * collider that stands for a moving platform, and only together with the
   * ground flag.
   */
  lemma {:induction false} SupportIsMovingPlatform(b: Body, half: Vec3, cs: seq<Collider>)
    requires b.ground == None
    ensures var r := ResolveAll(b, half, cs);
      r.ground.Some? ==> r.grounded && exists i :: 0 <= i < |cs| && cs[i].moving == r.ground
    decreases |cs|
  {
    if cs != [] {
      var init := cs[..|cs| - 1];
      SupportIsMovingPlatform(b, half, init);
      var mid := ResolveAll(b, half, init);
      if mid.ground.Some? {
        var i :| 0 <= i < |init| && init[i].moving == mid.ground;
        assert cs[i] == init[i];
      }
    }
  }

  /** A support bound over `Colliders(statics, movers)` is a valid moving-platform index. */
  lemma SupportIndexInRange(b: Body, half: Vec3, statics: seq<Box>, movers: seq<Box>)
    requires b.ground == None
    ensures var r := ResolveAll(b, half, Colliders(statics, movers));
      r.ground.Some? ==> r.ground.value < |movers|
  {
    var cs := Colliders(statics, movers);
    SupportIsMovingPlatform(b, half, cs);
    var r := ResolveAll(b, half, cs);
    if r.ground.Some? {
      var i :| 0 <= i < |cs| && cs[i].moving == r.ground;
      assert i >= |statics|;
      assert cs[|statics| + (i - |statics|)].moving == Some(i - |statics|);
    }
  }

  /**
   * When the player reaches the pushed axis from the collider's far side
   * (its low face at or above the collider's, its high face at or above the
   * collider's), resolution leaves the player's low face exactly on the
   * collider's high face, stops it on that axis, and separates the two boxes.
   */
  lemma RestsOnFarFace(b: Body, half: Vec3, c: Collider)
    requires OverlapOf(b, half, c).hit
    requires var a := PushAxis(OverlapOf(b, half, c));
      Get(PlayerBox(b, half).Min(), a) >= Get(c.box.Min(), a) && Get(PlayerBox(b, half).Max(), a) >= Get(c.box.Max(), a)
    ensures var a := PushAxis(OverlapOf(b, half, c)); var r := ResolveOne(b, half, c);
      && Get(PlayerBox(r, half).Min(), a) == Get(c.box.Max(), a)
      && Get(r.vel, a) == 0.0
      && !OverlapOf(r, half, c).hit
  {
    var o := OverlapOf(b, half, c);
    var a := PushAxis(o);
    var r := ResolveOne(b, half, c);
    match a
    case X => assert o.ox == c.box.Max().x - PlayerBox(b, half).Min().x;
    case Y => assert o.oy == c.box.Max().y - PlayerBox(b, half).Min().y;
    case Z => assert o.oz == c.box.Max().z - PlayerBox(b, half).Min().z;
  }

  /**
   * The mirror case: the player comes from the collider's near side and is
   * pushed back so that its high face meets the collider's low face.
   */
  lemma StopsAtNearFace(b: Body, half: Vec3, c: Collider)
    requires OverlapOf(b, half, c).hit
    requires var a := PushAxis(OverlapOf(b, half, c));
      Get(PlayerBox(b, half).Min(), a) <= Get(c.box.Min(), a) && Get(PlayerBox(b, half).Max(), a) < Get(c.box.Max(), a)
    ensures var a := PushAxis(OverlapOf(b, half, c)); var r := ResolveOne(b, half, c);
      && Get(PlayerBox(r, half).Max(), a) == Get(c.box.Min(), a)
      && Get(r.vel, a) == 0.0
      && !OverlapOf(r, half, c).hit
  {
    var o := OverlapOf(b, half, c);
    var a := PushAxis(o);
    match a
    case X => assert o.ox == PlayerBox(b, half).Max().x - c.box.Min().x;
    case Y => assert o.oy == PlayerBox(b, half).Max().y - c.box.Min().y;
    case Z => assert o.oz == PlayerBox(b, half).Max().z - c.box.Min().z;
  }

  /**
   * Landing: when y is the pushed axis and the player comes down onto the
   * collider from above, it ends with its feet exactly on the collider's top,
   * vertical velocity zero, and grounded.
   */
  lemma Landing(b: Body, half: Vec3, c: Collider)
    requires OverlapOf(b, half, c).hit && PushAxis(OverlapOf(b, half, c)) == Y
    requires PlayerBox(b, half).Min().y >= c.box.Min().y && PlayerBox(b, half).Max().y >= c.box.Max().y
    ensures var r := ResolveOne(b, half, c);
      r.pos.y - half.y == c.box.c.y + c.box.h.y && r.vel.y == 0.0 && r.grounded
  {
    RestsOnFarFace(b, half, c);
    assert Lands(b, half, c);
  }
}
