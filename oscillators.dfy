/**
 * The phase-accumulator motion shared by moving platforms
 * (`_updateMovingPlatforms`) and drones (`_updateEnemies`): a phase that
 * grows by `dt * speed`, and a position that is a base position plus
 * `sin(phase) * amp` on one configured axis. `Math.sin` is a parameter.
 */
module Oscillators {
  import opened Geometry

  /** The level data's name for an axis. */
  function AxisName(a: Axis): string
  {
    match a
    case X => "x"
    case Y => "y"
    case Z => "z"
  }

  /**
   * `base` with `off` added on the axis named `axis`; a name other than
   * "x", "y" or "z" leaves every component as it is.
   */
  function Displace(base: Vec3, axis: string, off: real): (r: Vec3)
    ensures forall a :: Get(r, a) == Get(base, a) + (if axis == AxisName(a) then off else 0.0)
  {
    var px := if axis == "x" then base.x + off else base.x;
    var py := if axis == "y" then base.y + off else base.y;
    var pz := if axis == "z" then base.z + off else base.z;
    Vec3(px, py, pz)
  }

  /** Position of an oscillating entity at phase `t`. */
  function Oscillate(base: Vec3, axis: string, amp: real, t: real, sin: real -> real): Vec3
  {
    Displace(base, axis, sin(t) * amp)
  }

  /** A moving-platform entry of a level: position, size, axis, amplitude, speed. */
  datatype MovingDef = MovingDef(pos: Vec3, size: Vec3, axis: string, amp: real, speed: real)

  /**
   * A moving platform at run time: its definition, base position, phase `t`,
   * current position (the mesh position), previous position, per-frame
   * `delta`, and the centre of its collision box.
   */
  datatype MovingPlatform = MovingPlatform(def: MovingDef, basePos: Vec3, t: real, pos: Vec3, prevPos: Vec3, delta: Vec3, center: Vec3)
  {
    function Aabb(): Box { Box(center, Scale(def.size, 0.5)) }
  }

  /** The platform's invariant: on its track, box on its position, delta from its previous position. */
  predicate OnTrack(mp: MovingPlatform, sin: real -> real)
  {
    && mp.pos == Oscillate(mp.basePos, mp.def.axis, mp.def.amp, mp.t, sin)
    && mp.center == mp.pos
    && Add(mp.prevPos, mp.delta) == mp.pos
  }

  /** A moving platform as the world rebuild creates it: at rest at its base, phase 0. */
  function SpawnPlatform(def: MovingDef): (mp: MovingPlatform)
    ensures mp.def == def && mp.t == 0.0 && mp.delta == Zero
    ensures mp.basePos == def.pos && mp.pos == def.pos && mp.prevPos == def.pos && mp.center == def.pos
  {
    MovingPlatform(def, def.pos, 0.0, def.pos, def.pos, Zero, def.pos)
  }

  /** One frame of `_updateMovingPlatforms` for one platform, specified by `AdvancePlatform`. */
  function AdvancePlatform(mp: MovingPlatform, dt: real, sin: real -> real): (r: MovingPlatform)
    ensures r.def == mp.def && r.basePos == mp.basePos
    ensures r.t == mp.t + dt * mp.def.speed
    ensures r.prevPos == mp.pos
    ensures OnTrack(r, sin)
  {
    var t := mp.t + dt * mp.def.speed;
    var pos := Oscillate(mp.basePos, mp.def.axis, mp.def.amp, t, sin);
    MovingPlatform(mp.def, mp.basePos, t, pos, mp.pos, Sub(pos, mp.pos), pos)
  }

  /** The loop body of `_updateMovingPlatforms`, updating one platform field by field. */
  method StepPlatform(mp: MovingPlatform, dt: real, sin: real -> real) returns (r: MovingPlatform)
    ensures r == AdvancePlatform(mp, dt, sin)
  {
    var t := mp.t + dt * mp.def.speed;
    var prevPos := mp.pos;
    var off := sin(t) * mp.def.amp;
    var pos := mp.basePos;
    if mp.def.axis == "x" { pos := pos.(x := pos.x + off); }
    if mp.def.axis == "y" { pos := pos.(y := pos.y + off); }
    if mp.def.axis == "z" { pos := pos.(z := pos.z + off); }
    assert pos == Displace(mp.basePos, mp.def.axis, off);
    r := MovingPlatform(mp.def, mp.basePos, t, pos, prevPos, Sub(pos, prevPos), pos);
    ghost var expected := AdvancePlatform(mp, dt, sin);
    assert expected.t == t && expected.pos == pos;
  }

  /** With a sine that vanishes at 0, a freshly built platform is on its track. */
  lemma SpawnOnTrack(def: MovingDef, sin: real -> real)
    requires sin(0.0) == 0.0
    ensures OnTrack(SpawnPlatform(def), sin)
  {
    assert 0.0 * def.amp == 0.0;
  }

  /** A platform on its track differs from its base position only on its configured axis. */
  lemma OffAxisFixed(mp: MovingPlatform, sin: real -> real, a: Axis)
    requires OnTrack(mp, sin) && AxisName(a) != mp.def.axis
    ensures Get(mp.pos, a) == Get(mp.basePos, a)
  {
  }

  /**
   * The frame's delta is the oscillator's displacement between the old and
   * the new phase, so carrying by delta follows the platform exactly.
   */
  lemma DeltaIsDisplacement(mp: MovingPlatform, dt: real, sin: real -> real)
    requires OnTrack(mp, sin)
    ensures var r := AdvancePlatform(mp, dt, sin);
      r.delta == Sub(Oscillate(mp.basePos, mp.def.axis, mp.def.amp, r.t, sin),
                     Oscillate(mp.basePos, mp.def.axis, mp.def.amp, mp.t, sin))
  {
  }

  /** A point carried by the frame's delta keeps its offset from the platform. */
  lemma CarryIsRigid(p: Vec3, mp: MovingPlatform, dt: real, sin: real -> real)
    ensures var r := AdvancePlatform(mp, dt, sin);
      Sub(Add(p, r.delta), r.pos) == Sub(p, mp.pos)
  {
  }

  /** A drone entry of a level. */
  datatype EnemyDef = EnemyDef(pos: Vec3, patrolAxis: string, amp: real, speed: real)

  /** Every drone's collision box has half extent 0.55 on each axis. */
  const EnemyHalf := Vec3(0.55, 0.55, 0.55)

  /** A drone at run time: its definition, phase, mesh position and box centre. */
  datatype Enemy = Enemy(def: EnemyDef, t: real, pos: Vec3, center: Vec3)
  {
    function Aabb(): Box { Box(center, EnemyHalf) }
  }

  predicate EnemyOnTrack(e: Enemy, sin: real -> real)
  {
    e.pos == Oscillate(e.def.pos, e.def.patrolAxis, e.def.amp, e.t, sin) && e.center == e.pos
  }

  function SpawnEnemy(def: EnemyDef): (e: Enemy)
    ensures e.def == def && e.t == 0.0 && e.pos == def.pos
  {
    Enemy(def, 0.0, def.pos, def.pos)
  }

  /** The difficulty's drone speed factor: 0.8 on easy (1), 1.25 on hard (3), 1 otherwise. */
  function SpeedMultiplier(difficulty: int): (m: real)
    ensures 0.8 <= m <= 1.25
    ensures difficulty == 1 ==> m == 0.8
    ensures difficulty == 3 ==> m == 1.25
    ensures difficulty != 1 && difficulty != 3 ==> m == 1.0
  {
    if difficulty == 1 then 0.8 else if difficulty == 3 then 1.25 else 1.0
  }

  /** One frame of `_updateEnemies` for one drone. */
  function AdvanceEnemy(e: Enemy, dt: real, difficulty: int, sin: real -> real): (r: Enemy)
    ensures r.def == e.def
    ensures r.t == e.t + dt * e.def.speed * SpeedMultiplier(difficulty)
    ensures EnemyOnTrack(r, sin)
  {
    var t := e.t + dt * e.def.speed * SpeedMultiplier(difficulty);
    var pos := Oscillate(e.def.pos, e.def.patrolAxis, e.def.amp, t, sin);
    Enemy(e.def, t, pos, pos)
  }

  /** The loop body of `_updateEnemies`, updating one drone. */
  method StepEnemy(e: Enemy, dt: real, difficulty: int, sin: real -> real) returns (r: Enemy)
    ensures r == AdvanceEnemy(e, dt, difficulty, sin)
  {
    var t := e.t + dt * e.def.speed * (if difficulty == 1 then 0.8 else if difficulty == 3 then 1.25 else 1.0);
    var off := sin(t) * e.def.amp;
    var pos := e.def.pos;
    if e.def.patrolAxis == "x" { pos := pos.(x := pos.x + off); }
    if e.def.patrolAxis == "y" { pos := pos.(y := pos.y + off); }
    if e.def.patrolAxis == "z" { pos := pos.(z := pos.z + off); }
    assert pos == Displace(e.def.pos, e.def.patrolAxis, off);
    r := Enemy(e.def, t, pos, pos);
    ghost var expected := AdvanceEnemy(e, dt, difficulty, sin);
    assert expected.t == t && expected.pos == pos;
  }

  lemma SpawnEnemyOnTrack(def: EnemyDef, sin: real -> real)
    requires sin(0.0) == 0.0
    ensures EnemyOnTrack(SpawnEnemy(def), sin)
  {
    assert 0.0 * def.amp == 0.0;
  }
}
