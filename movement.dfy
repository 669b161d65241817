/**
 * The player's per-frame movement rules (`Game._stepPlayer`) as a
 * specification on values: platform carry, jump buffer and coyote timers,
 * the edge-triggered single-use dash, gravity, the horizontal blend, the
 * jump, integration, and the settle step around the collision resolver.
 * The floating-point library calls the blend and the wish direction use
 * (`Math.exp`, `Math.pow`, `Vector3.normalize`) are parameters.
 */
module Movement {
  import opened Wrappers
  import opened Geometry
  import opened Collision
  import opened Oscillators

  const JumpBufferWindow := 0.12
  const CoyoteWindow := 0.10
  const DashDuration := 0.22
  const Gravity := -24.0
  const JumpSpeed := 9.2
  const GroundAccel := 36.0
  const AirAccel := 18.0
  const AirControl := 0.75
  /** Base of the ground friction factor `Math.pow(0.0008, dt)`. */
  const FrictionBase := 0.0008
  /** Below this height the player has fallen out of the level. */
  const DeathPlane := -30.0
  const PlayerHalf := Vec3(0.45, 0.9, 0.45)

  /** Run speed per difficulty: 7.2 on easy (1), 6.2 on hard (3), 6.6 otherwise. */
  function MaxSpeed(difficulty: int): (s: real)
    ensures 6.2 <= s <= 7.2
    ensures difficulty == 1 ==> s == 7.2
    ensures difficulty == 3 ==> s == 6.2
    ensures difficulty != 1 && difficulty != 3 ==> s == 6.6
  {
    if difficulty == 1 then 7.2 else if difficulty == 3 then 6.2 else 6.6
  }

  /** Dash speed per difficulty: 18 on hard (3), 20 otherwise. */
  function DashSpeed(difficulty: int): (s: real)
    ensures difficulty == 3 <==> s == 18.0
    ensures difficulty != 3 <==> s == 20.0
  {
    if difficulty == 3 then 18.0 else 20.0
  }

  /** The library functions the movement code calls, supplied from outside. */
  datatype MathLib = MathLib(sin: real -> real, exp: real -> real, pow: (real, real) -> real, normalize: Vec3 -> Vec3)

  /** The camera's horizontal basis: `away` from the camera and `right` of it. */
  datatype Basis = Basis(away: Vec3, right: Vec3)

  /** The on-screen buttons of the touch controls. */
  datatype Buttons = Buttons(left: bool, right: bool, forward: bool, back: bool, jump: bool, dash: bool)

  /** What `_inputAxes` returns. */
  datatype Axes = Axes(x: int, z: int, jumpHeld: bool, dashHeld: bool)

  /** `keys.get(code) === true`: a key never seen counts as released. */
  predicate Held(keys: map<string, bool>, code: string) { code in keys && keys[code] }

  predicate LeftHeld(keys: map<string, bool>, btn: Buttons) { Held(keys, "ArrowLeft") || Held(keys, "KeyA") || btn.left }
  predicate RightHeld(keys: map<string, bool>, btn: Buttons) { Held(keys, "ArrowRight") || Held(keys, "KeyD") || btn.right }
  predicate ForwardHeld(keys: map<string, bool>, btn: Buttons) { Held(keys, "ArrowUp") || Held(keys, "KeyW") || btn.forward }
  predicate BackHeld(keys: map<string, bool>, btn: Buttons) { Held(keys, "ArrowDown") || Held(keys, "KeyS") || btn.back }

  /** `_inputAxes`: opposite directions held together cancel out. */
  function InputAxes(keys: map<string, bool>, btn: Buttons): (a: Axes)
    ensures -1 <= a.x <= 1 && -1 <= a.z <= 1
    ensures a.x == 1 <==> RightHeld(keys, btn) && !LeftHeld(keys, btn)
    ensures a.x == -1 <==> LeftHeld(keys, btn) && !RightHeld(keys, btn)
    ensures a.z == 1 <==> ForwardHeld(keys, btn) && !BackHeld(keys, btn)
    ensures a.z == -1 <==> BackHeld(keys, btn) && !ForwardHeld(keys, btn)
    ensures a.jumpHeld <==> Held(keys, "Space") || btn.jump
    ensures a.dashHeld <==> Held(keys, "ShiftLeft") || Held(keys, "ShiftRight") || Held(keys, "KeyK") || btn.dash
  {
    Axes((if RightHeld(keys, btn) then 1 else 0) - (if LeftHeld(keys, btn) then 1 else 0),
         (if ForwardHeld(keys, btn) then 1 else 0) - (if BackHeld(keys, btn) then 1 else 0),
         Held(keys, "Space") || btn.jump,
         Held(keys, "ShiftLeft") || Held(keys, "ShiftRight") || Held(keys, "KeyK") || btn.dash)
  }

  /**
   * The player's kinematic state; `groundPlatform` is the index of the moving
   * platform the player stands on, in place of the source's object reference.
   */
  datatype Kin = Kin(pos: Vec3, vel: Vec3, grounded: bool, groundPlatform: Option<nat>, coyote: real,
                     dashAvailable: bool, dashing: bool, dashTime: real, jumpBuffer: real, facing: Vec3)

  /** Both grace timers lie inside their windows. */
  predicate TimersOk(k: Kin)
  {
    0.0 <= k.jumpBuffer <= JumpBufferWindow && 0.0 <= k.coyote <= CoyoteWindow
  }

  /** The dash flag and the dash timer agree. */
  predicate DashClockOk(k: Kin)
  {
    k.dashing <==> k.dashTime > 0.0
  }

  /** A supporting platform is bound only while grounded. */
  predicate SupportOk(k: Kin)
  {
    k.groundPlatform.Some? ==> k.grounded
  }

  /** The state `_respawn` puts the player in. */
  function Respawned(spawn: Vec3): (k: Kin)
    ensures TimersOk(k) && DashClockOk(k) && SupportOk(k)
    ensures k.pos == spawn && k.vel == Zero && k.dashAvailable && !k.grounded
    ensures k.groundPlatform.None? && !k.dashing
    ensures k.coyote == 0.0 && k.jumpBuffer == 0.0 && k.dashTime == 0.0
    ensures k.facing == Vec3(0.0, 0.0, 1.0)
  {
    Kin(spawn, Zero, false, None, 0.0, true, false, 0.0, 0.0, Vec3(0.0, 0.0, 1.0))
  }

  // ---- the phases of one frame, in the order `_stepPlayer` runs them ----

  /** Carry: a grounded player moves with the platform it stands on. */
  function Carry(k: Kin, moving: seq<MovingPlatform>): Kin
  {
    if k.grounded && k.groundPlatform.Some? && k.groundPlatform.value < |moving|
    then k.(pos := Add(k.pos, moving[k.groundPlatform.value].delta))
    else k
  }

  function TickTimers(k: Kin, dt: real, jumpHeld: bool): Kin
  {
    k.(jumpBuffer := if jumpHeld then JumpBufferWindow else MaxReal(0.0, k.jumpBuffer - dt),
       coyote := if k.grounded then CoyoteWindow else MaxReal(0.0, k.coyote - dt))
  }

  function RawWish(input: Axes, basis: Basis): Vec3
  {
    Add(Add(Zero, Scale(basis.right, input.x as real)), Scale(basis.away, input.z as real))
  }

  /** The wish direction: normalised, except that a zero vector stays zero. */
  function Wish(input: Axes, basis: Basis, math: MathLib): Vec3
  {
    var raw := RawWish(input, basis);
    if LengthSq(raw) > 0.0 then math.normalize(raw) else raw
  }

  function Face(k: Kin, input: Axes, basis: Basis, math: MathLib): Kin
  {
    if LengthSq(RawWish(input, basis)) > 0.0 then k.(facing := Wish(input, basis, math)) else k
  }

  predicate DashFires(k: Kin, pressed: bool)
  {
    pressed && k.dashAvailable && !k.dashing
  }

  function StartDash(k: Kin, dir: Vec3, speed: real): Kin
  {
    k.(dashing := true, dashTime := DashDuration, dashAvailable := false, vel := Scale(dir, speed).(y := 0.0))
  }

  function TickDash(k: Kin, dt: real): Kin
  {
    if k.dashing then
      var t := k.dashTime - dt;
      k.(dashTime := t, dashing := !(t <= 0.0))
    else k
  }

  function Fall(k: Kin, dt: real): Kin
  {
    k.(vel := k.vel.(y := k.vel.y + Gravity * dt))
  }

  /**
   * The horizontal blend toward `wish * maxSpeed`, with the extra ground
   * friction when there is no wish and the player is grounded.
   */
  function Steer(k: Kin, wish: Vec3, maxSpeed: real, math: MathLib, dt: real): Kin
  {
    var accel := if k.grounded then GroundAccel else AirAccel;
    var a := accel * (if k.grounded then 1.0 else AirControl);
    var cur := Lerp(Vec3(k.vel.x, 0.0, k.vel.z), Scale(wish, maxSpeed), 1.0 - math.exp(-a * dt));
    var h := if LengthSq(wish) == 0.0 && k.grounded then Scale(cur, math.pow(FrictionBase, dt)) else cur;
    k.(vel := k.vel.(x := h.x, z := h.z))
  }

  predicate JumpReady(k: Kin)
  {
    k.jumpBuffer > 0.0 && (k.grounded || k.coyote > 0.0)
  }

  function Launch(k: Kin): Kin
  {
    k.(vel := k.vel.(y := JumpSpeed), grounded := false, groundPlatform := None, coyote := 0.0, jumpBuffer := 0.0)
  }

  function Integrate(k: Kin, dt: real): Kin
  {
    k.(pos := Add(k.pos, Scale(k.vel, dt)))
  }

  /** The dash block: fire on a fresh press if a dash is available and none runs, then run the clock. */
  function DashStep(k: Kin, pressed: bool, wish: Vec3, away: Vec3, difficulty: int, dt: real): Kin
  {
    var dir := if LengthSq(wish) > 0.0 then wish else away;
    TickDash(if DashFires(k, pressed) then StartDash(k, dir, DashSpeed(difficulty)) else k, dt)
  }

  /** Gravity and steering, both skipped while a dash runs. */
  function Move(k: Kin, wish: Vec3, difficulty: int, math: MathLib, dt: real): Kin
  {
    if k.dashing then k else Steer(Fall(k, dt), wish, MaxSpeed(difficulty), math, dt)
  }

  /** The jump block. */
  function Jump(k: Kin): Kin
  {
    if JumpReady(k) then Launch(k) else k
  }

  /** The player state just before collision resolution, and whether a dash and a jump fired. */
  datatype Frame = Frame(k: Kin, dashed: bool, jumped: bool)

  /** Everything `_stepPlayer` does before it clears the ground state and resolves collisions. */
  function Prepare(k: Kin, prevDashHeld: bool, dt: real, input: Axes, basis: Basis, math: MathLib,
                   difficulty: int, moving: seq<MovingPlatform>): (f: Frame)
    ensures f.jumped ==> !f.k.grounded && f.k.groundPlatform.None? && f.k.coyote == 0.0 && f.k.jumpBuffer == 0.0
    ensures f.dashed ==> !f.k.dashAvailable
  {
    var k2 := Face(TickTimers(Carry(k, moving), dt, input.jumpHeld), input, basis, math);
    var pressed := input.dashHeld && !prevDashHeld;
    var wish := Wish(input, basis, math);
    var k5 := Move(DashStep(k2, pressed, wish, basis.away, difficulty, dt), wish, difficulty, math, dt);
    Frame(Integrate(Jump(k5), dt), DashFires(k2, pressed), JumpReady(k5))
  }

  /** The resolver's view of the player. */
  function BodyOf(k: Kin): Body
  {
    Body(k.pos, k.vel, k.grounded, k.groundPlatform)
  }

  /** `k` with the resolver's fields taken from `b`. */
  function WithBody(k: Kin, b: Body): Kin
  {
    k.(pos := b.pos, vel := b.vel, grounded := b.grounded, groundPlatform := b.ground)
  }

  /** Clear the ground state, resolve against `cs`, and restore the dash on ground contact. */
  function Settle(k: Kin, half: Vec3, cs: seq<Collider>): (r: Kin)
    ensures r.dashAvailable == (k.dashAvailable || r.grounded)
    ensures r.coyote == k.coyote && r.jumpBuffer == k.jumpBuffer
    ensures r.dashing == k.dashing && r.dashTime == k.dashTime && r.facing == k.facing
  {
    var k1 := WithBody(k, ResolveAll(Body(k.pos, k.vel, false, None), half, cs));
    if k1.grounded then k1.(dashAvailable := true) else k1
  }

  // ---- properties of one frame ----

  /**
   * A jump fires exactly when the buffer is still open (jump held now, or
   * pressed less than its remaining buffer ago) and the player is grounded or
   * within coyote time; a fired jump launches at 9.2 and closes both windows.
   */
  lemma JumpRule(k: Kin, prevDashHeld: bool, dt: real, input: Axes, basis: Basis, math: MathLib,
                 difficulty: int, moving: seq<MovingPlatform>)
    ensures var f := Prepare(k, prevDashHeld, dt, input, basis, math, difficulty, moving);
      && (f.jumped <==> (input.jumpHeld || k.jumpBuffer - dt > 0.0) && (k.grounded || k.coyote - dt > 0.0))
      && (f.jumped ==> f.k.vel.y == JumpSpeed && !f.k.grounded && f.k.groundPlatform == None
                       && f.k.coyote == 0.0 && f.k.jumpBuffer == 0.0)
      && (!f.jumped ==> f.k.grounded == k.grounded && f.k.groundPlatform == k.groundPlatform)
  {
  }

  /**
   * A dash fires exactly on a rising edge of the dash button while a dash is
   * available and none is running; it uses the dash up and starts the
   * 0.22 s timer, already advanced by this frame's `dt`. Without a dash,
   * availability does not change before the settle step.
   */
  lemma DashRule(k: Kin, prevDashHeld: bool, dt: real, input: Axes, basis: Basis, math: MathLib,
                 difficulty: int, moving: seq<MovingPlatform>)
    ensures var f := Prepare(k, prevDashHeld, dt, input, basis, math, difficulty, moving);
      && (f.dashed <==> input.dashHeld && !prevDashHeld && k.dashAvailable && !k.dashing)
      && (f.dashed ==> !f.k.dashAvailable && f.k.dashTime == DashDuration - dt
                       && (f.k.dashing <==> dt < DashDuration)
                       && (f.k.dashing && !f.jumped ==> f.k.vel.y == 0.0))
      && (!f.dashed ==> f.k.dashAvailable == k.dashAvailable)
  {
  }

  /** For a non-negative `dt` the grace timers never leave their windows. */
  lemma TimersStayInWindows(k: Kin, prevDashHeld: bool, dt: real, input: Axes, basis: Basis, math: MathLib,
                            difficulty: int, moving: seq<MovingPlatform>, half: Vec3, cs: seq<Collider>)
    requires TimersOk(k) && dt >= 0.0
    ensures TimersOk(Settle(Prepare(k, prevDashHeld, dt, input, basis, math, difficulty, moving).k, half, cs))
  {
    var k2 := Face(TickTimers(Carry(k, moving), dt, input.jumpHeld), input, basis, math);
    assert TimersOk(k2);
    var wish := Wish(input, basis, math);
    var k4 := DashStep(k2, input.dashHeld && !prevDashHeld, wish, basis.away, difficulty, dt);
    assert k4.jumpBuffer == k2.jumpBuffer && k4.coyote == k2.coyote;
    var k5 := Move(k4, wish, difficulty, math, dt);
    assert k5.jumpBuffer == k4.jumpBuffer && k5.coyote == k4.coyote;
    var p := Prepare(k, prevDashHeld, dt, input, basis, math, difficulty, moving).k;
    assert p == Integrate(Jump(k5), dt);
    assert TimersOk(p);
  }

  /** After the dash timer block, `dashing` holds exactly while time is left on the dash. */
  lemma DashClockKept(k: Kin, prevDashHeld: bool, dt: real, input: Axes, basis: Basis, math: MathLib,
                      difficulty: int, moving: seq<MovingPlatform>, half: Vec3, cs: seq<Collider>)
    requires DashClockOk(k)
    ensures DashClockOk(Settle(Prepare(k, prevDashHeld, dt, input, basis, math, difficulty, moving).k, half, cs))
  {
    var k2 := Face(TickTimers(Carry(k, moving), dt, input.jumpHeld), input, basis, math);
    assert k2.dashing == k.dashing && k2.dashTime == k.dashTime;
    var wish := Wish(input, basis, math);
    var k4 := DashStep(k2, input.dashHeld && !prevDashHeld, wish, basis.away, difficulty, dt);
    assert DashClockOk(k4);
    var k5 := Move(k4, wish, difficulty, math, dt);
    assert k5.dashing == k4.dashing && k5.dashTime == k4.dashTime;
    var p := Prepare(k, prevDashHeld, dt, input, basis, math, difficulty, moving).k;
    assert p == Integrate(Jump(k5), dt);
    assert DashClockOk(p);
  }

  /**
   * The settle step: grounded exactly when some collider landed the player
   * during the pass, a support bound only to a moving platform that exists,
   * and the dash restored only by ground contact.
   */
  lemma SettleRule(k: Kin, half: Vec3, statics: seq<Box>, movers: seq<Box>)
    ensures var cs := Colliders(statics, movers); var s := Settle(k, half, cs);
      && (s.grounded <==> exists i: nat :: i < |cs| && LandsAt(Body(k.pos, k.vel, false, None), half, cs, i))
      && SupportOk(s)
      && (s.groundPlatform.Some? ==> s.groundPlatform.value < |movers|)
      && (s.dashAvailable == (k.dashAvailable || s.grounded))
  {
    var cs := Colliders(statics, movers);
    var b := Body(k.pos, k.vel, false, None);
    GroundedIffLanded(b, half, cs);
    SupportIndexInRange(b, half, statics, movers);
  }

  /** One frame keeps every per-player invariant, for a non-negative `dt`. */
  lemma StepKeepsInvariant(k: Kin, prevDashHeld: bool, dt: real, input: Axes, basis: Basis, math: MathLib,
                           difficulty: int, moving: seq<MovingPlatform>, half: Vec3, statics: seq<Box>, movers: seq<Box>)
    requires TimersOk(k) && DashClockOk(k) && dt >= 0.0
    ensures var s := Settle(Prepare(k, prevDashHeld, dt, input, basis, math, difficulty, moving).k, half, Colliders(statics, movers));
      TimersOk(s) && DashClockOk(s) && SupportOk(s)
  {
    var cs := Colliders(statics, movers);
    var f := Prepare(k, prevDashHeld, dt, input, basis, math, difficulty, moving);
    TimersStayInWindows(k, prevDashHeld, dt, input, basis, math, difficulty, moving, half, cs);
    DashClockKept(k, prevDashHeld, dt, input, basis, math, difficulty, moving, half, cs);
    SettleRule(f.k, half, statics, movers);
  }

  /**
   * Single use: a frame in which the dash fires ends with no dash available
   * unless the settle step finds the player on the ground.
   */
  lemma DashSingleUse(k: Kin, prevDashHeld: bool, dt: real, input: Axes, basis: Basis, math: MathLib,
                      difficulty: int, moving: seq<MovingPlatform>, half: Vec3, cs: seq<Collider>)
    requires Prepare(k, prevDashHeld, dt, input, basis, math, difficulty, moving).dashed
    ensures var s := Settle(Prepare(k, prevDashHeld, dt, input, basis, math, difficulty, moving).k, half, cs);
      s.dashAvailable <==> s.grounded
  {
    DashRule(k, prevDashHeld, dt, input, basis, math, difficulty, moving);
  }

  /**
   * The landing scenario: a slab centred at the origin with half extent
   * (5, 0.5, 5) and a player whose feet have sunk less than 0.1 into its top
   * ends standing exactly on it, at rest vertically and grounded.
   */
  lemma LandingOnSlab(y: real, vel: Vec3, k: Kin)
    requires 1.3 <= y < 1.4
    ensures var slab := Box(Zero, Vec3(5.0, 0.5, 5.0));
      var s := Settle(k.(pos := Vec3(0.0, y, 0.0), vel := vel), PlayerHalf, Colliders([slab], []));
      s.pos == Vec3(0.0, 1.4, 0.0) && s.pos.y - PlayerHalf.y == 0.5 && s.vel.y == 0.0 && s.grounded && s.dashAvailable
  {
    var slab := Box(Zero, Vec3(5.0, 0.5, 5.0));
    var cs := Colliders([slab], []);
    var b := Body(Vec3(0.0, y, 0.0), vel, false, None);
    var o := OverlapOf(b, PlayerHalf, cs[0]);
    assert o.ox == 0.9 && o.oz == 0.9 && o.oy == 1.4 - y;
    assert PushAxis(o) == Y;
    Landing(b, PlayerHalf, cs[0]);
    assert cs[..0] == [];
    var r := ResolveOne(b, PlayerHalf, cs[0]);
    assert ResolveAll(b, PlayerHalf, cs) == r;
    assert Get(r.pos, X) == 0.0 && Get(r.pos, Z) == 0.0;
  }
}
