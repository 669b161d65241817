/**
 * The `Game` class of src/game.js and the player object it owns, as classes
 * whose methods update fields in place. The world (platforms, moving
 * platforms, collectibles, drones, goal) is held in sequence fields that the
 * methods reassign. The asynchronous completion of a world rebuild is the
 * explicit event `CompleteRebuild`.
 */
module Engine {
  import opened Wrappers
  import opened Geometry
  import opened Collision
  import opened Oscillators
  import opened Triggers
  import opened Movement
  import opened Progression

  /** The frame time is clamped to at most 1/30 s. */
  const MaxFrame: real := 1.0 / 30.0

  /** A static platform entry of a level. */
  datatype PlatformDef = PlatformDef(pos: Vec3, size: Vec3)

  /** One entry of the level table: what `_rebuildWorld` builds a world from. */
  datatype LevelDef = LevelDef(platforms: seq<PlatformDef>, movingPlatforms: seq<MovingDef>,
                               collectibles: seq<Vec3>, enemies: seq<EnemyDef>, spawn: Vec3, goal: Goal)

  /** A static platform: its collision box and its size. */
  datatype StaticPlatform = StaticPlatform(aabb: Box, size: Vec3)

  function StaticFrom(def: PlatformDef): StaticPlatform
  {
    StaticPlatform(Box(def.pos, Scale(def.size, 0.5)), def.size)
  }

  /** The collision boxes of the static platforms, in order. */
  function PlatformBoxes(ps: seq<StaticPlatform>): seq<Box>
  {
    seq(|ps|, i requires 0 <= i < |ps| => ps[i].aabb)
  }

  /** The collision boxes of the moving platforms, in order. */
  function MoverBoxes(ms: seq<MovingPlatform>): seq<Box>
  {
    seq(|ms|, i requires 0 <= i < |ms| => ms[i].Aabb())
  }

  class Player {
    var pos: Vec3
    var vel: Vec3
    const half: Vec3
    var grounded: bool
    /** Index of the supporting moving platform, in place of a reference to it. */
    var groundPlatform: Option<nat>
    var coyote: real
    var dashAvailable: bool
    var dashing: bool
    var dashTime: real
    var jumpBuffer: real
    var spawn: Vec3
    var facing: Vec3

    constructor ()
      ensures State() == Kin(Zero, Zero, false, None, 0.0, true, false, 0.0, 0.0, Vec3(0.0, 0.0, 1.0))
      ensures half == PlayerHalf && spawn == Zero
    {
      pos, vel, half := Zero, Zero, PlayerHalf;
      grounded, groundPlatform := false, None;
      coyote := 0.0;
      dashAvailable, dashing, dashTime := true, false, 0.0;
      jumpBuffer := 0.0;
      spawn := Zero;
      facing := Vec3(0.0, 0.0, 1.0);
    }

    function State(): Kin
      reads this
    {
      Kin(pos, vel, grounded, groundPlatform, coyote, dashAvailable, dashing, dashTime, jumpBuffer, facing)
    }
  }

  class Game {
    const player: Player
    const math: MathLib
    var difficulty: int

    var levelIndex: int
    var advancing: bool
    var pendingAdvance: bool
    var pendingIndex: int

    var keys: map<string, bool>
    var btn: Buttons
    var prevDashHeld: bool

    var platforms: seq<StaticPlatform>
    var movingPlatforms: seq<MovingPlatform>
    var collectibles: seq<Collectible>
    var enemies: seq<Enemy>
    var goal: Option<Goal>

    /** The invariant every frame keeps. */
    ghost predicate Valid()
      reads this, player
    {
      PlayerOk() && LevelOk() && WorldOk()
    }

    /** The player's timers, dash clock and support agree with each other. */
    ghost predicate PlayerOk()
      reads player
    {
      && player.half == PlayerHalf
      && TimersOk(player.State()) && DashClockOk(player.State()) && SupportOk(player.State())
    }

    /** The level index and a queued advance name real levels, and a queued advance waits for no rebuild. */
    ghost predicate LevelOk()
      reads this`levelIndex, this`pendingAdvance, this`advancing, this`pendingIndex
    {
      && 0 <= levelIndex < LevelCount
      && (pendingAdvance ==> !advancing && 0 <= pendingIndex < LevelCount)
    }

    /** Every moving platform and every drone sits on its track. */
    ghost predicate WorldOk()
      reads this`movingPlatforms, this`enemies
    {
      && math.sin(0.0) == 0.0
      && (forall i :: 0 <= i < |movingPlatforms| ==> OnTrack(movingPlatforms[i], math.sin))
      && (forall i :: 0 <= i < |enemies| ==> EnemyOnTrack(enemies[i], math.sin))
    }

    /** The colliders in the order the resolver visits them. */
    function WorldColliders(): seq<Collider>
      reads this`platforms, this`movingPlatforms
    {
      Colliders(PlatformBoxes(platforms), MoverBoxes(movingPlatforms))
    }

    /** A game before any level is built; `math.sin` stands for `Math.sin`, which vanishes at 0. */
    constructor (math: MathLib)
      requires math.sin(0.0) == 0.0
      ensures Valid() && fresh(player)
      ensures this.math == math && difficulty == 2
      ensures levelIndex == 0 && !advancing && !pendingAdvance
      ensures platforms == [] && movingPlatforms == [] && collectibles == [] && enemies == [] && goal == None
    {
      player := new Player();
      this.math := math;
      difficulty := 2;
      levelIndex, advancing, pendingAdvance, pendingIndex := 0, false, false, 0;
      keys := map[];
      btn := Buttons(false, false, false, false, false, false);
      prevDashHeld := false;
      platforms, movingPlatforms, collectibles, enemies, goal := [], [], [], [], None;
    }

    /** `_respawn`: back to the spawn point with a fresh dash, and every collectible put back. */
    method Respawn()
      modifies player, this`collectibles
      ensures player.State() == Respawned(player.spawn)
      ensures player.spawn == old(player.spawn)
      ensures collectibles == ClearTaken(old(collectibles))
    {
      player.pos := player.spawn;
      player.vel := Zero;
      player.grounded := false;
      player.groundPlatform := None;
      player.coyote := 0.0;
      player.dashAvailable := true;
      player.dashing := false;
      player.dashTime := 0.0;
      player.jumpBuffer := 0.0;
      player.facing := Vec3(0.0, 0.0, 1.0);
      var i := 0;
      while i < |collectibles|
        invariant 0 <= i <= |collectibles| == |old(collectibles)|
        invariant forall j :: 0 <= j < i ==> collectibles[j] == Collectible(old(collectibles)[j].pos, false)
        invariant forall j :: i <= j < |collectibles| ==> collectibles[j] == old(collectibles)[j]
        invariant player.State() == Respawned(player.spawn) && player.spawn == old(player.spawn)
      {
        collectibles := collectibles[i := collectibles[i].(taken := false)];
        i := i + 1;
      }
    }

    /** One iteration of the resolver loop: push the player out of collider `c`. */
    method ResolveAgainst(c: Collider)
      modifies player
      ensures BodyOf(player.State()) == ResolveOne(BodyOf(old(player.State())), player.half, c)
      ensures player.State() == WithBody(old(player.State()), BodyOf(player.State()))
      ensures player.spawn == old(player.spawn)
    {
      var pBox := Box(player.pos, player.half);
      var o := AabbOverlap(pBox.Min(), pBox.Max(), c.box.Min(), c.box.Max());
      if !o.hit {
        return;
      }
      ResolveOneBranches(BodyOf(player.State()), player.half, c);
      if o.ox <= o.oy && o.ox <= o.oz {
        var dir := if player.pos.x < c.box.c.x then -1.0 else 1.0;
        player.pos := player.pos.(x := player.pos.x + dir * o.ox);
        player.vel := player.vel.(x := 0.0);
      } else if o.oz <= o.ox && o.oz <= o.oy {
        var dir := if player.pos.z < c.box.c.z then -1.0 else 1.0;
        player.pos := player.pos.(z := player.pos.z + dir * o.oz);
        player.vel := player.vel.(z := 0.0);
      } else {
        var dir := if player.pos.y < c.box.c.y then -1.0 else 1.0;
        player.pos := player.pos.(y := player.pos.y + dir * o.oy);
        if dir > 0.0 {
          player.grounded := true;
          if c.moving.Some? {
            player.groundPlatform := c.moving;
          }
        }
        player.vel := player.vel.(y := 0.0);
      }
    }

    /** `_resolvePlayerCollisions`: one pass over static, then moving, platforms. */
    method ResolvePlayerCollisions()
      modifies player
      ensures player.State() == WithBody(old(player.State()), ResolveAll(BodyOf(old(player.State())), player.half, WorldColliders()))
      ensures player.spawn == old(player.spawn)
    {
      var colliders := WorldColliders();
      ghost var k0 := player.State();
      var i := 0;
      while i < |colliders|
        invariant 0 <= i <= |colliders|
        invariant BodyOf(player.State()) == ResolveAll(BodyOf(k0), player.half, colliders[..i])
        invariant player.State() == WithBody(k0, BodyOf(player.State()))
        invariant player.spawn == old(player.spawn)
      {
        ResolveAgainst(colliders[i]);
        ResolveAllStep(BodyOf(k0), player.half, colliders, i);
        i := i + 1;
      }
      assert colliders[..i] == colliders;
    }

    /** Carry: a grounded player rides along with the delta of the moving platform it stands on. */
    method CarryPlayer()
      modifies player
      ensures player.State() == Carry(old(player.State()), movingPlatforms)
      ensures player.spawn == old(player.spawn)
    {
      var p := player;
      if p.grounded && p.groundPlatform.Some? && p.groundPlatform.value < |movingPlatforms| {
        p.pos := Add(p.pos, movingPlatforms[p.groundPlatform.value].delta);
      }
    }

    /** The jump buffer refills while jump is held, the coyote timer while grounded; otherwise both run down to 0. */
    method TickGraceTimers(dt: real, jumpHeld: bool)
      modifies player
      ensures player.State() == TickTimers(old(player.State()), dt, jumpHeld)
      ensures player.spawn == old(player.spawn)
    {
      var p := player;
      if jumpHeld {
        p.jumpBuffer := JumpBufferWindow;
      } else {
        p.jumpBuffer := MaxReal(0.0, p.jumpBuffer - dt);
      }
      if p.grounded {
        p.coyote := CoyoteWindow;
      } else {
        p.coyote := MaxReal(0.0, p.coyote - dt);
      }
    }

    /** The dash block: fire on a fresh press when available, then run the dash clock down. */
    method DashPhase(pressed: bool, wish: Vec3, away: Vec3, dt: real)
      modifies player
      ensures player.State() == DashStep(old(player.State()), pressed, wish, away, difficulty, dt)
      ensures player.spawn == old(player.spawn)
    {
      var p := player;
      if pressed && p.dashAvailable && !p.dashing {
        var dir := if LengthSq(wish) > 0.0 then wish else away;
        p.dashing := true;
        p.dashTime := DashDuration;
        p.dashAvailable := false;
        p.vel := Scale(dir, DashSpeed(difficulty));
        p.vel := p.vel.(y := 0.0);
      }
      if p.dashing {
        p.dashTime := p.dashTime - dt;
        if p.dashTime <= 0.0 {
          p.dashing := false;
        }
      }
    }

    /** Gravity and the horizontal steering, both skipped while dashing. */
    method MovePhase(wish: Vec3, dt: real)
      modifies player
      ensures player.State() == Move(old(player.State()), wish, difficulty, math, dt)
      ensures player.spawn == old(player.spawn)
    {
      var p := player;
      if !p.dashing {
        p.vel := p.vel.(y := p.vel.y + Gravity * dt);
      }
      if !p.dashing {
        var accel := if p.grounded then GroundAccel else AirAccel;
        var a := accel * (if p.grounded then 1.0 else AirControl);
        var cur := Lerp(Vec3(p.vel.x, 0.0, p.vel.z), Scale(wish, MaxSpeed(difficulty)), 1.0 - math.exp(-a * dt));
        if LengthSq(wish) == 0.0 && p.grounded {
          cur := Scale(cur, math.pow(FrictionBase, dt));
        }
        p.vel := p.vel.(x := cur.x, z := cur.z);
      }
    }

    /** The jump: with the buffer open and ground or coyote time, launch and close both windows. */
    method JumpPhase()
      modifies player
      ensures player.State() == Jump(old(player.State()))
      ensures player.spawn == old(player.spawn)
    {
      var p := player;
      if p.jumpBuffer > 0.0 && (p.grounded || p.coyote > 0.0) {
        p.vel := p.vel.(y := JumpSpeed);
        p.grounded := false;
        p.groundPlatform := None;
        p.coyote := 0.0;
        p.jumpBuffer := 0.0;
      }
    }

    /** Integration: the position advances by the velocity over `dt`. */
    method IntegratePhase(dt: real)
      modifies player
      ensures player.State() == Integrate(old(player.State()), dt)
      ensures player.spawn == old(player.spawn)
    {
      player.pos := Add(player.pos, Scale(player.vel, dt));
    }

    /**
     * `_stepPlayer` up to the point where it clears the ground state: carry,
     * grace timers, dash edge, facing, dash, gravity, steering, jump and
     * integration, as `Prepare` specifies them.
     */
    method PreparePlayer(dt: real, basis: Basis)
      modifies player, this`prevDashHeld
      ensures prevDashHeld == InputAxes(keys, btn).dashHeld
      ensures player.State() == Prepare(old(player.State()), old(prevDashHeld), dt, InputAxes(keys, btn), basis,
                                        math, difficulty, movingPlatforms).k
      ensures player.spawn == old(player.spawn)
    {
      ghost var k := player.State();
      CarryPlayer();
      var input := InputAxes(keys, btn);
      TickGraceTimers(dt, input.jumpHeld);
      var dashPressed := input.dashHeld && !prevDashHeld;
      prevDashHeld := input.dashHeld;
      ghost var k1 := TickTimers(Carry(k, movingPlatforms), dt, input.jumpHeld);
      assert player.State() == k1;

      var wish := RawWish(input, basis);
      if LengthSq(wish) > 0.0 {
        wish := math.normalize(wish);
        player.facing := wish;
      }
      ghost var k2 := Face(k1, input, basis, math);
      assert player.State() == k2 && wish == Wish(input, basis, math);
      DashPhase(dashPressed, wish, basis.away, dt);
      MovePhase(wish, dt);
      JumpPhase();
      IntegratePhase(dt);
    }

    /**
     * The movement half of `_stepPlayer`: the phases of `PreparePlayer`, then
     * `SettlePlayer`.
     */
    method MovePlayer(dt: real, basis: Basis)
      requires PlayerOk() && dt >= 0.0
      modifies player, this`prevDashHeld
      ensures PlayerOk()
      ensures prevDashHeld == InputAxes(keys, btn).dashHeld
      ensures player.spawn == old(player.spawn)
      ensures player.State() == Settle(Prepare(old(player.State()), old(prevDashHeld), dt, InputAxes(keys, btn), basis,
                                               math, difficulty, movingPlatforms).k, player.half, WorldColliders())
    {
      ghost var k0 := player.State();
      PreparePlayer(dt, basis);
      SettlePlayer();
      StepKeepsInvariant(k0, old(prevDashHeld), dt, InputAxes(keys, btn), basis, math, difficulty, movingPlatforms,
                         player.half, PlatformBoxes(platforms), MoverBoxes(movingPlatforms));
    }

    /**
     * The ground state is cleared and rebuilt by the resolver, and ground
     * contact restores the dash.
     */
    method SettlePlayer()
      modifies player
      ensures player.spawn == old(player.spawn)
      ensures player.State() == Settle(old(player.State()), player.half, WorldColliders())
    {
      ghost var k := player.State();
      player.grounded := false;
      player.groundPlatform := None;
      ghost var cleared := player.State();
      assert BodyOf(cleared) == Body(k.pos, k.vel, false, None);
      ResolvePlayerCollisions();
      ghost var b := ResolveAll(Body(k.pos, k.vel, false, None), player.half, WorldColliders());
      assert player.State() == WithBody(k, b);
      if player.grounded {
        player.dashAvailable := true;
      }
    }

    /** The drone test of `_stepPlayer`: does the player's box overlap some drone's box? */
    method TouchesDrone() returns (hit: bool)
      ensures hit <==> HitsHazard(Box(player.pos, player.half), enemies)
    {
      var box := Box(player.pos, player.half);
      var i := 0;
      while i < |enemies|
        invariant 0 <= i <= |enemies|
        invariant forall j :: 0 <= j < i ==> !BoxOverlap(box, enemies[j].Aabb()).hit
      {
        if BoxOverlap(box, enemies[i].Aabb()).hit {
          return true;
        }
        i := i + 1;
      }
      return false;
    }

    /** The pickup loop of `_stepPlayer`: every untaken collectible within reach is taken. */
    method CollectPickups()
      modifies this`collectibles
      ensures collectibles == Pickup(old(collectibles), player.pos)
    {
      var i := 0;
      while i < |collectibles|
        invariant 0 <= i <= |collectibles| == |old(collectibles)|
        invariant forall j :: 0 <= j < i ==> collectibles[j] == Pickup(old(collectibles), player.pos)[j]
        invariant forall j :: i <= j < |collectibles| ==> collectibles[j] == old(collectibles)[j]
      {
        var c := collectibles[i];
        if !c.taken && Within(c.pos, player.pos, PickupRadius) {
          collectibles := collectibles[i := c.(taken := true)];
        }
        i := i + 1;
      }
    }

    /**
     * `_stepPlayer`: one frame of player physics. After movement and
     * collision resolution, a fall below the death plane or a touch of a
     * drone respawns the player and ends the frame; otherwise every untaken
     * collectible within the pickup radius is taken.
     */
    method StepPlayer(dt: real, basis: Basis) returns (ghost s: Kin)
      requires PlayerOk() && dt >= 0.0
      modifies player, this`prevDashHeld, this`collectibles
      ensures PlayerOk()
      ensures prevDashHeld == InputAxes(keys, btn).dashHeld
      ensures player.spawn == old(player.spawn)
      ensures s == Settle(Prepare(old(player.State()), old(prevDashHeld), dt, InputAxes(keys, btn), basis,
                                  math, difficulty, movingPlatforms).k, player.half, WorldColliders())
      ensures if s.pos.y < DeathPlane || HitsHazard(Box(s.pos, player.half), enemies)
        then player.State() == Respawned(player.spawn) && collectibles == ClearTaken(old(collectibles))
        else player.State() == s && collectibles == Pickup(old(collectibles), s.pos)
    {
      MovePlayer(dt, basis);
      s := player.State();
      HazardsAndPickups();
    }

    /**
     * The tail of `_stepPlayer`: below the death plane, or touching a drone,
     * the player respawns; otherwise the pickups within reach are taken.
     */
    method HazardsAndPickups()
      requires PlayerOk()
      modifies player, this`collectibles
      ensures PlayerOk()
      ensures player.spawn == old(player.spawn)
      ensures var k := old(player.State());
        if k.pos.y < DeathPlane || HitsHazard(Box(k.pos, player.half), enemies)
        then player.State() == Respawned(player.spawn) && collectibles == ClearTaken(old(collectibles))
        else player.State() == k && collectibles == Pickup(old(collectibles), k.pos)
    {
      if player.pos.y < DeathPlane {
        Respawn();
        return;
      }
      var hit := TouchesDrone();
      if hit {
        Respawn();
        return;
      }
      CollectPickups();
    }

    /** `_updateMovingPlatforms`: advance every platform's oscillator by one frame. */
    method UpdateMovingPlatforms(dt: real)
      requires Valid()
      modifies this`movingPlatforms
      ensures Valid()
      ensures |movingPlatforms| == |old(movingPlatforms)|
      ensures forall i :: 0 <= i < |movingPlatforms| ==> movingPlatforms[i] == AdvancePlatform(old(movingPlatforms)[i], dt, math.sin)
    {
      var i := 0;
      while i < |movingPlatforms|
        invariant 0 <= i <= |movingPlatforms| == |old(movingPlatforms)|
        invariant forall j :: 0 <= j < i ==> movingPlatforms[j] == AdvancePlatform(old(movingPlatforms)[j], dt, math.sin)
        invariant forall j :: i <= j < |movingPlatforms| ==> movingPlatforms[j] == old(movingPlatforms)[j]
      {
        var mp := StepPlatform(movingPlatforms[i], dt, math.sin);
        movingPlatforms := movingPlatforms[i := mp];
        i := i + 1;
      }
    }

    /** `_updateEnemies`: advance every drone, at the difficulty's speed factor. */
    method UpdateEnemies(dt: real)
      requires Valid()
      modifies this`enemies
      ensures Valid()
      ensures |enemies| == |old(enemies)|
      ensures forall i :: 0 <= i < |enemies| ==> enemies[i] == AdvanceEnemy(old(enemies)[i], dt, difficulty, math.sin)
    {
      var i := 0;
      while i < |enemies|
        invariant 0 <= i <= |enemies| == |old(enemies)|
        invariant forall j :: 0 <= j < i ==> enemies[j] == AdvanceEnemy(old(enemies)[j], dt, difficulty, math.sin)
        invariant forall j :: i <= j < |enemies| ==> enemies[j] == old(enemies)[j]
      {
        var e := StepEnemy(enemies[i], dt, difficulty, math.sin);
        enemies := enemies[i := e];
        i := i + 1;
      }
    }

    /**
     * `_updateGoal`: standing in the goal enqueues the next level, but only
     * when no request is pending and no rebuild is in flight.
     */
    method UpdateGoal()
      requires Valid()
      modifies this`pendingAdvance, this`pendingIndex
      ensures Valid()
      ensures if goal.Some? && AtGoal(player.pos, goal.value) && !old(pendingAdvance) && !advancing
              then pendingAdvance && pendingIndex == NextIndex(levelIndex)
              else pendingAdvance == old(pendingAdvance) && pendingIndex == old(pendingIndex)
    {
      if goal.None? {
        return;
      }
      if AtGoal(player.pos, goal.value) {
        if !pendingAdvance && !advancing {
          var next := JsRem(levelIndex + 1, LevelCount);
          pendingAdvance := true;
          pendingIndex := next;
        }
      }
    }

    /**
     * `goToLevel(index)` up to its first suspension: store the wrapped index
     * and clear the world (`_clearWorld`). The rest of the rebuild is
     * `CompleteRebuild`.
     */
    method GoToLevel(index: int)
      modifies this`levelIndex, this`platforms, this`movingPlatforms, this`collectibles, this`enemies, this`goal
      ensures levelIndex == NormalizeIndex(index)
      ensures platforms == [] && movingPlatforms == [] && collectibles == [] && enemies == [] && goal == None
    {
      var i := JsRem(JsRem(index, LevelCount) + LevelCount, LevelCount);
      levelIndex := i;
      platforms, movingPlatforms, collectibles, enemies, goal := [], [], [], [], None;
    }

    /** `nextLevel`: go to the following level, wrapping from the last to the first. */
    method NextLevel()
      requires 0 <= levelIndex < LevelCount
      modifies this`levelIndex, this`platforms, this`movingPlatforms, this`collectibles, this`enemies, this`goal
      ensures levelIndex == NextIndex(old(levelIndex))
      ensures platforms == [] && movingPlatforms == [] && collectibles == [] && enemies == [] && goal == None
    {
      var next := JsRem(levelIndex + 1, LevelCount);
      GoToLevel(next);
    }

    /**
     * `setMode`: the display mode changes and the current level is rebuilt.
     * Its synchronous start keeps the level index and clears the world; the
     * completion is `CompleteRebuild(_, false)`.
     */
    method SetMode()
      requires 0 <= levelIndex < LevelCount
      modifies this`levelIndex, this`platforms, this`movingPlatforms, this`collectibles, this`enemies, this`goal
      ensures levelIndex == old(levelIndex)
      ensures platforms == [] && movingPlatforms == [] && collectibles == [] && enemies == [] && goal == None
    {
      NormalizeInRange(levelIndex);
      GoToLevel(levelIndex);
    }

    /** `setDifficulty`: the tier that selects the run and dash speeds and the drones' speed factor. */
    method SetDifficulty(d: int)
      requires Valid()
      modifies this`difficulty
      ensures Valid()
      ensures difficulty == d
    {
      difficulty := d;
    }

    /** `reset`: the player respawns in the current level, and every collectible is put back. */
    method Reset()
      requires Valid()
      modifies player, this`collectibles
      ensures Valid()
      ensures player.State() == Respawned(player.spawn) && player.spawn == old(player.spawn)
      ensures collectibles == ClearTaken(old(collectibles))
    {
      Respawn();
    }

    /** The static-platform loop of `_rebuildWorld`: one box per level entry, appended. */
    method BuildPlatforms(defs: seq<PlatformDef>)
      modifies this`platforms
      ensures platforms == old(platforms) + seq(|defs|, i requires 0 <= i < |defs| => StaticFrom(defs[i]))
    {
      var i := 0;
      while i < |defs|
        invariant 0 <= i <= |defs|
        invariant platforms == old(platforms) + seq(i, j requires 0 <= j < i => StaticFrom(defs[j]))
      {
        platforms := platforms + [StaticFrom(defs[i])];
        i := i + 1;
      }
    }

    /** The moving-platform loop of `_rebuildWorld`: each platform starts at its base, phase 0, at rest. */
    method BuildMovingPlatforms(defs: seq<MovingDef>)
      requires math.sin(0.0) == 0.0
      requires forall j :: 0 <= j < |movingPlatforms| ==> OnTrack(movingPlatforms[j], math.sin)
      modifies this`movingPlatforms
      ensures movingPlatforms == old(movingPlatforms) + seq(|defs|, i requires 0 <= i < |defs| => SpawnPlatform(defs[i]))
      ensures forall j :: 0 <= j < |movingPlatforms| ==> OnTrack(movingPlatforms[j], math.sin)
    {
      var i := 0;
      while i < |defs|
        invariant 0 <= i <= |defs|
        invariant movingPlatforms == old(movingPlatforms) + seq(i, j requires 0 <= j < i => SpawnPlatform(defs[j]))
        invariant forall j :: 0 <= j < |movingPlatforms| ==> OnTrack(movingPlatforms[j], math.sin)
      {
        SpawnOnTrack(defs[i], math.sin);
        movingPlatforms := movingPlatforms + [SpawnPlatform(defs[i])];
        i := i + 1;
      }
    }

    /** The collectible loop of `_rebuildWorld`: every pickup starts untaken. */
    method BuildCollectibles(defs: seq<Vec3>)
      modifies this`collectibles
      ensures collectibles == old(collectibles) + seq(|defs|, i requires 0 <= i < |defs| => Collectible(defs[i], false))
    {
      var i := 0;
      while i < |defs|
        invariant 0 <= i <= |defs|
        invariant collectibles == old(collectibles) + seq(i, j requires 0 <= j < i => Collectible(defs[j], false))
      {
        collectibles := collectibles + [Collectible(defs[i], false)];
        i := i + 1;
      }
    }

    /** The drone loop of `_rebuildWorld`: each drone starts at its patrol centre, phase 0. */
    method BuildEnemies(defs: seq<EnemyDef>)
      requires math.sin(0.0) == 0.0
      requires forall j :: 0 <= j < |enemies| ==> EnemyOnTrack(enemies[j], math.sin)
      modifies this`enemies
      ensures enemies == old(enemies) + seq(|defs|, i requires 0 <= i < |defs| => SpawnEnemy(defs[i]))
      ensures forall j :: 0 <= j < |enemies| ==> EnemyOnTrack(enemies[j], math.sin)
    {
      var i := 0;
      while i < |defs|
        invariant 0 <= i <= |defs|
        invariant enemies == old(enemies) + seq(i, j requires 0 <= j < i => SpawnEnemy(defs[j]))
        invariant forall j :: 0 <= j < |enemies| ==> EnemyOnTrack(enemies[j], math.sin)
      {
        SpawnEnemyOnTrack(defs[i], math.sin);
        enemies := enemies + [SpawnEnemy(defs[i])];
        i := i + 1;
      }
    }

    /**
     * The completion of a rebuild for `level` (the level table's entry at
     * `levelIndex`): the world is built, the player respawns at the level's
     * spawn, and, when the rebuild was started by `update`, its `finally`
     * clears the in-flight flag.
     */
    method CompleteRebuild(level: LevelDef, fromAdvance: bool)
      requires Valid()
      modifies this`platforms, this`movingPlatforms, this`collectibles, this`enemies, this`goal, this`advancing, player
      ensures Valid()
      ensures platforms == old(platforms) + seq(|level.platforms|, i requires 0 <= i < |level.platforms| => StaticFrom(level.platforms[i]))
      ensures movingPlatforms == old(movingPlatforms) + seq(|level.movingPlatforms|, i requires 0 <= i < |level.movingPlatforms| => SpawnPlatform(level.movingPlatforms[i]))
      ensures enemies == old(enemies) + seq(|level.enemies|, i requires 0 <= i < |level.enemies| => SpawnEnemy(level.enemies[i]))
      ensures collectibles == ClearTaken(old(collectibles) + seq(|level.collectibles|, i requires 0 <= i < |level.collectibles| => Collectible(level.collectibles[i], false)))
      ensures goal == Some(level.goal)
      ensures player.spawn == level.spawn && player.State() == Respawned(level.spawn)
      ensures advancing == (old(advancing) && !fromAdvance)
    {
      BuildPlatforms(level.platforms);
      BuildMovingPlatforms(level.movingPlatforms);
      BuildCollectibles(level.collectibles);
      BuildEnemies(level.enemies);
      goal := Some(level.goal);
      player.spawn := level.spawn;
      Respawn();
      if fromAdvance {
        advancing := false;
      }
    }

    /**
     * `update`: one frame. The clock's delta, clamped to 1/30 s, drives the
     * platforms, the drones, the goal test and the player; then a queued
     * level advance is consumed when no rebuild is in flight: the rebuild of
     * the target level starts (`GoToLevel`, whose completion is the later
     * event `CompleteRebuild(_, true)`), and its index is returned.
     */
    method Update(elapsed: real, basis: Basis) returns (rebuild: Option<int>)
      requires Valid() && elapsed >= 0.0
      modifies player, this`prevDashHeld, this`collectibles, this`movingPlatforms, this`enemies,
               this`pendingAdvance, this`pendingIndex, this`advancing,
               this`levelIndex, this`platforms, this`goal
      ensures Valid()
      ensures !pendingAdvance
      ensures player.spawn == old(player.spawn)
      ensures rebuild.Some? <==> !old(advancing) && (old(pendingAdvance) || (old(goal).Some? && AtGoal(old(player.pos), old(goal).value)))
      ensures rebuild.Some? ==>
        && rebuild.value == (if old(pendingAdvance) then old(pendingIndex) else NextIndex(old(levelIndex)))
        && levelIndex == rebuild.value && advancing
        && platforms == [] && movingPlatforms == [] && collectibles == [] && enemies == [] && goal == None
      ensures rebuild.None? ==>
        && levelIndex == old(levelIndex) && advancing == old(advancing)
        && platforms == old(platforms) && goal == old(goal)
        && |movingPlatforms| == |old(movingPlatforms)| && |enemies| == |old(enemies)|
        && (forall i :: 0 <= i < |movingPlatforms| ==>
              movingPlatforms[i] == AdvancePlatform(old(movingPlatforms)[i], MinReal(elapsed, MaxFrame), math.sin))
        && (forall i :: 0 <= i < |enemies| ==>
              enemies[i] == AdvanceEnemy(old(enemies)[i], MinReal(elapsed, MaxFrame), difficulty, math.sin))
    {
      var dt := MinReal(elapsed, MaxFrame);
      AnimateWorld(dt);
      rebuild := FinishFrame(dt, basis);
    }

    /**
     * The rest of `update` once the world has moved: the player's turn, then
     * the queued level advance. Only the world's lists and the level
     * bookkeeping are stated here; `PlayerTurn` states the player's turn.
     */
    method FinishFrame(dt: real, basis: Basis) returns (rebuild: Option<int>)
      requires Valid() && dt >= 0.0
      modifies player, this`prevDashHeld, this`collectibles, this`movingPlatforms, this`enemies,
               this`pendingAdvance, this`pendingIndex, this`advancing,
               this`levelIndex, this`platforms, this`goal
      ensures Valid() && !pendingAdvance
      ensures player.spawn == old(player.spawn)
      ensures rebuild.Some? <==> old(pendingAdvance) && !old(advancing)
      ensures rebuild.Some? ==>
        && rebuild.value == old(pendingIndex) && levelIndex == rebuild.value && advancing
        && platforms == [] && movingPlatforms == [] && collectibles == [] && enemies == [] && goal == None
      ensures rebuild.None? ==>
        && levelIndex == old(levelIndex) && advancing == old(advancing)
        && platforms == old(platforms) && goal == old(goal)
        && movingPlatforms == old(movingPlatforms) && enemies == old(enemies)
    {
      ghost var s := PlayerTurn(dt, basis);
      rebuild := ConsumeAdvance();
    }

    /**
     * The player's turn within a frame, seen from `update`: `_stepPlayer`,
     * which also keeps the game's invariant.
     */
    method PlayerTurn(dt: real, basis: Basis) returns (ghost s: Kin)
      requires Valid() && dt >= 0.0
      modifies player, this`prevDashHeld, this`collectibles
      ensures Valid()
      ensures prevDashHeld == InputAxes(keys, btn).dashHeld
      ensures player.spawn == old(player.spawn)
      ensures s == Settle(Prepare(old(player.State()), old(prevDashHeld), dt, InputAxes(keys, btn), basis,
                                  math, difficulty, movingPlatforms).k, player.half, WorldColliders())
      ensures if s.pos.y < DeathPlane || HitsHazard(Box(s.pos, player.half), enemies)
        then player.State() == Respawned(player.spawn) && collectibles == ClearTaken(old(collectibles))
        else player.State() == s && collectibles == Pickup(old(collectibles), s.pos)
    {
      s := StepPlayer(dt, basis);
    }

    /**
     * The world-animation part of `update`: platforms, drones, then the goal
     * test, which sees the player where the previous frame left it.
     */
    method AnimateWorld(dt: real)
      requires Valid()
      modifies this`movingPlatforms, this`enemies, this`pendingAdvance, this`pendingIndex
      ensures Valid()
      ensures |movingPlatforms| == |old(movingPlatforms)| && |enemies| == |old(enemies)|
      ensures forall i :: 0 <= i < |movingPlatforms| ==> movingPlatforms[i] == AdvancePlatform(old(movingPlatforms)[i], dt, math.sin)
      ensures forall i :: 0 <= i < |enemies| ==> enemies[i] == AdvanceEnemy(old(enemies)[i], dt, difficulty, math.sin)
      ensures pendingAdvance && !advancing <==>
        !advancing && (old(pendingAdvance) || (goal.Some? && AtGoal(player.pos, goal.value)))
      ensures pendingAdvance && !advancing ==>
        pendingIndex == if old(pendingAdvance) then old(pendingIndex) else NextIndex(levelIndex)
    {
      UpdateMovingPlatforms(dt);
      UpdateEnemies(dt);
      UpdateGoal();
    }

    /**
     * The tail of `update`: a queued advance, when no rebuild is in flight,
     * marks a rebuild in flight, unqueues itself and starts the rebuild of
     * its target level.
     */
    method ConsumeAdvance() returns (rebuild: Option<int>)
      requires LevelOk()
      modifies this`pendingAdvance, this`pendingIndex, this`advancing,
               this`levelIndex, this`platforms, this`movingPlatforms, this`collectibles, this`enemies, this`goal
      ensures LevelOk() && !pendingAdvance
      ensures rebuild.Some? <==> old(pendingAdvance) && !old(advancing)
      ensures rebuild.Some? ==>
        && rebuild.value == old(pendingIndex) && levelIndex == rebuild.value && advancing
        && platforms == [] && movingPlatforms == [] && collectibles == [] && enemies == [] && goal == None
      ensures rebuild.None? ==>
        && levelIndex == old(levelIndex) && advancing == old(advancing)
        && platforms == old(platforms) && movingPlatforms == old(movingPlatforms) && collectibles == old(collectibles)
        && enemies == old(enemies) && goal == old(goal)
    {
      rebuild := None;
      if pendingAdvance && !advancing {
        advancing := true;
        var target := pendingIndex;
        pendingAdvance := false;
        NormalizeInRange(target);
        GoToLevel(target);
        rebuild := Some(target);
      }
    }
  }
}
