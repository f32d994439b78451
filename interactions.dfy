/**
 * interactions.js: oxygen and health, shark damage, the game-over screen and
 * its reset, the movement rules of sharks and fish, catching fish, and the
 * totem victory.
 */
module Interactions {
  import opened Geometry
  import opened State
  import opened Controls
  import opened Gui

  const WaterSurfaceY: real := 40.0

  /** Health and oxygen within [0, MaxHealth] and [0, MaxOxygen]. */
  ghost predicate MetersInRange(mt: Meters) {
    0.0 <= mt.health <= MaxHealth && 0.0 <= mt.oxygen <= MaxOxygen
  }

  // ---------------------------------------------------------------- oxygen

  /** updatePlayerOxygen on the meters, for a camera at height `y`. */
  function OxygenStep(mt: Meters, y: real, dt: real): (r: Meters)
    // below the surface oxygen drains, never below zero
    ensures y < WaterSurfaceY ==> r.oxygen == Max(mt.oxygen - OxygenDrainRate * dt, 0.0)
    // at or above the surface oxygen refills, never above the maximum, and health is kept
    ensures y >= WaterSurfaceY ==> r.oxygen == Min(mt.oxygen + OxygenRefillRate * dt, MaxOxygen) && r.health == mt.health
    // health is lost exactly when the drained oxygen is used up, in the same call
    ensures y < WaterSurfaceY && r.oxygen <= 0.0 ==> r.health == Max(mt.health - HealthLossOnNoOxygen * dt, 0.0)
    ensures r.health != mt.health ==> y < WaterSurfaceY && r.oxygen == 0.0
    ensures dt >= 0.0 && MetersInRange(mt) ==> MetersInRange(r)
    ensures r == mt.(health := r.health, oxygen := r.oxygen)
  {
    if y < WaterSurfaceY then
      var oxygen := Max(mt.oxygen - OxygenDrainRate * dt, 0.0);
      var health := if oxygen <= 0.0 then Max(mt.health - HealthLossOnNoOxygen * dt, 0.0) else mt.health;
      mt.(oxygen := oxygen, health := health)
    else
      mt.(oxygen := Min(mt.oxygen + OxygenRefillRate * dt, MaxOxygen))
  }

  /** The last breath: oxygen running out costs health in the very call in which it runs out. */
  lemma LastBreath()
    ensures var r := OxygenStep(Initial.meters.(oxygen := 1.0), 0.0, 1.0);
      r.oxygen == 0.0 && r.health == MaxHealth - HealthLossOnNoOxygen
  {
  }

  /** The start height is not below the surface: the player begins by refilling oxygen. */
  lemma StartRefills(mt: Meters, dt: real)
    requires dt >= 0.0
    ensures OxygenStep(mt, StartPosition.y, dt).oxygen == Min(mt.oxygen + OxygenRefillRate * dt, MaxOxygen)
  {
  }

  function OxygenTick(g: Game, dt: real): Game {
    g.(meters := OxygenStep(g.meters, g.player.pos.y, dt))
  }

  method UpdatePlayerOxygen(w: World, dt: real)
    modifies w
    ensures w.Snap() == OxygenTick(old(w.Snap()), dt)
  {
    var underwater := w.player.pos.y < WaterSurfaceY;
    if underwater {
      w.meters := w.meters.(oxygen := w.meters.oxygen - OxygenDrainRate * dt);
      w.meters := w.meters.(oxygen := Max(w.meters.oxygen, 0.0));
      if w.meters.oxygen <= 0.0 {
        w.meters := w.meters.(health := w.meters.health - HealthLossOnNoOxygen * dt);
        w.meters := w.meters.(health := Max(w.meters.health, 0.0));
      }
    } else {
      w.meters := w.meters.(oxygen := w.meters.oxygen + OxygenRefillRate * dt);
      w.meters := w.meters.(oxygen := Min(w.meters.oxygen, MaxOxygen));
    }
  }

  // ---------------------------------------------------------------- shark damage

  /** Some shark's box intersects the camera's box. */
  predicate AnyOverlap(cam: Vec3, sharks: seq<Agent>, overlap: (Vec3, Agent) -> bool) {
    exists i :: 0 <= i < |sharks| && overlap(cam, sharks[i])
  }

  /** updateSharkDamage on (health, timer). */
  function DamageStep(health: real, timer: real, hit: bool, dt: real): (r: (real, real))
    // the timer always runs down by dt first; while it is still running nothing else happens
    ensures timer - dt > 0.0 ==> r == (health, timer - dt)
    // otherwise one hit at most: a collision costs SharkDamage once and restarts the cooldown
    ensures timer - dt <= 0.0 && hit ==> r == (Max(health - SharkDamage, 0.0), SharkDamageCooldown)
    ensures !hit ==> r == (health, timer - dt)
    ensures 0.0 <= health <= MaxHealth ==> 0.0 <= r.0 <= health
    ensures r.0 >= health - SharkDamage
  {
    var t := timer - dt;
    if t > 0.0 then (health, t)
    else if hit then (Max(health - SharkDamage, 0.0), SharkDamageCooldown)
    else (health, t)
  }

  function DamageTick(g: Game, overlap: (Vec3, Agent) -> bool, dt: real): Game {
    var r := DamageStep(g.meters.health, g.rules.sharkDamageTimer,
                        AnyOverlap(g.player.pos, g.scene.sharkData, overlap), dt);
    g.(meters := g.meters.(health := r.0), rules := g.rules.(sharkDamageTimer := r.1))
  }

  /** Health and oxygen stay in range through a tick's oxygen and damage steps. */
  lemma MetersStayInRange(g: Game, overlap: (Vec3, Agent) -> bool, dt: real)
    requires dt >= 0.0 && MetersInRange(g.meters)
    ensures MetersInRange(OxygenTick(g, dt).meters)
    ensures MetersInRange(DamageTick(OxygenTick(g, dt), overlap, dt).meters)
  {
    var g1 := OxygenTick(g, dt);
    assert MetersInRange(g1.meters);
    var r := DamageStep(g1.meters.health, g1.rules.sharkDamageTimer,
                        AnyOverlap(g1.player.pos, g1.scene.sharkData, overlap), dt);
    assert 0.0 <= r.0 <= g1.meters.health;
  }

  /**
   * updateSharkDamage: the sharks are examined in order and the loop stops at
   * the first one whose box meets the camera's.
   */
  method UpdateSharkDamage(w: World, overlap: (Vec3, Agent) -> bool, dt: real)
    modifies w
    ensures w.Snap() == DamageTick(old(w.Snap()), overlap, dt)
  {
    w.rules := w.rules.(sharkDamageTimer := w.rules.sharkDamageTimer - dt);
    if w.rules.sharkDamageTimer > 0.0 {
      return;
    }
    var sharks := w.scene.sharkData;
    for i := 0 to |sharks|
      invariant forall j :: 0 <= j < i ==> !overlap(w.player.pos, sharks[j])
      invariant w.Snap() == old(w.Snap()).(rules := old(w.rules).(sharkDamageTimer := old(w.rules.sharkDamageTimer) - dt))
    {
      if overlap(w.player.pos, sharks[i]) {
        w.meters := w.meters.(health := w.meters.health - SharkDamage);
        w.meters := w.meters.(health := Max(w.meters.health, 0.0));
        w.rules := w.rules.(sharkDamageTimer := SharkDamageCooldown);
        return;
      }
    }
  }

  // ---------------------------------------------------------------- game over and reset

  /** The fog of the game-over screen. */
  const DeathFog := Fog(0x000000, 0.1)

  /** checkGameOver: the first time health is used up, end the game, save and darken the fog, show the retry text. */
  function GameOverStep(g: Game): (r: Game)
    ensures g.meters.health <= 0.0 && !g.rules.gameOver ==>
      r == g.(rules := g.rules.(gameOver := true, savedFog := Some(g.rules.fog), fog := DeathFog, retryShown := true))
    ensures !(g.meters.health <= 0.0 && !g.rules.gameOver) ==> r == g
  {
    if g.meters.health <= 0.0 && !g.rules.gameOver then
      g.(rules := g.rules.(gameOver := true, savedFog := Some(g.rules.fog), fog := DeathFog, retryShown := true))
    else g
  }

  /** checkGameOver is one-shot: a second call changes nothing, so the saved fog is not overwritten. */
  lemma GameOverOnce(g: Game)
    ensures GameOverStep(GameOverStep(g)) == GameOverStep(g)
    ensures GameOverStep(g).rules.gameOver
      ==> GameOverStep(g).rules.savedFog == (if g.rules.gameOver then g.rules.savedFog else Some(g.rules.fog))
  {
  }

  method CheckGameOver(w: World)
    modifies w
    ensures w.Snap() == GameOverStep(old(w.Snap()))
  {
    if w.meters.health <= 0.0 && !w.rules.gameOver {
      w.rules := w.rules.(gameOver := true);
      w.rules := w.rules.(savedFog := Some(w.rules.fog));
      w.rules := w.rules.(fog := DeathFog);
      w.rules := w.rules.(retryShown := true);
    }
  }

  /**
   * resetGame: full meters, the game resumed, the saved fog back, the retry
   * text gone and the camera at the start; nothing else is restored.
   */
  function ResetStep(g: Game): (r: Game)
    requires g.rules.savedFog.Some?
    ensures r.meters.health == MaxHealth && r.meters.oxygen == MaxOxygen && !r.rules.gameOver
    ensures r.player.pos == StartPosition && r.rules.fog == g.rules.savedFog.value && !r.rules.retryShown
    // left alone: boost, the shark timer, the fish lists, velocity, keys, the HUD and the victory flag
    ensures r.meters == g.meters.(health := MaxHealth, oxygen := MaxOxygen)
    ensures r.rules == g.rules.(gameOver := false, fog := g.rules.savedFog.value, retryShown := false)
    ensures r.player == g.player.(pos := StartPosition)
    ensures r.loading == g.loading && r.hud == g.hud && r.scene == g.scene
  {
    g.(meters := g.meters.(health := MaxHealth, oxygen := MaxOxygen),
       rules := g.rules.(gameOver := false, fog := g.rules.savedFog.value, retryShown := false),
       player := g.player.(pos := StartPosition))
  }

  method ResetGame(w: World)
    requires w.rules.savedFog.Some?
    modifies w
    ensures w.Snap() == ResetStep(old(w.Snap()))
  {
    w.meters := w.meters.(health := MaxHealth);
    w.meters := w.meters.(oxygen := MaxOxygen);
    w.rules := w.rules.(gameOver := false);
    w.rules := w.rules.(fog := w.rules.savedFog.value);
    if w.rules.retryShown {
      w.rules := w.rules.(retryShown := false);
    }
    w.player := w.player.(pos := StartPosition);
  }

  /** The R key: a reset, but only while the game is over. */
  function PressRStep(g: Game): (r: Game)
    requires g.rules.gameOver ==> g.rules.savedFog.Some?
    ensures !g.rules.gameOver ==> r == g
    ensures g.rules.gameOver ==> r == ResetStep(g)
  {
    if g.rules.gameOver then ResetStep(g) else g
  }

  method PressR(w: World)
    requires w.rules.gameOver ==> w.rules.savedFog.Some?
    modifies w
    ensures w.Snap() == PressRStep(old(w.Snap()))
  {
    if w.rules.gameOver {
      ResetGame(w);
    }
  }

  // ---------------------------------------------------------------- sharks and fish

  /** The wandering limit: the terrain's half size less 5. */
  const WanderLimit: real := TerrainSize / 2.0 - 5.0

  predicate OutOfBounds(p: Vec3) {
    p.x < -WanderLimit || p.x > WanderLimit || p.z < -WanderLimit || p.z > WanderLimit
  }

  /** A shark chases the player within the attack radius. */
  predicate Chasing(m: MathLib, s: Agent, player: Vec3) {
    Distance(m, s.pos, player) <= SharkAttackRadius
  }

  lemma ChasingDist2(m: MathLib, s: Agent, player: Vec3)
    requires Valid(m)
    ensures Chasing(m, s, player) <==> Dist2(s.pos, player) <= SharkAttackRadius * SharkAttackRadius
  {
    DistanceCompare(m, s.pos, player, SharkAttackRadius);
  }

  /** The speed a shark moves at this update: multiplied while chasing. */
  function SharkSpeed(m: MathLib, s: Agent, player: Vec3): (r: real)
    ensures Chasing(m, s, player) ==> r == s.speed * SharkAttackSpeedMult
    ensures !Chasing(m, s, player) ==> r == s.speed
  {
    if Chasing(m, s, player) then s.speed * SharkAttackSpeedMult else s.speed
  }

  /** The direction back towards the vertical axis of the tank, at the agent's own height. */
  function ToCentre(m: MathLib, p: Vec3): Vec3 {
    Normalize(m, Sub(Vec3(0.0, p.y, 0.0), p))
  }

  /** Outside the limit the way back is level, of unit length, and points towards the centre line. */
  lemma ToCentreInward(m: MathLib, p: Vec3)
    requires Valid(m) && OutOfBounds(p)
    ensures ToCentre(m, p).y == 0.0
    ensures Norm2(ToCentre(m, p)) == 1.0
    ensures ToCentre(m, p).x * p.x + ToCentre(m, p).z * p.z < 0.0
  {
    var d := Sub(Vec3(0.0, p.y, 0.0), p);
    assert d == Vec3(-p.x, 0.0, -p.z);
    SquareNonNeg(p.x);
    SquareNonNeg(p.z);
    if p.x < -WanderLimit || p.x > WanderLimit {
      assert p.x * p.x > 0.0;
    } else {
      assert p.z * p.z > 0.0;
    }
    assert Norm2(d) == p.x * p.x + p.z * p.z;
    NormalizeUnit(m, d);
    var k := 1.0 / Length(m, d);
    assert k > 0.0;
    var c := ToCentre(m, p);
    assert c == Vec3(-p.x * k, 0.0, -p.z * k);
    assert c.x * p.x + c.z * p.z == -(k * (p.x * p.x + p.z * p.z));
    MulPos(k, p.x * p.x + p.z * p.z);
  }

  /**
   * The boundary rule of sharks and fish, with `r` the value Math.random
   * returns if it is called: outside the limit, the heading turns 5% of the
   * way back to the centre and is renormalized, and the change timer restarts.
   */
  function ReturnToCentre(m: MathLib, a: Agent, r: real): (b: Agent)
    ensures !OutOfBounds(a.pos) ==> b == a
    ensures OutOfBounds(a.pos) ==>
      b == a.(targetDir := Normalize(m, Lerp(a.targetDir, ToCentre(m, a.pos), 0.05)), changeTimer := 2.0 + r * 2.0)
    ensures 0.0 <= r < 1.0 && OutOfBounds(a.pos) ==> 2.0 <= b.changeTimer < 4.0
  {
    if OutOfBounds(a.pos) then
      a.(targetDir := Normalize(m, Lerp(a.targetDir, ToCentre(m, a.pos), 0.05)), changeTimer := 2.0 + r * 2.0)
    else a
  }

  /** Sharks steer 20% of the way towards the player while chasing, and by the boundary rule otherwise. */
  function SharkSteer(m: MathLib, s: Agent, player: Vec3, r: real): (b: Agent)
    ensures Chasing(m, s, player) ==> b == s.(targetDir := Lerp(s.targetDir, Normalize(m, Sub(player, s.pos)), 0.2))
    ensures !Chasing(m, s, player) ==> b == ReturnToCentre(m, s, r)
  {
    if Chasing(m, s, player) then s.(targetDir := Lerp(s.targetDir, Normalize(m, Sub(player, s.pos)), 0.2))
    else ReturnToCentre(m, s, r)
  }

  /**
   * The chase lerps the heading without renormalizing it: a shark at the
   * origin heading along +x, with the player 10 units behind it, ends up with
   * the heading (0.6, 0, 0), shorter than a unit vector.
   */
  lemma ChaseShrinksHeading(m: MathLib, s: Agent)
    requires Valid(m) && s.pos == Vec3(0.0, 0.0, 0.0) && s.targetDir == Vec3(1.0, 0.0, 0.0)
    ensures SharkSteer(m, s, Vec3(-10.0, 0.0, 0.0), 0.0).targetDir == Vec3(0.6, 0.0, 0.0)
    ensures Norm2(SharkSteer(m, s, Vec3(-10.0, 0.0, 0.0), 0.0).targetDir) < 1.0
  {
    SqrtHundred(m);
    ChaseSteer(m, s);
    ShortLerp(SharkSteer(m, s, Vec3(-10.0, 0.0, 0.0), 0.0).targetDir);
  }

  /** The lerp of the chase example is (0.6, 0, 0), which is shorter than a unit vector. */
  lemma ShortLerp(d: Vec3)
    requires d == Lerp(Vec3(1.0, 0.0, 0.0), Vec3(-1.0, 0.0, 0.0), 0.2)
    ensures d == Vec3(0.6, 0.0, 0.0) && Norm2(d) < 1.0
  {
    LerpOnAxis(1.0, -1.0, 0.2);
    ShortHeading();
  }

  /** In the chase example the shark chases, so its heading is the lerp towards (-1, 0, 0). */
  lemma ChaseSteer(m: MathLib, s: Agent)
    requires m.sqrt(100.0) == 10.0 && s.pos == Vec3(0.0, 0.0, 0.0) && s.targetDir == Vec3(1.0, 0.0, 0.0)
    ensures SharkSteer(m, s, Vec3(-10.0, 0.0, 0.0), 0.0).targetDir
         == Lerp(Vec3(1.0, 0.0, 0.0), Vec3(-1.0, 0.0, 0.0), 0.2)
  {
    ChaseArithmetic(m);
    assert Chasing(m, s, Vec3(-10.0, 0.0, 0.0));
  }

  lemma ShortHeading()
    ensures Norm2(Vec3(0.6, 0.0, 0.0)) == 0.36
  {
  }

  /** The distances of the chase example. */
  lemma ChaseArithmetic(m: MathLib)
    requires m.sqrt(100.0) == 10.0
    ensures Distance(m, Vec3(0.0, 0.0, 0.0), Vec3(-10.0, 0.0, 0.0)) == 10.0
    ensures Normalize(m, Sub(Vec3(-10.0, 0.0, 0.0), Vec3(0.0, 0.0, 0.0))) == Vec3(-1.0, 0.0, 0.0)
  {
    assert Sub(Vec3(0.0, 0.0, 0.0), Vec3(-10.0, 0.0, 0.0)) == Vec3(10.0, 0.0, 0.0);
    assert Norm2(Vec3(10.0, 0.0, 0.0)) == 100.0;
    assert Sub(Vec3(-10.0, 0.0, 0.0), Vec3(0.0, 0.0, 0.0)) == Vec3(-10.0, 0.0, 0.0);
    UnitOnAxis(m);
  }

  /** Normalizing (-10, 0, 0) with an exact square root of 100. */
  lemma UnitOnAxis(m: MathLib)
    requires m.sqrt(100.0) == 10.0
    ensures Normalize(m, Vec3(-10.0, 0.0, 0.0)) == Vec3(-1.0, 0.0, 0.0)
  {
    assert Norm2(Vec3(-10.0, 0.0, 0.0)) == 100.0;
  }

  /** Lerp between two points of the x axis stays on it. */
  lemma LerpOnAxis(a: real, b: real, t: real)
    ensures Lerp(Vec3(a, 0.0, 0.0), Vec3(b, 0.0, 0.0), t) == Vec3(a + (b - a) * t, 0.0, 0.0)
  {
  }

  /** The host's square root of 100 is 10. */
  lemma SqrtHundred(m: MathLib)
    requires Valid(m)
    ensures m.sqrt(100.0) == 10.0
  {
    var root := m.sqrt(100.0);
    assert root * root == 100.0 && root >= 0.0;
    SquareMono(root, 10.0);
  }

  /** A chasing shark is never sent back to the centre, even beyond the limit. */
  lemma ChaseOverridesBoundary(m: MathLib, s: Agent, player: Vec3, r: real)
    requires Chasing(m, s, player)
    ensures SharkSteer(m, s, player, r).changeTimer == s.changeTimer
  {
  }

  /** Moving `step` along a direction, then the vertical bobbing at the new position. */
  function Swim(m: MathLib, p: Vec3, dir: Vec3, step: real, baseSpeed: real, now: real): (q: Vec3)
    ensures q == Add(p, Scale(dir, step)).(y := q.y)
  {
    var p1 := Add(p, Scale(dir, step));
    p1.(y := p1.y + m.sin(now * 0.002 + p1.x + p1.z) * 0.005 * baseSpeed)
  }

  /** The bobbing moves an agent up or down by at most 0.005 times its base speed. */
  lemma BobBound(m: MathLib, p: Vec3, dir: Vec3, step: real, baseSpeed: real, now: real)
    requires Valid(m) && baseSpeed >= 0.0
    ensures -0.005 * baseSpeed <= Swim(m, p, dir, step, baseSpeed, now).y - (p.y + dir.y * step) <= 0.005 * baseSpeed
  {
    var p1 := Add(p, Scale(dir, step));
    var bob := m.sin(now * 0.002 + p1.x + p1.z);
    assert -1.0 <= bob <= 1.0;
    assert Swim(m, p, dir, step, baseSpeed, now).y - (p.y + dir.y * step) == bob * (0.005 * baseSpeed);
  }

  /**
   * updateShark. The record's own speed is never changed: the chase
   * multiplier applies to this move only.
   */
  function SharkStep(m: MathLib, s: Agent, player: Vec3, dt: real, now: real, r: real): (a: Agent)
    ensures 5.0 <= a.pos.y <= 25.0
    ensures a == SharkSteer(m, s, player, r).(pos := a.pos)
    // the horizontal move is along the new heading, at the chase-dependent speed
    ensures a.pos == Add(s.pos, Scale(a.targetDir, SharkSpeed(m, s, player) * (dt * s.baseSpeed))).(y := a.pos.y)
  {
    var s1 := SharkSteer(m, s, player, r);
    var p := Swim(m, s.pos, s1.targetDir, SharkSpeed(m, s, player) * (dt * s.baseSpeed), s.baseSpeed, now);
    s1.(pos := p.(y := Clamp(p.y, 5.0, 25.0)))
  }

  /** updateFish: the boundary rule, then a move along the renormalized heading. */
  function FishStep(m: MathLib, f: Agent, dt: real, now: real, r: real): (a: Agent)
    ensures 5.0 <= a.pos.y <= 25.0
    ensures a == ReturnToCentre(m, f, r).(pos := a.pos)
    ensures a.pos == Add(f.pos, Scale(Normalize(m, a.targetDir), f.speed * (dt * f.baseSpeed))).(y := a.pos.y)
  {
    var f1 := ReturnToCentre(m, f, r);
    var p := Swim(m, f.pos, Normalize(m, f1.targetDir), f.speed * (dt * f.baseSpeed), f.baseSpeed, now);
    var y := if p.y < 5.0 then 5.0 else p.y;
    var y' := if y > 25.0 then 25.0 else y;
    f1.(pos := p.(y := y'))
  }

  /** fishData.forEach(updateFish): the i-th fish uses the i-th value of `rand`. */
  function FishAll(m: MathLib, fish: seq<Agent>, dt: real, now: real, rand: nat -> real): (r: seq<Agent>)
    ensures |r| == |fish|
    ensures forall i :: 0 <= i < |fish| ==> r[i] == FishStep(m, fish[i], dt, now, rand(i))
  {
    seq(|fish|, i requires 0 <= i < |fish| => FishStep(m, fish[i], dt, now, rand(i)))
  }

  /** sharkData.forEach(updateShark), all chasing the same player position. */
  function SharksAll(m: MathLib, sharks: seq<Agent>, player: Vec3, dt: real, now: real, rand: nat -> real): (r: seq<Agent>)
    ensures |r| == |sharks|
    ensures forall i :: 0 <= i < |sharks| ==> r[i] == SharkStep(m, sharks[i], player, dt, now, rand(i))
  {
    seq(|sharks|, i requires 0 <= i < |sharks| => SharkStep(m, sharks[i], player, dt, now, rand(i)))
  }

  /** After an update every agent is between heights 5 and 25, with its name, speed and scale kept. */
  lemma AgentsInWater(m: MathLib, fish: seq<Agent>, sharks: seq<Agent>, player: Vec3, dt: real, now: real,
                      fishRand: nat -> real, sharkRand: nat -> real)
    ensures forall i :: 0 <= i < |fish| ==> 5.0 <= FishAll(m, fish, dt, now, fishRand)[i].pos.y <= 25.0
    ensures forall i :: 0 <= i < |sharks| ==> 5.0 <= SharksAll(m, sharks, player, dt, now, sharkRand)[i].pos.y <= 25.0
    ensures forall i :: 0 <= i < |sharks| ==>
      var a := SharksAll(m, sharks, player, dt, now, sharkRand)[i];
      a.name == sharks[i].name && a.speed == sharks[i].speed && a.scale == sharks[i].scale && a.baseSpeed == sharks[i].baseSpeed
  {
  }

  function FishTick(m: MathLib, g: Game, dt: real, now: real, rand: nat -> real): Game
  {
    g.(scene := g.scene.(fishData := FishAll(m, g.scene.fishData, dt, now, rand)))
  }

  function SharkTick(m: MathLib, g: Game, dt: real, now: real, rand: nat -> real): Game
  {
    g.(scene := g.scene.(sharkData := SharksAll(m, g.scene.sharkData, g.player.pos, dt, now, rand)))
  }

  method UpdateAllFish(w: World, m: MathLib, dt: real, now: real, rand: nat -> real)
    modifies w
    ensures w.Snap() == FishTick(m, old(w.Snap()), dt, now, rand)
  {
    var fish := w.scene.fishData;
    var n := |fish|;
    for i := 0 to n
      invariant |w.scene.fishData| == n
      invariant forall j :: 0 <= j < i ==> w.scene.fishData[j] == FishStep(m, fish[j], dt, now, rand(j))
      invariant forall j :: i <= j < n ==> w.scene.fishData[j] == fish[j]
      invariant w.Snap() == old(w.Snap()).(scene := old(w.scene).(fishData := w.scene.fishData))
    {
      w.scene := w.scene.(fishData := w.scene.fishData[i := FishStep(m, w.scene.fishData[i], dt, now, rand(i))]);
    }
    assert w.scene.fishData == FishAll(m, fish, dt, now, rand);
  }

  method UpdateAllSharks(w: World, m: MathLib, dt: real, now: real, rand: nat -> real)
    modifies w
    ensures w.Snap() == SharkTick(m, old(w.Snap()), dt, now, rand)
  {
    var sharks := w.scene.sharkData;
    var n := |sharks|;
    for i := 0 to n
      invariant |w.scene.sharkData| == n
      invariant forall j :: 0 <= j < i ==> w.scene.sharkData[j] == SharkStep(m, sharks[j], w.player.pos, dt, now, rand(j))
      invariant forall j :: i <= j < n ==> w.scene.sharkData[j] == sharks[j]
      invariant w.Snap() == old(w.Snap()).(scene := old(w.scene).(sharkData := w.scene.sharkData))
    {
      w.scene := w.scene.(sharkData := w.scene.sharkData[i := SharkStep(m, w.scene.sharkData[i], w.player.pos, dt, now, rand(i))]);
    }
    assert w.scene.sharkData == SharksAll(m, sharks, w.player.pos, dt, now, rand);
  }

  // ---------------------------------------------------------------- catching fish

  predicate InReach(m: MathLib, player: Vec3, f: Agent) {
    Distance(m, player, f.pos) <= FishPickupRadius
  }

  lemma InReachDist2(m: MathLib, player: Vec3, f: Agent)
    requires Valid(m)
    ensures InReach(m, player, f) <==> Dist2(player, f.pos) <= FishPickupRadius * FishPickupRadius
  {
    DistanceCompare(m, player, f.pos, FishPickupRadius);
  }

  /** The fish attemptCatchFish takes: the one of highest index within reach, if any. */
  function CatchIndex(m: MathLib, player: Vec3, fish: seq<Agent>): (r: Option<nat>)
    ensures r.Some? ==> r.value < |fish| && InReach(m, player, fish[r.value])
    ensures r.Some? ==> forall j :: r.value < j < |fish| ==> !InReach(m, player, fish[j])
    ensures r.None? ==> forall j :: 0 <= j < |fish| ==> !InReach(m, player, fish[j])
    decreases |fish|
  {
    if fish == [] then None
    else if InReach(m, player, fish[|fish| - 1]) then Some(|fish| - 1)
    else CatchIndex(m, player, fish[..|fish| - 1])
  }

  /** attemptCatchFish: the fish taken is appended to the collection and removed from the live list. */
  function CatchStep(m: MathLib, g: Game): (r: Game)
    ensures |r.scene.fishData| + |r.rules.collectedFish| == |g.scene.fishData| + |g.rules.collectedFish|
    ensures multiset(r.scene.fishData) + multiset(r.rules.collectedFish)
         == multiset(g.scene.fishData) + multiset(g.rules.collectedFish)
    ensures CatchIndex(m, g.player.pos, g.scene.fishData).None? ==> r == g
    ensures CatchIndex(m, g.player.pos, g.scene.fishData).Some? ==>
      var i := CatchIndex(m, g.player.pos, g.scene.fishData).value;
      && r.rules.collectedFish == g.rules.collectedFish + [g.scene.fishData[i]]
      && r.scene.fishData == g.scene.fishData[..i] + g.scene.fishData[i + 1..]
      && r == g.(rules := r.rules, scene := r.scene)
      && r.rules == g.rules.(collectedFish := r.rules.collectedFish)
      && r.scene == g.scene.(fishData := r.scene.fishData)
  {
    match CatchIndex(m, g.player.pos, g.scene.fishData)
    case None => g
    case Some(i) =>
      var fish := g.scene.fishData;
      assert fish == fish[..i] + [fish[i]] + fish[i + 1..];
      g.(rules := g.rules.(collectedFish := g.rules.collectedFish + [fish[i]]),
         scene := g.scene.(fishData := fish[..i] + fish[i + 1..]))
  }

  /** The fish left behind keep their relative order: the live list loses exactly one element. */
  lemma CatchKeepsOrder(m: MathLib, g: Game)
    requires CatchIndex(m, g.player.pos, g.scene.fishData).Some?
    ensures var i := CatchIndex(m, g.player.pos, g.scene.fishData).value;
      forall j :: 0 <= j < |CatchStep(m, g).scene.fishData| ==>
        CatchStep(m, g).scene.fishData[j] == g.scene.fishData[if j < i then j else j + 1]
  {
  }

  method AttemptCatchFish(w: World, m: MathLib)
    modifies w
    ensures w.Snap() == CatchStep(m, old(w.Snap()))
  {
    var playerPos := w.player.pos;
    var fish := w.scene.fishData;
    var i := |fish|;
    while i > 0
      invariant 0 <= i <= |fish|
      invariant forall j :: i <= j < |fish| ==> !InReach(m, playerPos, fish[j])
      invariant w.Snap() == old(w.Snap())
      decreases i
    {
      i := i - 1;
      if Distance(m, playerPos, fish[i].pos) <= FishPickupRadius {
        w.rules := w.rules.(collectedFish := w.rules.collectedFish + [fish[i]]);
        w.scene := w.scene.(fishData := fish[..i] + fish[i + 1..]);
        return;
      }
    }
  }

  // ---------------------------------------------------------------- totem victory

  /** The totem stands on the terrain at the centre; the goal is 10 above it. */
  function GoalPos(m: MathLib): (r: Vec3)
    ensures Valid(m) ==> r == Vec3(0.0, 11.5, 0.0)
  {
    Vec3(0.0, TerrainHeight(m, 0.0, 0.0) + 0.0 + 10.0, 0.0)
  }

  const TotemReachDistance: real := 10.0

  /** checkTotemVictory: near the goal with at least two species shown, victory (once). */
  function VictoryStep(m: MathLib, g: Game): (r: Game)
    ensures g.rules.victoryTriggered ==> r == g
    ensures !g.rules.victoryTriggered && Distance(m, g.player.pos, GoalPos(m)) < TotemReachDistance && |g.hud.fishTypes| >= 2
      ==> r == ShowVictory(g.(rules := g.rules.(victoryTriggered := true)))
    ensures !(Distance(m, g.player.pos, GoalPos(m)) < TotemReachDistance && |g.hud.fishTypes| >= 2) ==> r == g
    ensures r.rules.victoryTriggered ==> g.rules.victoryTriggered || |g.hud.fishTypes| >= 2
  {
    if g.rules.victoryTriggered then g
    else if Distance(m, g.player.pos, GoalPos(m)) < TotemReachDistance && |g.hud.fishTypes| >= 2 then
      ShowVictory(g.(rules := g.rules.(victoryTriggered := true)))
    else g
  }

  /** checkTotemVictory is idempotent. */
  lemma VictoryOnce(m: MathLib, g: Game)
    ensures VictoryStep(m, VictoryStep(m, g)) == VictoryStep(m, g)
  {
  }

  /** Reaching the goal compares squared distances; the species counted are the HUD's, not the collected list. */
  lemma VictoryCondition(m: MathLib, g: Game)
    requires Valid(m) && !g.rules.victoryTriggered
    ensures VictoryStep(m, g).rules.victoryTriggered <==>
      Dist2(g.player.pos, Vec3(0.0, 11.5, 0.0)) < 100.0 && |g.hud.fishTypes| >= 2
  {
    DistanceCompare(m, g.player.pos, GoalPos(m), TotemReachDistance);
  }

  method CheckTotemVictory(w: World, m: MathLib)
    modifies w
    ensures w.Snap() == VictoryStep(m, old(w.Snap()))
  {
    if w.rules.victoryTriggered {
      return;
    }
    var goalPos := Vec3(0.0, TerrainHeight(m, 0.0, 0.0) + 0.0 + 10.0, 0.0);
    var dist := Distance(m, w.player.pos, goalPos);
    if dist < TotemReachDistance && |w.hud.fishTypes| >= 2 {
      w.rules := w.rules.(victoryTriggered := true);
      ShowVictoryHUD(w);
    }
  }

  /** The F key: attemptCatchFish, whether or not the game is over. */
  method PressF(w: World, m: MathLib)
    modifies w
    ensures w.Snap() == CatchStep(m, old(w.Snap()))
  {
    AttemptCatchFish(w, m);
  }
}
