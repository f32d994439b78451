/**
 * controls.js: the terrain height field, the boost meter, the camera's
 * velocity, its position clamps, the push-out from fish and the mouse pitch clamp.
 */
module Controls {
  import opened Geometry
  import opened State

  const Sensitivity: real := 0.002
  const GlassHeight: real := 45.0
  const Friction: real := 0.9

  // ---------------------------------------------------------------- terrain

  /** getTerrainHeight: two dunes, bounded by the amplitudes 2 and 1.5. */
  function TerrainHeight(m: MathLib, x: real, z: real): (h: real)
    ensures Valid(m) ==> -3.5 <= h <= 3.5
    ensures Valid(m) && x == 0.0 && z == 0.0 ==> h == 1.5
  {
    m.sin(x * 0.1) * 2.0 + m.cos(z * 0.15) * 1.5
  }

  // ---------------------------------------------------------------- boost

  /** The three boost globals: playerBoost, boostActive, canBoost. */
  datatype Boost = Boost(level: real, active: bool, canBoost: bool)

  /**
   * What holds of the boost globals between updates: the level is within its
   * range, a lockout only happens with an empty meter, and boosting only with an
   * unlocked, non-empty meter.
   */
  ghost predicate BoostInv(b: Boost) {
    && 0.0 <= b.level <= MaxBoost
    && (!b.canBoost ==> b.level == 0.0)
    && (b.active ==> b.canBoost && b.level > 0.0)
  }

  /** updateBoost on the boost globals, given whether a Shift key is held. */
  function BoostStep(b: Boost, shift: bool, dt: real): (r: Boost)
    ensures BoostInv(b) && dt >= 0.0 ==> BoostInv(r)
    // the lockout persists while Shift stays held
    ensures shift && !b.canBoost ==> r == b.(active := false)
    // releasing Shift always clears the lockout and stops boosting
    ensures !shift ==> r.canBoost && !r.active
    ensures !shift && dt >= 0.0 && b.level <= MaxBoost ==> b.level <= r.level <= MaxBoost
    // boosting spends exactly the consume rate and keeps a positive level
    ensures r.active ==> shift && b.canBoost && r.level == b.level - BoostConsumeRate * dt > 0.0
    // spending the last of the meter locks boosting out with an empty meter
    ensures shift && b.canBoost && 0.0 < b.level <= BoostConsumeRate * dt ==> r == Boost(0.0, false, false)
    // Shift on an unlocked meter with more than this frame's cost left turns the boost on
    ensures shift && b.canBoost && 0.0 < b.level && BoostConsumeRate * dt < b.level
      ==> r == Boost(b.level - BoostConsumeRate * dt, true, true)
    // Shift on an empty meter only stops boosting
    ensures shift && b.level <= 0.0 ==> r == b.(active := false)
    // without Shift the meter refills at the recover rate, capped at the maximum
    ensures !shift ==> r == Boost(Min(b.level + BoostRecoverRate * dt, MaxBoost), false, true)
  {
    if shift && b.level > 0.0 && b.canBoost then
      var level := b.level - BoostConsumeRate * dt;
      if level <= 0.0 then Boost(0.0, false, false) else Boost(level, true, true)
    else if !shift then
      Boost(Min(b.level + BoostRecoverRate * dt, MaxBoost), false, true)
    else
      b.(active := false)
  }

  /** Several updates in a row, one per element of `shifts`. */
  function BoostRun(b: Boost, shifts: seq<bool>, dt: real): Boost
    decreases |shifts|
  {
    if shifts == [] then b else BoostRun(BoostStep(b, shifts[0], dt), shifts[1..], dt)
  }

  /**
   * The lockout is not merely a zero check: however long Shift stays held after
   * the meter ran out, boost stays off and the meter does not move.
   */
  lemma {:induction false} LockoutHeld(b: Boost, shifts: seq<bool>, dt: real)
    requires BoostInv(b) && !b.canBoost
    requires forall i :: 0 <= i < |shifts| ==> shifts[i]
    ensures BoostRun(b, shifts, dt) == b
    decreases |shifts|
  {
    if shifts != [] {
      assert BoostStep(b, shifts[0], dt) == b;
      assert forall i :: 0 <= i < |shifts[1..]| ==> shifts[1..][i];
      LockoutHeld(b, shifts[1..], dt);
    }
  }

  /** The boost invariant holds along any sequence of updates. */
  lemma {:induction false} BoostRunInv(b: Boost, shifts: seq<bool>, dt: real)
    requires BoostInv(b) && dt >= 0.0
    ensures BoostInv(BoostRun(b, shifts, dt))
    decreases |shifts|
  {
    if shifts != [] {
      BoostRunInv(BoostStep(b, shifts[0], dt), shifts[1..], dt);
    }
  }

  function ShiftHeld(keys: set<string>): bool {
    "ShiftLeft" in keys || "ShiftRight" in keys
  }

  function BoostOf(mt: Meters): Boost { Boost(mt.boost, mt.boostActive, mt.canBoost) }

  /** updateBoost on the whole game state. */
  function BoostTick(g: Game, dt: real): Game {
    var b := BoostStep(BoostOf(g.meters), ShiftHeld(g.player.keys), dt);
    g.(meters := g.meters.(boost := b.level, boostActive := b.active, canBoost := b.canBoost))
  }

  method UpdateBoost(w: World, dt: real)
    modifies w
    ensures w.Snap() == BoostTick(old(w.Snap()), dt)
  {
    var shiftPressed := "ShiftLeft" in w.player.keys || "ShiftRight" in w.player.keys;
    if shiftPressed && w.meters.boost > 0.0 && w.meters.canBoost {
      w.meters := w.meters.(boostActive := true);
      w.meters := w.meters.(boost := w.meters.boost - BoostConsumeRate * dt);
      if w.meters.boost <= 0.0 {
        w.meters := w.meters.(boost := 0.0);
        w.meters := w.meters.(canBoost := false);
        w.meters := w.meters.(boostActive := false);
      }
    } else {
      w.meters := w.meters.(boostActive := false);
      if !shiftPressed {
        w.meters := w.meters.(canBoost := true);
        w.meters := w.meters.(boost := w.meters.boost + BoostRecoverRate * dt);
        w.meters := w.meters.(boost := Min(w.meters.boost, MaxBoost));
      }
    }
  }

  /** getCurrentSpeed: double speed while boosting. */
  function CurrentSpeed(boostActive: bool): (r: real)
    ensures boostActive ==> r == 20.0
    ensures !boostActive ==> r == 10.0
    ensures r > 0.0
  {
    if boostActive then CameraSpeed * 2.0 else CameraSpeed
  }

  // ---------------------------------------------------------------- velocity

  /** The camera's horizontal "backward" axis for a yaw angle. */
  function Backward(m: MathLib, yaw: real): Vec3 {
    Normalize(m, Vec3(m.sin(yaw), 0.0, m.cos(yaw)))
  }

  /** The camera's horizontal "left" axis for a yaw angle. */
  function LeftOf(m: MathLib, yaw: real): Vec3 {
    Normalize(m, Cross(Backward(m, yaw), Up))
  }

  /** `move.add(d)` when the key is held. */
  function AddIf(held: bool, v: Vec3, d: Vec3): Vec3 {
    if held then Add(v, d) else v
  }

  /** The sum of the axes of the movement keys held (W, S, A, D, E, Q), in the order they are tested. */
  function MoveInput(m: MathLib, keys: set<string>, yaw: real): Vec3 {
    var backward := Backward(m, yaw);
    var left := LeftOf(m, yaw);
    var ws := AddIf("KeyS" in keys, AddIf("KeyW" in keys, Zero, Neg(backward)), backward);
    var ad := AddIf("KeyD" in keys, AddIf("KeyA" in keys, ws, left), Neg(left));
    AddIf("KeyQ" in keys, AddIf("KeyE" in keys, ad, Up), Neg(Up))
  }

  /** Two opposing keys cancel exactly when both or neither are held. */
  predicate Cancels(keys: set<string>, plus: string, minus: string) {
    plus in keys <==> minus in keys
  }

  /** +1, -1 or 0: the net input along one axis from a pair of opposing keys. */
  function Net(keys: set<string>, plus: string, minus: string): (r: real)
    ensures r * r == if Cancels(keys, plus, minus) then 0.0 else 1.0
  {
    if plus in keys && minus !in keys then 1.0
    else if minus in keys && plus !in keys then -1.0
    else 0.0
  }

  /** The number of axes along which the held keys do not cancel. */
  function ActiveAxes(keys: set<string>): real {
    (if Cancels(keys, "KeyS", "KeyW") then 0.0 else 1.0)
    + (if Cancels(keys, "KeyA", "KeyD") then 0.0 else 1.0)
    + (if Cancels(keys, "KeyE", "KeyQ") then 0.0 else 1.0)
  }

  /** A pair of opposing keys, the negative one tested first, adds its axis scaled by its net input. */
  lemma MinusThenPlus(keys: set<string>, plus: string, minus: string, v: Vec3, d: Vec3)
    ensures AddIf(plus in keys, AddIf(minus in keys, v, Neg(d)), d) == Add(v, Scale(d, Net(keys, plus, minus)))
  {
  }

  /** A pair of opposing keys, the positive one tested first, adds its axis scaled by its net input. */
  lemma PlusThenMinus(keys: set<string>, plus: string, minus: string, v: Vec3, d: Vec3)
    ensures AddIf(minus in keys, AddIf(plus in keys, v, d), Neg(d)) == Add(v, Scale(d, Net(keys, plus, minus)))
  {
  }

  lemma AxesUnit(m: MathLib, yaw: real)
    requires Valid(m)
    ensures Backward(m, yaw) == Vec3(m.sin(yaw), 0.0, m.cos(yaw))
    ensures LeftOf(m, yaw) == Vec3(-m.cos(yaw), 0.0, m.sin(yaw))
  {
    var v := Vec3(m.sin(yaw), 0.0, m.cos(yaw));
    assert Norm2(v) == 1.0;
    UnitLength(m, v);
    assert Backward(m, yaw) == v;
    var c := Cross(v, Up);
    assert c == Vec3(-m.cos(yaw), 0.0, m.sin(yaw));
    assert Norm2(c) == 1.0;
    UnitLength(m, c);
  }

  /** `b * fb + l * lr + Up * ud`, summed in the order updateCamera adds the keys' contributions. */
  function Combine(b: Vec3, l: Vec3, fb: real, lr: real, ud: real): Vec3 {
    Add(Add(Add(Zero, Scale(b, fb)), Scale(l, lr)), Scale(Up, ud))
  }

  /** The movement input as a combination of the two horizontal axes and the vertical one. */
  lemma MoveInputAxes(m: MathLib, keys: set<string>, yaw: real)
    ensures MoveInput(m, keys, yaw) ==
      Combine(Backward(m, yaw), LeftOf(m, yaw), Net(keys, "KeyS", "KeyW"), Net(keys, "KeyA", "KeyD"), Net(keys, "KeyE", "KeyQ"))
  {
    var b, l := Backward(m, yaw), LeftOf(m, yaw);
    MinusThenPlus(keys, "KeyS", "KeyW", Zero, b);
    var ws := Add(Zero, Scale(b, Net(keys, "KeyS", "KeyW")));
    PlusThenMinus(keys, "KeyA", "KeyD", ws, l);
    var ad := Add(ws, Scale(l, Net(keys, "KeyA", "KeyD")));
    PlusThenMinus(keys, "KeyE", "KeyQ", ad, Up);
  }

  /** The same, with the two horizontal axes written out. */
  lemma MoveInputComponents(m: MathLib, keys: set<string>, yaw: real)
    requires Valid(m)
    ensures MoveInput(m, keys, yaw) ==
      Combine(Vec3(m.sin(yaw), 0.0, m.cos(yaw)), Vec3(-m.cos(yaw), 0.0, m.sin(yaw)),
              Net(keys, "KeyS", "KeyW"), Net(keys, "KeyA", "KeyD"), Net(keys, "KeyE", "KeyQ"))
  {
    AxesUnit(m, yaw);
    MoveInputAxes(m, keys, yaw);
  }

  /** Orthogonal unit axes: the squared length of a combination is the sum of the squared weights. */
  lemma OrthoNorm(s: real, c: real, fb: real, lr: real, ud: real)
    requires s * s + c * c == 1.0
    ensures Norm2(Combine(Vec3(s, 0.0, c), Vec3(-c, 0.0, s), fb, lr, ud)) == fb * fb + lr * lr + ud * ud
  {
    var v := Combine(Vec3(s, 0.0, c), Vec3(-c, 0.0, s), fb, lr, ud);
    assert v == Vec3(s * fb - c * lr, ud, c * fb + s * lr);
    calc {
      Norm2(v);
      (s * fb - c * lr) * (s * fb - c * lr) + ud * ud + (c * fb + s * lr) * (c * fb + s * lr);
      (fb * fb + lr * lr) * (s * s + c * c) + ud * ud;
      { MulOne(fb * fb + lr * lr, s * s + c * c); }
      fb * fb + lr * lr + ud * ud;
    }
  }

  /** The combination of the keys' net inputs along the yaw's axes has squared length ActiveAxes. */
  lemma KeysNorm(m: MathLib, keys: set<string>, yaw: real)
    requires m.sin(yaw) * m.sin(yaw) + m.cos(yaw) * m.cos(yaw) == 1.0
    ensures Norm2(Combine(Vec3(m.sin(yaw), 0.0, m.cos(yaw)), Vec3(-m.cos(yaw), 0.0, m.sin(yaw)),
                          Net(keys, "KeyS", "KeyW"), Net(keys, "KeyA", "KeyD"), Net(keys, "KeyE", "KeyQ")))
      == ActiveAxes(keys)
  {
    OrthoNorm(m.sin(yaw), m.cos(yaw), Net(keys, "KeyS", "KeyW"), Net(keys, "KeyA", "KeyD"), Net(keys, "KeyE", "KeyQ"));
    NetSquares(keys);
  }

  /** KeysNorm for any vector equal to that combination. */
  lemma CombinationNorm(m: MathLib, keys: set<string>, yaw: real, v: Vec3)
    requires v == Combine(Vec3(m.sin(yaw), 0.0, m.cos(yaw)), Vec3(-m.cos(yaw), 0.0, m.sin(yaw)),
                          Net(keys, "KeyS", "KeyW"), Net(keys, "KeyA", "KeyD"), Net(keys, "KeyE", "KeyQ"))
    requires m.sin(yaw) * m.sin(yaw) + m.cos(yaw) * m.cos(yaw) == 1.0
    ensures Norm2(v) == ActiveAxes(keys)
  {
    KeysNorm(m, keys, yaw);
  }

  /**
   * The squared length of the movement input is the number of axes on which
   * the keys do not cancel: backward and left are orthogonal unit vectors.
   */
  lemma MoveInputNorm(m: MathLib, keys: set<string>, yaw: real)
    requires Valid(m)
    ensures Norm2(MoveInput(m, keys, yaw)) == ActiveAxes(keys)
  {
    MoveInputComponents(m, keys, yaw);
    SinCos(m, yaw);
    CombinationNorm(m, keys, yaw, MoveInput(m, keys, yaw));
  }

  lemma NetSquares(keys: set<string>)
    ensures Net(keys, "KeyS", "KeyW") * Net(keys, "KeyS", "KeyW")
      + Net(keys, "KeyA", "KeyD") * Net(keys, "KeyA", "KeyD")
      + Net(keys, "KeyE", "KeyQ") * Net(keys, "KeyE", "KeyQ") == ActiveAxes(keys)
  {
  }

  lemma MulOne(a: real, b: real)
    requires b == 1.0
    ensures a * b == a
  {
  }

  /**
   * The movement input has non-zero length exactly when some pair of opposing
   * keys does not cancel (no key held, or W with S, A with D, E with Q, all cancel).
   */
  lemma NoNetInput(m: MathLib, keys: set<string>, yaw: real)
    requires Valid(m)
    ensures Length(m, MoveInput(m, keys, yaw)) > 0.0 <==>
      !(Cancels(keys, "KeyS", "KeyW") && Cancels(keys, "KeyA", "KeyD") && Cancels(keys, "KeyE", "KeyQ"))
  {
    MoveInputNorm(m, keys, yaw);
    LengthZero(m, MoveInput(m, keys, yaw));
  }

  /** The velocity rule of updateCamera. */
  function NewVelocity(m: MathLib, move: Vec3, velocity: Vec3, speed: real): Vec3 {
    if Length(m, move) > 0.0 then Scale(Normalize(m, move), speed) else Scale(velocity, Friction)
  }

  /**
   * Without net input the velocity decays by the friction factor; with any
   * input it is replaced by a vector whose length is the current speed.
   */
  lemma VelocityRule(m: MathLib, keys: set<string>, yaw: real, velocity: Vec3, boostActive: bool)
    requires Valid(m)
    ensures var v := NewVelocity(m, MoveInput(m, keys, yaw), velocity, CurrentSpeed(boostActive));
      if Cancels(keys, "KeyS", "KeyW") && Cancels(keys, "KeyA", "KeyD") && Cancels(keys, "KeyE", "KeyQ")
      then v == Scale(velocity, Friction)
      else Length(m, v) == CurrentSpeed(boostActive)
  {
    var move := MoveInput(m, keys, yaw);
    var speed := CurrentSpeed(boostActive);
    NoNetInput(m, keys, yaw);
    if Length(m, move) > 0.0 {
      LengthZero(m, move);
      NormalizeUnit(m, move);
      var v := Scale(Normalize(m, move), speed);
      ScaleNorm2(Normalize(m, move), speed);
      assert Norm2(v) == speed * speed;
      SquareMono(Length(m, v), speed);
    }
  }

  // ---------------------------------------------------------------- position

  /**
   * The clamps of updateCamera in their order: floor above the terrain (at the
   * unclamped x and z), then the box, then the ceiling below the glass.
   */
  function ClampPosition(m: MathLib, p: Vec3): (r: Vec3)
    ensures -(TerrainSize / 2.0 - 1.0) <= r.x <= TerrainSize / 2.0 - 1.0
    ensures -(TerrainSize / 2.0 - 1.0) <= r.z <= TerrainSize / 2.0 - 1.0
    ensures r.y <= GlassHeight - 1.0
    ensures -99.0 <= p.x <= 99.0 ==> r.x == p.x
    ensures -99.0 <= p.z <= 99.0 ==> r.z == p.z
    ensures Valid(m) ==> r.y >= TerrainHeight(m, p.x, p.z) + 0.5
    ensures Valid(m) && TerrainHeight(m, p.x, p.z) + 0.5 <= p.y <= 44.0 ==> r.y == p.y
    // the exact values: x and z go to the nearer wall, y is raised to the floor and then capped
    ensures r.x == Clamp(p.x, -99.0, 99.0) && r.z == Clamp(p.z, -99.0, 99.0)
    ensures r.y == Min(Max(p.y, TerrainHeight(m, p.x, p.z) + 0.5), 44.0)
  {
    var terrainY := TerrainHeight(m, p.x, p.z);
    var p1 := if p.y < terrainY + 0.5 then p.(y := terrainY + 0.5) else p;
    var halfSize := TerrainSize / 2.0 - 1.0;
    var p2 := p1.(x := Clamp(p1.x, -halfSize, halfSize), z := Clamp(p1.z, -halfSize, halfSize));
    p2.(y := Min(p2.y, GlassHeight - 1.0))
  }

  // ---------------------------------------------------------------- fish push-out

  /** The push-out of preventCameraThroughFish for one fish. */
  function PushOut(m: MathLib, cam: Vec3, fishPos: Vec3): Vec3 {
    var toCamera := Sub(cam, fishPos);
    if Length(m, toCamera) < CameraCollisionRadius then
      Add(fishPos, Scale(Normalize(m, toCamera), CameraCollisionRadius))
    else
      cam
  }

  /**
   * A camera strictly inside the collision radius (and not at the centre) is
   * moved along the ray from the fish to exactly the radius.
   */
  lemma PushOutToRadius(m: MathLib, cam: Vec3, fishPos: Vec3)
    requires Valid(m)
    requires 0.0 < Dist2(cam, fishPos) < CameraCollisionRadius * CameraCollisionRadius
    ensures Distance(m, PushOut(m, cam, fishPos), fishPos) == CameraCollisionRadius
    ensures Sub(PushOut(m, cam, fishPos), fishPos) ==
      Scale(Sub(cam, fishPos), CameraCollisionRadius / Distance(m, cam, fishPos))
  {
    var v := Sub(cam, fishPos);
    DistanceCompare(m, cam, fishPos, CameraCollisionRadius);
    NormalizeUnit(m, v);
    var n := Normalize(m, v);
    var r := PushOut(m, cam, fishPos);
    assert r == Add(fishPos, Scale(n, CameraCollisionRadius));
    assert Sub(r, fishPos) == Scale(n, CameraCollisionRadius);
    ScaleNorm2(n, CameraCollisionRadius);
    assert Norm2(Sub(r, fishPos)) == 4.0;
    SquareMono(Distance(m, r, fishPos), CameraCollisionRadius);
  }

  /** A camera at or beyond the radius is left where it is. */
  lemma PushOutFar(m: MathLib, cam: Vec3, fishPos: Vec3)
    requires Valid(m)
    requires Dist2(cam, fishPos) >= CameraCollisionRadius * CameraCollisionRadius
    ensures PushOut(m, cam, fishPos) == cam
  {
    DistanceCompare(m, cam, fishPos, CameraCollisionRadius);
  }

  /** A camera exactly at a fish's centre is not moved (the zero vector normalises to zero). */
  lemma PushOutCentre(m: MathLib, fishPos: Vec3)
    requires Valid(m)
    ensures PushOut(m, fishPos, fishPos) == fishPos
  {
    assert Sub(fishPos, fishPos) == Zero;
    assert Length(m, Zero) == 0.0;
    assert Normalize(m, Zero) == Zero;
    assert Add(fishPos, Scale(Zero, CameraCollisionRadius)) == fishPos;
  }

  /** preventCameraThroughFish: the push-outs of all fish, in list order. */
  function PushOutAll(m: MathLib, cam: Vec3, fish: seq<Agent>): Vec3
    decreases |fish|
  {
    if fish == [] then cam
    else PushOut(m, PushOutAll(m, cam, fish[..|fish| - 1]), fish[|fish| - 1].pos)
  }

  /** No fish within the radius: the camera does not move. */
  lemma {:induction false} PushOutAllFar(m: MathLib, cam: Vec3, fish: seq<Agent>)
    requires Valid(m)
    requires forall i :: 0 <= i < |fish| ==> Dist2(cam, fish[i].pos) >= CameraCollisionRadius * CameraCollisionRadius
    ensures PushOutAll(m, cam, fish) == cam
    decreases |fish|
  {
    if fish != [] {
      PushOutAllFar(m, cam, fish[..|fish| - 1]);
      PushOutFar(m, cam, fish[|fish| - 1].pos);
    }
  }

  /**
   * After the pass the camera is outside the radius of the last fish checked,
   * unless it sits exactly at that fish's centre.
   */
  lemma PushOutAllLast(m: MathLib, cam: Vec3, fish: seq<Agent>)
    requires Valid(m) && fish != []
    ensures var r := PushOutAll(m, cam, fish);
      var d := Dist2(r, fish[|fish| - 1].pos);
      d >= CameraCollisionRadius * CameraCollisionRadius || d == 0.0
  {
    var c := PushOutAll(m, cam, fish[..|fish| - 1]);
    var f := fish[|fish| - 1].pos;
    if Dist2(c, f) >= CameraCollisionRadius * CameraCollisionRadius {
      PushOutFar(m, c, f);
    } else if Dist2(c, f) > 0.0 {
      PushOutToRadius(m, c, f);
      DistanceCompare(m, PushOut(m, c, f), f, CameraCollisionRadius);
    } else {
      var v := Sub(c, f);
      NormalizeZero(m, v);
      LengthZero(m, v);
      assert PushOut(m, c, f) == Add(f, Scale(v, CameraCollisionRadius));
      assert Sub(PushOut(m, c, f), f) == Scale(v, CameraCollisionRadius);
      ScaleNorm2(v, CameraCollisionRadius);
    }
  }

  function PushOutTick(m: MathLib, g: Game): Game {
    g.(player := g.player.(pos := PushOutAll(m, g.player.pos, g.scene.fishData)))
  }

  method PreventCameraThroughFish(w: World, m: MathLib)
    modifies w
    ensures w.Snap() == PushOutTick(m, old(w.Snap()))
  {
    var fish := w.scene.fishData;
    for i := 0 to |fish|
      invariant w.Snap() == old(w.Snap()).(player := old(w.Snap()).player.(pos := PushOutAll(m, old(w.player.pos), fish[..i])))
    {
      var fishPos := fish[i].pos;
      var toCamera := Sub(w.player.pos, fishPos);
      var distance := Length(m, toCamera);
      if distance < CameraCollisionRadius {
        var pushDir := Normalize(m, toCamera);
        w.player := w.player.(pos := Add(fishPos, Scale(pushDir, CameraCollisionRadius)));
      }
      assert fish[..i + 1][..i] == fish[..i];
    }
    assert fish[..|fish|] == fish;
  }

  // ---------------------------------------------------------------- updateCamera

  /** The velocity update at the start of updateCamera, at the speed before this frame's boost update. */
  function VelocityTick(m: MathLib, g: Game): Game {
    var move := MoveInput(m, g.player.keys, g.player.yaw);
    g.(player := g.player.(velocity := NewVelocity(m, move, g.player.velocity, CurrentSpeed(g.meters.boostActive))))
  }

  /** The position update of updateCamera: integrate the velocity, then clamp. */
  function MoveTick(m: MathLib, g: Game, dt: real): Game {
    g.(player := g.player.(pos := ClampPosition(m, Add(g.player.pos, Scale(g.player.velocity, dt)))))
  }

  /** updateCamera on the whole game state. */
  function CameraTick(m: MathLib, g: Game, dt: real): Game {
    PushOutTick(m, MoveTick(m, BoostTick(VelocityTick(m, g), dt), dt))
  }

  /** updateCamera: velocity from the keys, boost, movement, clamps, then the fish push-out. */
  method UpdateCamera(w: World, m: MathLib, dt: real)
    modifies w
    ensures w.Snap() == CameraTick(m, old(w.Snap()), dt)
  {
    var move := MoveInput(m, w.player.keys, w.player.yaw);
    if Length(m, move) > 0.0 {
      w.player := w.player.(velocity := Scale(Normalize(m, move), CurrentSpeed(w.meters.boostActive)));
    } else {
      w.player := w.player.(velocity := Scale(w.player.velocity, Friction));
    }
    assert w.Snap() == VelocityTick(m, old(w.Snap()));
    UpdateBoost(w, dt);
    ghost var boosted := w.Snap();
    w.player := w.player.(pos := Add(w.player.pos, Scale(w.player.velocity, dt)));
    var terrainY := TerrainHeight(m, w.player.pos.x, w.player.pos.z);
    if w.player.pos.y < terrainY + 0.5 {
      w.player := w.player.(pos := w.player.pos.(y := terrainY + 0.5));
    }
    var halfSize := TerrainSize / 2.0 - 1.0;
    w.player := w.player.(pos := w.player.pos.(x := Clamp(w.player.pos.x, -halfSize, halfSize)));
    w.player := w.player.(pos := w.player.pos.(z := Clamp(w.player.pos.z, -halfSize, halfSize)));
    w.player := w.player.(pos := w.player.pos.(y := Min(w.player.pos.y, GlassHeight - 1.0)));
    assert w.Snap() == MoveTick(m, boosted, dt);
    PreventCameraThroughFish(w, m);
  }

  // ---------------------------------------------------------------- keys and mouse

  /** The pitch limits: just short of straight up and straight down. */
  function PitchClamp(m: MathLib, pitch: real): (r: real)
    ensures Valid(m) ==> -m.pi / 2.0 + 0.01 <= r <= m.pi / 2.0 - 0.01
    ensures -m.pi / 2.0 + 0.01 <= pitch <= m.pi / 2.0 - 0.01 ==> r == pitch
    ensures Valid(m) && pitch > m.pi / 2.0 - 0.01 ==> r == m.pi / 2.0 - 0.01
    ensures Valid(m) && pitch < -m.pi / 2.0 + 0.01 ==> r == -m.pi / 2.0 + 0.01
  {
    Max(-m.pi / 2.0 + 0.01, Min(m.pi / 2.0 - 0.01, pitch))
  }

  /** The mousemove listener on the game state (the quaternion it builds is not modelled). */
  function MouseTick(m: MathLib, g: Game, movementX: real, movementY: real): Game {
    g.(player := g.player.(yaw := g.player.yaw - movementX * Sensitivity,
                           pitch := PitchClamp(m, g.player.pitch - movementY * Sensitivity)))
  }

  method MouseMove(w: World, m: MathLib, movementX: real, movementY: real)
    modifies w
    ensures w.Snap() == MouseTick(m, old(w.Snap()), movementX, movementY)
  {
    w.player := w.player.(yaw := w.player.yaw - movementX * Sensitivity);
    w.player := w.player.(pitch := w.player.pitch - movementY * Sensitivity);
    w.player := w.player.(pitch := Max(-m.pi / 2.0 + 0.01, Min(m.pi / 2.0 - 0.01, w.player.pitch)));
  }

  /** The keydown listener of controls.js. */
  method SetKeyDown(w: World, code: string)
    modifies w
    ensures w.Snap() == old(w.Snap()).(player := old(w.Snap()).player.(keys := old(w.player.keys) + {code}))
  {
    w.player := w.player.(keys := w.player.keys + {code});
  }

  /** The keyup listener of controls.js. */
  method SetKeyUp(w: World, code: string)
    modifies w
    ensures w.Snap() == old(w.Snap()).(player := old(w.Snap()).player.(keys := old(w.player.keys) - {code}))
  {
    w.player := w.player.(keys := w.player.keys - {code});
  }
}
