/**
 * models.js: the forward axes of loaded models, the records spawnClones
 * creates for fish and sharks, and the plant layout of spawnPlantGroups.
 * Meshes, materials, bounding boxes and animation mixers are not modelled;
 * an Agent keeps a clone's position and scale. Math.random is the stream
 * `rand`, holding the draws that set each record, in source order.
 */
module Models {
  import opened Geometry
  import opened State
  import opened Controls

  /** The `??` operator on an option of spawnClones or spawnPlantGroups. */
  function OrDefault(o: Option<real>, d: real): (r: real)
    ensures o.None? ==> r == d
    ensures o.Some? ==> r == o.value
  {
    match o
    case None => d
    case Some(v) => v
  }

  /** The options of spawnClones; a missing option is None. */
  datatype CloneOptions = CloneOptions(scaleMin: Option<real>, scaleMax: Option<real>, baseSpeed: Option<real>)

  /** What the loader's success callback records: the model, with its forward axis normalized. */
  function ModelLoadedStep(m: MathLib, g: Game, name: string, axis: Vec3): (r: Game)
    ensures r.scene.models == g.scene.models[name := Normalize(m, axis)]
    ensures r == g.(scene := g.scene.(models := r.scene.models))
  {
    g.(scene := g.scene.(models := g.scene.models[name := Normalize(m, axis)]))
  }

  /** A loaded model's axis is a unit vector whenever the axis given is not zero. */
  lemma LoadedAxisUnit(m: MathLib, g: Game, name: string, axis: Vec3)
    requires Valid(m) && Norm2(axis) > 0.0
    ensures Norm2(ModelLoadedStep(m, g, name, axis).scene.models[name]) == 1.0
  {
    NormalizeUnit(m, axis);
  }

  method ModelLoaded(w: World, m: MathLib, name: string, axis: Vec3)
    modifies w
    ensures w.Snap() == ModelLoadedStep(m, old(w.Snap()), name, axis)
  {
    w.scene := w.scene.(models := w.scene.models[name := Normalize(m, axis)]);
  }

  /** Number of random values one clone draws: scale, x, y, z, speed, change timer. */
  const DrawsPerClone: nat := 6

  /**
   * The record of the i-th clone. Its six draws start at 6i. The three
   * position draws are made even when a position function is supplied.
   */
  function CloneAt(m: MathLib, name: string, forward: Vec3, positionFn: Option<nat -> Vec3>,
                   sMin: real, sMax: real, baseSpeed: real, rand: nat -> real, i: nat): Agent
  {
    var k := DrawsPerClone * i;
    var scale := sMin + rand(k) * (sMax - sMin);
    var x := (rand(k + 1) * 2.0 - 1.0) * 50.0;
    var y := rand(k + 2) * 20.0 + 5.0;
    var z := (rand(k + 3) * 2.0 - 1.0) * 50.0;
    var pos := match positionFn case Some(f) => f(i) case None => Vec3(x, y, z);
    Agent(name, pos, scale, baseSpeed * (0.8 + rand(k + 4) * 0.4), Normalize(m, forward),
          2.0 + rand(k + 5) * 2.0, baseSpeed)
  }

  /** For a draw r in [0, 1), lo + r * (hi - lo) lies in [lo, hi). */
  lemma DrawInRange(r: real, lo: real, hi: real)
    requires 0.0 <= r < 1.0 && lo < hi
    ensures lo <= lo + r * (hi - lo) < hi
  {
    var a := 1.0 - r;
    var d := hi - lo;
    MulPos(a, d);
    assert hi - a * d < hi;
    assert lo + r * d == hi - a * d;
    if r > 0.0 {
      MulPos(r, d);
    }
  }

  /** The six draws of clone i all lie in [0, 1). */
  ghost predicate DrawsValid(rand: nat -> real, i: nat) {
    forall k :: DrawsPerClone * i <= k < DrawsPerClone * i + DrawsPerClone ==> 0.0 <= rand(k) < 1.0
  }

  /** The ranges of a new record, for draws in [0, 1). */
  lemma CloneRanges(m: MathLib, name: string, forward: Vec3, positionFn: Option<nat -> Vec3>,
                    sMin: real, sMax: real, baseSpeed: real, rand: nat -> real, i: nat)
    requires DrawsValid(rand, i)
    ensures var a := CloneAt(m, name, forward, positionFn, sMin, sMax, baseSpeed, rand, i);
      && a.name == name && a.baseSpeed == baseSpeed && a.targetDir == Normalize(m, forward)
      && 2.0 <= a.changeTimer < 4.0
      && (baseSpeed > 0.0 ==> 0.8 * baseSpeed <= a.speed < 1.2 * baseSpeed)
      && (sMin < sMax ==> sMin <= a.scale < sMax)
      && (positionFn.None? ==> -50.0 <= a.pos.x < 50.0 && 5.0 <= a.pos.y < 25.0 && -50.0 <= a.pos.z < 50.0)
      && (positionFn.Some? ==> a.pos == positionFn.value(i))
  {
    var k := DrawsPerClone * i;
    assert 0.0 <= rand(k) < 1.0 && 0.0 <= rand(k + 1) < 1.0 && 0.0 <= rand(k + 2) < 1.0;
    assert 0.0 <= rand(k + 3) < 1.0 && 0.0 <= rand(k + 4) < 1.0 && 0.0 <= rand(k + 5) < 1.0;
    DrawInRange(rand(k + 5), 2.0, 4.0);
    DrawInRange(rand(k + 1), -50.0, 50.0);
    DrawInRange(rand(k + 2), 5.0, 25.0);
    DrawInRange(rand(k + 3), -50.0, 50.0);
    if sMin < sMax {
      DrawInRange(rand(k), sMin, sMax);
    }
    if baseSpeed > 0.0 {
      DrawInRange(rand(k + 4), 0.8 * baseSpeed, 1.2 * baseSpeed);
      assert baseSpeed * (0.8 + rand(k + 4) * 0.4)
          == 0.8 * baseSpeed + rand(k + 4) * (1.2 * baseSpeed - 0.8 * baseSpeed);
    }
  }

  /** The records of the first n clones, in spawning order. */
  function Clones(m: MathLib, name: string, forward: Vec3, positionFn: Option<nat -> Vec3>,
                  sMin: real, sMax: real, baseSpeed: real, rand: nat -> real, n: nat): (r: seq<Agent>)
    ensures |r| == n
    ensures forall i :: 0 <= i < n ==> r[i] == CloneAt(m, name, forward, positionFn, sMin, sMax, baseSpeed, rand, i)
  {
    if n == 0 then []
    else Clones(m, name, forward, positionFn, sMin, sMax, baseSpeed, rand, n - 1)
         + [CloneAt(m, name, forward, positionFn, sMin, sMax, baseSpeed, rand, n - 1)]
  }

  /** Sharks go to sharkData and every other species to fishData. */
  predicate IsShark(name: string) { name == "shark" }

  /** spawnClones: nothing for a model not loaded yet, otherwise `count` records on the list of the species. */
  function SpawnStep(m: MathLib, g: Game, name: string, count: nat, positionFn: Option<nat -> Vec3>,
                     opts: CloneOptions, rand: nat -> real): (r: Game)
    ensures name !in g.scene.models ==> r == g
    ensures name in g.scene.models && IsShark(name) ==>
      && |r.scene.sharkData| == |g.scene.sharkData| + count
      && r.scene.sharkData[..|g.scene.sharkData|] == g.scene.sharkData
      && r == g.(scene := g.scene.(sharkData := r.scene.sharkData))
    ensures name in g.scene.models && !IsShark(name) ==>
      && |r.scene.fishData| == |g.scene.fishData| + count
      && r.scene.fishData[..|g.scene.fishData|] == g.scene.fishData
      && r == g.(scene := g.scene.(fishData := r.scene.fishData))
    // every record added is named after the model and uses its current axis and the options
    ensures name in g.scene.models ==>
      var added := if IsShark(name) then r.scene.sharkData[|g.scene.sharkData|..] else r.scene.fishData[|g.scene.fishData|..];
      added == Clones(m, name, g.scene.models[name], positionFn, OrDefault(opts.scaleMin, 0.1),
                      OrDefault(opts.scaleMax, 0.2), OrDefault(opts.baseSpeed, 1.0), rand, count)
  {
    if name !in g.scene.models then g
    else
      var added := Clones(m, name, g.scene.models[name], positionFn, OrDefault(opts.scaleMin, 0.1),
                          OrDefault(opts.scaleMax, 0.2), OrDefault(opts.baseSpeed, 1.0), rand, count);
      if IsShark(name) then g.(scene := g.scene.(sharkData := g.scene.sharkData + added))
      else g.(scene := g.scene.(fishData := g.scene.fishData + added))
  }

  /** With the default options every new record moves at 0.8 to 1.2 and is scaled 0.1 to 0.2. */
  lemma DefaultCloneRanges(m: MathLib, g: Game, name: string, count: nat, rand: nat -> real, i: nat)
    requires name in g.scene.models && i < count && DrawsValid(rand, i)
    ensures var r := SpawnStep(m, g, name, count, None, CloneOptions(None, None, None), rand);
      var a := if IsShark(name) then r.scene.sharkData[|g.scene.sharkData| + i] else r.scene.fishData[|g.scene.fishData| + i];
      && 0.8 <= a.speed < 1.2 && 0.1 <= a.scale < 0.2 && 2.0 <= a.changeTimer < 4.0 && a.name == name
      && -50.0 <= a.pos.x < 50.0 && 5.0 <= a.pos.y < 25.0 && -50.0 <= a.pos.z < 50.0
  {
    var r := SpawnStep(m, g, name, count, None, CloneOptions(None, None, None), rand);
    var added := if IsShark(name) then r.scene.sharkData[|g.scene.sharkData|..] else r.scene.fishData[|g.scene.fishData|..];
    assert added[i] == CloneAt(m, name, g.scene.models[name], None, 0.1, 0.2, 1.0, rand, i);
    CloneRanges(m, name, g.scene.models[name], None, 0.1, 0.2, 1.0, rand, i);
  }

  /** The loop of spawnClones: `count` new records pushed, in order, onto the list of the species. */
  method PushClones(list: seq<Agent>, m: MathLib, name: string, forward: Vec3, positionFn: Option<nat -> Vec3>,
                    sMin: real, sMax: real, baseSpeed: real, rand: nat -> real, count: nat)
    returns (r: seq<Agent>)
    ensures r == list + Clones(m, name, forward, positionFn, sMin, sMax, baseSpeed, rand, count)
  {
    r := list;
    for i := 0 to count
      invariant r == list + Clones(m, name, forward, positionFn, sMin, sMax, baseSpeed, rand, i)
    {
      var instance := CloneAt(m, name, forward, positionFn, sMin, sMax, baseSpeed, rand, i);
      r := r + [instance];
    }
  }

  method SpawnClones(w: World, m: MathLib, name: string, count: nat, positionFn: Option<nat -> Vec3>,
                     opts: CloneOptions, rand: nat -> real)
    modifies w
    ensures w.Snap() == SpawnStep(m, old(w.Snap()), name, count, positionFn, opts, rand)
  {
    if name !in w.scene.models {
      return;
    }
    var sMin := OrDefault(opts.scaleMin, 0.1);
    var sMax := OrDefault(opts.scaleMax, 0.2);
    var baseSpeed := OrDefault(opts.baseSpeed, 1.0);
    var forward := w.scene.models[name];
    if name == "shark" {
      var sharks := PushClones(w.scene.sharkData, m, name, forward, positionFn, sMin, sMax, baseSpeed, rand, count);
      w.scene := w.scene.(sharkData := sharks);
    } else {
      var fish := PushClones(w.scene.fishData, m, name, forward, positionFn, sMin, sMax, baseSpeed, rand, count);
      w.scene := w.scene.(fishData := fish);
    }
  }

  // ---------------------------------------------------------------- plants

  /** A plant placed by spawnPlantGroups. */
  datatype Plant = Plant(pos: Vec3, scale: real)

  /** Plants keep 2 units away from the terrain's edge. */
  const PlantLimit: real := TerrainSize / 2.0 - 2.0

  /** Random values drawn per group: its centre, then scale and offset for each plant. */
  function GroupDraws(plantsPerGroup: nat): nat { 2 + 3 * plantsPerGroup }

  /** The centre of a group, from the first two of its draws, at `base`. */
  function GroupCentre(rand: nat -> real, base: nat): (real, real) {
    ((rand(base) - 0.5) * (TerrainSize - 2.0 * 2.0), (rand(base + 1) - 0.5) * (TerrainSize - 2.0 * 2.0))
  }

  /** A plant of the group centred at (groupX, groupZ), from its three draws at `k`. */
  function PlantInGroup(m: MathLib, groupX: real, groupZ: real, sMin: real, sMax: real, rand: nat -> real, k: nat): (p: Plant)
    // the position is clamped inside the terrain and set just above its surface
    ensures -PlantLimit <= p.pos.x <= PlantLimit && -PlantLimit <= p.pos.z <= PlantLimit
    ensures p.pos.y == TerrainHeight(m, p.pos.x, p.pos.z) + 0.1
  {
    var scale := sMin + rand(k) * (sMax - sMin);
    var x := Clamp(groupX + (rand(k + 1) - 0.5) * 50.0, -PlantLimit, PlantLimit);
    var z := Clamp(groupZ + (rand(k + 2) - 0.5) * 50.0, -PlantLimit, PlantLimit);
    Plant(Vec3(x, TerrainHeight(m, x, z) + 0.1, z), scale)
  }

  /** The clamp only moves a plant whose offset would leave the terrain. */
  lemma PlantOffsetKept(m: MathLib, groupX: real, groupZ: real, sMin: real, sMax: real, rand: nat -> real, k: nat)
    ensures var p := PlantInGroup(m, groupX, groupZ, sMin, sMax, rand, k);
      var x := groupX + (rand(k + 1) - 0.5) * 50.0;
      var z := groupZ + (rand(k + 2) - 0.5) * 50.0;
      && (-PlantLimit <= x <= PlantLimit ==> p.pos.x == x)
      && (x < -PlantLimit ==> p.pos.x == -PlantLimit) && (x > PlantLimit ==> p.pos.x == PlantLimit)
      && (-PlantLimit <= z <= PlantLimit ==> p.pos.z == z)
      && (z < -PlantLimit ==> p.pos.z == -PlantLimit) && (z > PlantLimit ==> p.pos.z == PlantLimit)
  {
  }

  /** Plant i of group gi: group gi's draws start at gi * GroupDraws, and the plant's 2 + 3i after that. */
  function PlantAt(m: MathLib, plantsPerGroup: nat, sMin: real, sMax: real, rand: nat -> real, gi: nat, i: nat): Plant {
    var base := gi * GroupDraws(plantsPerGroup);
    var centre := GroupCentre(rand, base);
    PlantInGroup(m, centre.0, centre.1, sMin, sMax, rand, base + 2 + 3 * i)
  }

  /** PlantAt is the plant of group gi's centre at its offset in the draws. */
  lemma PlantAtGroup(m: MathLib, plantsPerGroup: nat, sMin: real, sMax: real, rand: nat -> real, gi: nat, i: nat,
                     base: nat, centre: (real, real))
    requires base == gi * GroupDraws(plantsPerGroup) && centre == GroupCentre(rand, base)
    ensures PlantAt(m, plantsPerGroup, sMin, sMax, rand, gi, i)
         == PlantInGroup(m, centre.0, centre.1, sMin, sMax, rand, base + 2 + 3 * i)
  {
  }

  /** The plants of the first `groups` full groups, then the first `n` plants of the next. */
  function PlantsUpTo(m: MathLib, plantsPerGroup: nat, sMin: real, sMax: real, rand: nat -> real,
                      groups: nat, n: nat): (r: seq<Plant>)
    requires n <= plantsPerGroup
    ensures forall j :: 0 <= j < |r| ==>
      -PlantLimit <= r[j].pos.x <= PlantLimit && -PlantLimit <= r[j].pos.z <= PlantLimit
      && r[j].pos.y == TerrainHeight(m, r[j].pos.x, r[j].pos.z) + 0.1
    decreases groups, n
  {
    if n > 0 then PlantsUpTo(m, plantsPerGroup, sMin, sMax, rand, groups, n - 1)
                  + [PlantAt(m, plantsPerGroup, sMin, sMax, rand, groups, n - 1)]
    else if groups > 0 then PlantsUpTo(m, plantsPerGroup, sMin, sMax, rand, groups - 1, plantsPerGroup)
    else []
  }

  /** Every group contributes exactly plantsPerGroup plants. */
  lemma {:induction false} PlantCount(m: MathLib, plantsPerGroup: nat, sMin: real, sMax: real, rand: nat -> real,
                                      groups: nat, n: nat)
    requires n <= plantsPerGroup
    ensures |PlantsUpTo(m, plantsPerGroup, sMin, sMax, rand, groups, n)| == groups * plantsPerGroup + n
    decreases groups, n
  {
    if n > 0 {
      PlantCount(m, plantsPerGroup, sMin, sMax, rand, groups, n - 1);
    } else if groups > 0 {
      PlantCount(m, plantsPerGroup, sMin, sMax, rand, groups - 1, plantsPerGroup);
      assert (groups - 1) * plantsPerGroup + plantsPerGroup == groups * plantsPerGroup;
    }
  }

  /**
   * spawnPlantGroups, returning the plants it adds to the scene: none for a
   * model not loaded yet, otherwise groupCount groups of plantsPerGroup
   * plants, each clamped inside the terrain and resting on it.
   */
  method SpawnPlantGroups(w: World, m: MathLib, name: string, groupCount: nat, plantsPerGroup: nat,
                          scaleMin: Option<real>, scaleMax: Option<real>, rand: nat -> real)
    returns (plants: seq<Plant>)
    ensures name !in w.scene.models ==> plants == []
    ensures name in w.scene.models ==>
      plants == PlantsUpTo(m, plantsPerGroup, OrDefault(scaleMin, 1.0), OrDefault(scaleMax, 2.0), rand, groupCount, 0)
    ensures forall j :: 0 <= j < |plants| ==>
      -PlantLimit <= plants[j].pos.x <= PlantLimit && -PlantLimit <= plants[j].pos.z <= PlantLimit
      && plants[j].pos.y == TerrainHeight(m, plants[j].pos.x, plants[j].pos.z) + 0.1
  {
    plants := [];
    if name !in w.scene.models {
      return;
    }
    var sMin := OrDefault(scaleMin, 1.0);
    var sMax := OrDefault(scaleMax, 2.0);
    for gi := 0 to groupCount
      invariant plants == PlantsUpTo(m, plantsPerGroup, sMin, sMax, rand, gi, 0)
    {
      var base := gi * GroupDraws(plantsPerGroup);
      var centre := GroupCentre(rand, base);
      for i := 0 to plantsPerGroup
        invariant plants == PlantsUpTo(m, plantsPerGroup, sMin, sMax, rand, gi, i)
      {
        var plant := PlantInGroup(m, centre.0, centre.1, sMin, sMax, rand, base + 2 + 3 * i);
        PlantAtGroup(m, plantsPerGroup, sMin, sMax, rand, gi, i, base, centre);
        plants := plants + [plant];
      }
      assert PlantsUpTo(m, plantsPerGroup, sMin, sMax, rand, gi + 1, 0)
          == PlantsUpTo(m, plantsPerGroup, sMin, sMax, rand, gi, plantsPerGroup);
    }
  }
}
