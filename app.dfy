/**
 * app.js: the loading bar, the end of loading, and the per-frame tick of
 * `animate` with its gating on loadingComplete and gameOver and its order of
 * updates. The fog switch of updateUnderwaterEffect (environment.js), which
 * the tick calls, is modelled here as well.
 */
module App {
  import opened Geometry
  import opened State
  import opened Controls
  import opened Gui
  import opened Interactions
  import opened Models

  // ---------------------------------------------------------------- loading screen

  /** updateLoadingBar: the progress reported by the loading manager, clamped to [0, 1]. */
  function LoadingBarStep(g: Game, progress: real): (r: Game)
    ensures 0.0 <= r.loading.progress <= 1.0
    ensures 0.0 <= progress <= 1.0 ==> r.loading.progress == progress
    ensures progress < 0.0 ==> r.loading.progress == 0.0
    ensures progress > 1.0 ==> r.loading.progress == 1.0
    ensures r == g.(loading := g.loading.(progress := r.loading.progress))
  {
    g.(loading := g.loading.(progress := Clamp(progress, 0.0, 1.0)))
  }

  method UpdateLoadingBar(w: World, progress: real)
    modifies w
    ensures w.Snap() == LoadingBarStep(old(w.Snap()), progress)
  {
    w.loading := w.loading.(progress := Clamp(progress, 0.0, 1.0));
  }

  /** The easing of renderLoadingScreen: the bar closes a tenth of its gap to the progress. */
  function Ease(scale: real, progress: real): (r: real)
    ensures scale <= progress ==> scale <= r <= progress
    ensures progress <= scale ==> progress <= r <= scale
    ensures r - progress == 0.9 * (scale - progress)
  {
    scale + (progress - scale) * 0.1
  }

  /** Easing never leaves [0, 1] once the bar and the progress are in it. */
  lemma EaseInUnit(scale: real, progress: real)
    requires 0.0 <= scale <= 1.0 && 0.0 <= progress <= 1.0
    ensures 0.0 <= Ease(scale, progress) <= 1.0
  {
    if scale <= progress {
      assert scale <= Ease(scale, progress) <= progress;
    } else {
      assert progress <= Ease(scale, progress) <= scale;
    }
  }

  function LoadingScreenStep(g: Game): Game {
    g.(loading := g.loading.(barScale := Ease(g.loading.barScale, g.loading.progress)))
  }

  method RenderLoadingScreen(w: World)
    modifies w
    ensures w.Snap() == LoadingScreenStep(old(w.Snap()))
  {
    w.loading := w.loading.(barScale := w.loading.barScale + (w.loading.progress - w.loading.barScale) * 0.1);
  }

  // ---------------------------------------------------------------- fog

  const UnderwaterFog := Fog(0x66ccff, 0.02)
  const AboveWaterFog := Fog(0xa0e0ff, 0.002)

  /** updateUnderwaterEffect: the fog follows whether the camera is below the water line. */
  function UnderwaterTick(g: Game): (r: Game)
    ensures g.player.pos.y < WaterSurfaceY ==> r.rules.fog == UnderwaterFog
    ensures g.player.pos.y >= WaterSurfaceY ==> r.rules.fog == AboveWaterFog
    ensures r == g.(rules := g.rules.(fog := r.rules.fog))
  {
    g.(rules := g.rules.(fog := if g.player.pos.y < WaterSurfaceY then UnderwaterFog else AboveWaterFog))
  }

  method UpdateUnderwaterEffect(w: World)
    modifies w
    ensures w.Snap() == UnderwaterTick(old(w.Snap()))
  {
    var maxWaterHeight := 40.0;
    if w.player.pos.y < maxWaterHeight {
      w.rules := w.rules.(fog := UnderwaterFog);
    } else {
      w.rules := w.rules.(fog := AboveWaterFog);
    }
  }

  /**
   * The end of loading: loadingComplete is set and loadScene runs, creating
   * the HUD scene and its fish group and setting the fog for the camera.
   */
  function LoadingFinishedStep(g: Game): (r: Game)
    ensures r.loading.complete && r.hud.scene && r.hud.fishGroup
    ensures r == UnderwaterTick(g.(loading := g.loading.(complete := true), hud := g.hud.(scene := true, fishGroup := true)))
  {
    UnderwaterTick(g.(loading := g.loading.(complete := true), hud := g.hud.(scene := true, fishGroup := true)))
  }

  method LoadingFinished(w: World)
    modifies w
    ensures w.Snap() == LoadingFinishedStep(old(w.Snap()))
  {
    w.loading := w.loading.(complete := true);
    w.hud := w.hud.(scene := true);
    w.hud := w.hud.(fishGroup := true);
    UpdateUnderwaterEffect(w);
  }

  // ---------------------------------------------------------------- the tick

  /**
   * What one frame takes from outside: clock.getDelta(), Date.now(), the
   * Math.random values drawn by the fish and by the sharks, and the test of
   * a shark's bounding box against the camera's.
   */
  datatype Frame = Frame(dt: real, now: real, fishRand: nat -> real, sharkRand: nat -> real,
                         overlap: (Vec3, Agent) -> bool)

  /** The updates of a frame in which the game is running, in the order animate makes them. */
  function PlayStep(m: MathLib, g: Game, f: Frame): Game {
    var g1 := PushOutTick(m, g);
    var g2 := FishTick(m, g1, f.dt, f.now, f.fishRand);
    var g3 := SharkTick(m, g2, f.dt, f.now, f.sharkRand);
    var g4 := UnderwaterTick(g3);
    var g5 := OxygenTick(g4, f.dt);
    var g6 := DamageTick(g5, f.overlap, f.dt);
    var g7 := BoostTick(g6, f.dt);
    CameraTick(m, g7, f.dt)
  }

  /** The updates of every frame after loading, game over or not. */
  function CheckStep(m: MathLib, g: Game): Game {
    HudFishTick(Hud2DTick(VictoryStep(m, GameOverStep(g))))
  }

  /** animate: the loading screen until loading completes; then the running updates unless the game is over, then the checks. */
  function Tick(m: MathLib, g: Game, f: Frame): Game {
    if !g.loading.complete then LoadingScreenStep(g)
    else CheckStep(m, if g.rules.gameOver then g else PlayStep(m, g, f))
  }

  method Animate(w: World, m: MathLib, f: Frame)
    modifies w
    ensures w.Snap() == Tick(m, old(w.Snap()), f)
  {
    if !w.loading.complete {
      RenderLoadingScreen(w);
      return;
    }
    var dt := f.dt;
    if !w.rules.gameOver {
      PreventCameraThroughFish(w, m);
      UpdateAllFish(w, m, dt, f.now, f.fishRand);
      UpdateAllSharks(w, m, dt, f.now, f.sharkRand);
      UpdateUnderwaterEffect(w);
      UpdatePlayerOxygen(w, dt);
      UpdateSharkDamage(w, f.overlap, dt);
      UpdateBoost(w, dt);
      UpdateCamera(w, m, dt);
    }
    assert w.Snap() == if old(w.rules.gameOver) then old(w.Snap()) else PlayStep(m, old(w.Snap()), f);
    CheckGameOver(w);
    CheckTotemVictory(w, m);
    UpdateHUD2D(w);
    UpdateHUDFish(w);
  }

  // ---------------------------------------------------------------- properties of the tick

  /** Before loading completes a frame only eases the loading bar. */
  lemma NothingBeforeLoading(m: MathLib, g: Game, f: Frame)
    requires !g.loading.complete
    ensures Tick(m, g, f) == g.(loading := g.loading.(barScale := Tick(m, g, f).loading.barScale))
  {
  }

  /**
   * While the game is over nothing moves and no meter changes: the camera,
   * its velocity, the fish, the sharks and the three meters stay as they
   * are, though the checks still run.
   */
  lemma GameOverFreezes(m: MathLib, g: Game, f: Frame)
    requires g.loading.complete && g.rules.gameOver
    ensures var r := Tick(m, g, f);
      && r.player == g.player && r.scene == g.scene
      && r.meters.health == g.meters.health && r.meters.oxygen == g.meters.oxygen
      && r.meters.boost == g.meters.boost && r.meters.boostActive == g.meters.boostActive
      && r.rules.sharkDamageTimer == g.rules.sharkDamageTimer && r.rules.collectedFish == g.rules.collectedFish
  {
  }

  /**
   * A species caught in this frame is not yet counted by the victory check,
   * which reads the HUD's species before updateHUDFish adds it.
   */
  lemma VictoryLagsCatch(m: MathLib, g: Game, f: Frame)
    requires g.loading.complete && !g.rules.victoryTriggered && |g.hud.fishTypes| < 2
    ensures !Tick(m, g, f).rules.victoryTriggered
  {
    var g1 := if g.rules.gameOver then g else PlayStep(m, g, f);
    assert g1.hud == g.hud && g1.rules.victoryTriggered == g.rules.victoryTriggered;
  }

  /** The order of the running updates: updateBoost is called twice, once directly and once in updateCamera. */
  lemma BoostTwice(m: MathLib, g: Game, f: Frame)
    requires g.loading.complete && !g.rules.gameOver
    ensures BoostOf(Tick(m, g, f).meters) == BoostStep(BoostStep(BoostOf(g.meters), ShiftHeld(g.player.keys), f.dt), ShiftHeld(g.player.keys), f.dt)
  {
  }

  /** What every frame keeps: meters in range, a consistent boost, a saved fog whenever the game is over, and the badge bookkeeping. */
  ghost predicate GameInv(g: Game) {
    && MetersInRange(g.meters)
    && BoostInv(BoostOf(g.meters))
    && (g.rules.gameOver ==> g.rules.savedFog.Some?)
    && HudInv(g.hud)
  }

  lemma InitialInv()
    ensures GameInv(Initial)
  {
    InitialHudInv();
  }

  lemma PlayStepInv(m: MathLib, g: Game, f: Frame)
    requires GameInv(g) && f.dt >= 0.0
    ensures GameInv(PlayStep(m, g, f))
  {
    var g1 := PushOutTick(m, g);
    var g3 := SharkTick(m, FishTick(m, g1, f.dt, f.now, f.fishRand), f.dt, f.now, f.sharkRand);
    var g4 := UnderwaterTick(g3);
    assert g4.meters == g.meters && g4.hud == g.hud && g4.rules.gameOver == g.rules.gameOver;
    assert g4.rules.savedFog == g.rules.savedFog;
    MetersStayInRange(g4, f.overlap, f.dt);
    var g6 := DamageTick(OxygenTick(g4, f.dt), f.overlap, f.dt);
    var g7 := BoostTick(g6, f.dt);
    assert BoostOf(g6.meters) == BoostOf(g.meters);
    assert BoostInv(BoostOf(g7.meters));
    var g8 := CameraTick(m, g7, f.dt);
    assert g8.meters == BoostTick(g7, f.dt).meters;
  }

  lemma CheckStepInv(m: MathLib, g: Game)
    requires GameInv(g)
    ensures GameInv(CheckStep(m, g))
  {
    var g1 := VictoryStep(m, GameOverStep(g));
    assert g1.meters == g.meters && g1.hud.fishTypes == g.hud.fishTypes;
    assert HudInv(g1.hud);
    var g2 := Hud2DTick(g1);
    if g2.hud.fishGroup {
      HudFishAllInv(g2.hud, g2.rules.collectedFish);
    }
  }

  /** Every frame keeps the invariant. */
  lemma TickInv(m: MathLib, g: Game, f: Frame)
    requires GameInv(g) && f.dt >= 0.0
    ensures GameInv(Tick(m, g, f))
  {
    if g.loading.complete {
      if !g.rules.gameOver {
        PlayStepInv(m, g, f);
      }
      CheckStepInv(m, if g.rules.gameOver then g else PlayStep(m, g, f));
    }
  }

  /** The R key keeps the invariant, and the invariant is what makes its reset well defined. */
  lemma PressRInv(g: Game)
    requires GameInv(g)
    ensures GameInv(PressRStep(g))
  {
  }

  // ---------------------------------------------------------------- every event

  /**
   * Everything that changes the game state: a frame of animate, the key and
   * mouse listeners, the R and F listeners, a finished HUD texture load, the
   * loading manager's progress and completion, a loaded model and a call of
   * spawnClones.
   */
  datatype Event =
    | FrameEvent(f: Frame)
    | KeyDown(code: string)
    | KeyUp(code: string)
    | MouseMoved(movementX: real, movementY: real)
    | PressRKey
    | PressFKey
    | TextureArrived(i: nat, tex: Texture)
    | LoadProgress(progress: real)
    | LoadComplete
    | ModelArrived(name: string, axis: Vec3)
    | Spawn(name: string, count: nat, positionFn: Option<nat -> Vec3>, opts: CloneOptions, rand: nat -> real)

  /** A frame's delta time is never negative. */
  predicate WellFormed(e: Event) {
    e.FrameEvent? ==> e.f.dt >= 0.0
  }

  /** The state after one event. A texture load that is not outstanding cannot complete. */
  function Step(m: MathLib, g: Game, e: Event): Game
    requires e.PressRKey? && g.rules.gameOver ==> g.rules.savedFog.Some?
  {
    match e
    case FrameEvent(f) => Tick(m, g, f)
    case KeyDown(code) => g.(player := g.player.(keys := g.player.keys + {code}))
    case KeyUp(code) => g.(player := g.player.(keys := g.player.keys - {code}))
    case MouseMoved(dx, dy) => MouseTick(m, g, dx, dy)
    case PressRKey => PressRStep(g)
    case PressFKey => CatchStep(m, g)
    case TextureArrived(i, tex) => if i < |g.hud.pending| then g.(hud := LoadDone(g.hud, i, tex)) else g
    case LoadProgress(p) => LoadingBarStep(g, p)
    case LoadComplete => LoadingFinishedStep(g)
    case ModelArrived(name, axis) => ModelLoadedStep(m, g, name, axis)
    case Spawn(name, count, positionFn, opts, rand) => SpawnStep(m, g, name, count, positionFn, opts, rand)
  }

  /** Every event keeps the game invariant. */
  lemma EventInv(m: MathLib, g: Game, e: Event)
    requires GameInv(g) && WellFormed(e)
    ensures GameInv(Step(m, g, e))
  {
    match e
    case FrameEvent(f) => TickInv(m, g, f);
    case PressRKey => PressRInv(g);
    case TextureArrived(i, tex) =>
      if i < |g.hud.pending| {
        LoadDoneInv(g.hud, i, tex);
      }
    case _ =>
  }

  /** The state after a sequence of events; every state on the way satisfies the invariant. */
  ghost function Run(m: MathLib, g: Game, events: seq<Event>): (r: Game)
    requires GameInv(g) && forall i :: 0 <= i < |events| ==> WellFormed(events[i])
    ensures GameInv(r)
    decreases |events|
  {
    if events == [] then g
    else
      EventInv(m, g, events[0]);
      Run(m, Step(m, g, events[0]), events[1..])
  }

  /** Every state the game can reach from its start satisfies the invariant, so R always has a fog to restore. */
  lemma ReachableInv(m: MathLib, events: seq<Event>)
    requires forall i :: 0 <= i < |events| ==> WellFormed(events[i])
    ensures GameInv(Run(m, Initial, events))
    ensures Run(m, Initial, events).rules.gameOver ==> Run(m, Initial, events).rules.savedFog.Some?
  {
    InitialInv();
  }
}
