/**
 * The game's global state. The original keeps it in top-level `let`/`const`
 * bindings spread over app.js, gui.js, interactions.js, controls.js and
 * models.js; here it is one `World` object whose fields are those globals, and
 * `World.Snap()` is the value of all of them at once, against which every
 * operation is specified.
 */
module State {
  import opened Geometry

  // Constants of app.js.
  const OxygenDrainRate: real := 5.0
  const OxygenRefillRate: real := 25.0
  const HealthLossOnNoOxygen: real := 10.0
  const TerrainSize: real := 200.0
  const StartY: real := 41.0

  // Constants of gui.js.
  const MaxHealth: real := 100.0
  const MaxOxygen: real := 100.0
  const MaxBoost: real := 5.0
  const BoostConsumeRate: real := 1.5
  const BoostRecoverRate: real := 0.5

  // Constants of interactions.js.
  const SharkDamageCooldown: real := 0.5
  const SharkDamage: real := 20.0
  const SharkAttackRadius: real := 25.0
  const SharkAttackSpeedMult: real := 5.0
  const FishPickupRadius: real := 5.0

  // Constants of controls.js.
  const CameraSpeed: real := 10.0
  const CameraCollisionRadius: real := 2.0

  /** Where the player starts and where a reset puts them back. */
  const StartPosition := Vec3(0.0, StartY, 0.0)

  /** Fog colour and density of the scene's FogExp2. */
  datatype Fog = Fog(color: int, density: real)

  const InitialFog := Fog(0xa0e0ff, 0.02)

  /**
   * The instance record of a fish or a shark made by spawnClones
   * (the mesh is reduced to its position and scale).
   */
  datatype Agent = Agent(name: string, pos: Vec3, scale: real, speed: real, targetDir: Vec3,
                         changeTimer: real, baseSpeed: real)

  /** One fish badge of the HUD: the species it shows and its row from the top. */
  datatype HudBox = HudBox(name: string, slot: nat)

  /** A texture handed over by the loader, known only by its identity. */
  type Texture = nat

  /** The loading screen (app.js). */
  datatype Loading = Loading(progress: real, complete: bool, barScale: real)

  /** The camera and the input that steers it (app.js, controls.js). */
  datatype Player = Player(pos: Vec3, velocity: Vec3, yaw: real, pitch: real, keys: set<string>)

  /** The three meters and their bars (gui.js). */
  datatype Meters = Meters(health: real, oxygen: real, boost: real, boostActive: bool, canBoost: bool,
                           healthBar: real, oxygenBar: real, boostBar: real)

  /** The HUD scene and the fish badges on it (gui.js). */
  datatype Hud = Hud(scene: bool, fishGroup: bool, fishTypes: set<string>, fishBoxes: seq<HudBox>,
                     textures: map<string, Texture>, pending: seq<HudBox>, planes: seq<HudBox>,
                     victoryShown: bool, controlsEnabled: bool)

  /** The rule state of interactions.js, with the game-over flag of app.js. */
  datatype Rules = Rules(gameOver: bool, sharkDamageTimer: real, fog: Fog, savedFog: Option<Fog>,
                         retryShown: bool, victoryTriggered: bool, collectedFish: seq<Agent>)

  /** The loaded models and the spawned creatures (models.js). */
  datatype Scene = Scene(models: map<string, Vec3>, fishData: seq<Agent>, sharkData: seq<Agent>)

  datatype Game = Game(loading: Loading, player: Player, meters: Meters, hud: Hud, rules: Rules, scene: Scene)

  datatype Option<T> = None | Some(value: T)

  /** The state once the scripts have run and before anything has loaded. */
  const Initial := Game(
    Loading(0.0, false, 0.0),
    Player(StartPosition, Zero, 0.0, 0.0, {}),
    Meters(MaxHealth, MaxOxygen, MaxBoost, false, true, 1.0, 1.0, 1.0),
    Hud(false, false, {}, [], map[], [], [], false, true),
    Rules(false, 0.0, InitialFog, None, false, false, []),
    Scene(map[], [], []))

  /**
   * The globals, grouped as in Game: each field holds the globals of one part
   * of the game (for example `meters` holds playerHealth, playerOxygen,
   * playerBoost, boostActive, canBoost and the three bars' scales).
   */
  class World {
    var loading: Loading
    var player: Player
    var meters: Meters
    var hud: Hud
    var rules: Rules
    var scene: Scene

    function Snap(): Game
      reads this
    {
      Game(loading, player, meters, hud, rules, scene)
    }

    constructor ()
      ensures Snap() == Initial
    {
      loading, player, meters, hud, rules, scene :=
        Initial.loading, Initial.player, Initial.meters, Initial.hud, Initial.rules, Initial.scene;
    }
  }
}
