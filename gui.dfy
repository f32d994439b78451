/**
 * gui.js: the meter bars, the HUD's fish badges with their texture cache, and
 * the state flags of the victory screen.
 */
module Gui {
  import opened Geometry
  import opened State

  // ---------------------------------------------------------------- bars

  /** The x scale updateHUD2D gives a bar: the meter's fraction of its maximum, never negative. */
  function BarScale(value: real, maximum: real): (r: real)
    requires maximum > 0.0
    ensures r >= 0.0
    ensures value <= maximum ==> r <= 1.0
    ensures value <= 0.0 ==> r == 0.0
    ensures value >= 0.0 ==> r == value / maximum
  {
    Max(0.0, value / maximum)
  }

  /** updateHUD2D on the game state: the three bars follow their meters. */
  function Hud2DTick(g: Game): Game {
    g.(meters := g.meters.(healthBar := BarScale(g.meters.health, MaxHealth),
                           oxygenBar := BarScale(g.meters.oxygen, MaxOxygen),
                           boostBar := BarScale(g.meters.boost, MaxBoost)))
  }

  method UpdateHUD2D(w: World)
    modifies w
    ensures w.Snap() == Hud2DTick(old(w.Snap()))
  {
    w.meters := w.meters.(healthBar := Max(0.0, w.meters.health / MaxHealth));
    w.meters := w.meters.(oxygenBar := Max(0.0, w.meters.oxygen / MaxOxygen));
    w.meters := w.meters.(boostBar := Max(0.0, w.meters.boost / MaxBoost));
  }

  // ---------------------------------------------------------------- fish badges

  /**
   * loadHUDFishTexture with the callback that adds the fish image of `box`:
   * a cached texture gives the image at once; otherwise a load is started,
   * and the image appears when it completes (TextureLoaded).
   */
  function RequestTexture(h: Hud, box: HudBox): (r: Hud)
    ensures box.name in h.textures ==> r == h.(planes := h.planes + [box])
    ensures box.name !in h.textures ==> r == h.(pending := h.pending + [box])
  {
    if box.name in h.textures then h.(planes := h.planes + [box]) else h.(pending := h.pending + [box])
  }

  /** One fish of updateHUDFish's forEach: a species not yet shown gets the next badge. */
  function HudFishStep(h: Hud, name: string): Hud {
    if name in h.fishTypes then h
    else
      var box := HudBox(name, |h.fishBoxes|);
      RequestTexture(h.(fishTypes := h.fishTypes + {name}, fishBoxes := h.fishBoxes + [box]), box)
  }

  /** The forEach of updateHUDFish over the collected fish, first to last. */
  function HudFishAll(h: Hud, fish: seq<Agent>): Hud
    decreases |fish|
  {
    if fish == [] then h else HudFishStep(HudFishAll(h, fish[..|fish| - 1]), fish[|fish| - 1].name)
  }

  /** updateHUDFish on the game state: nothing until the HUD's fish group exists. */
  function HudFishTick(g: Game): (r: Game)
    ensures !g.hud.fishGroup ==> r == g
    ensures r.hud.fishTypes >= g.hud.fishTypes
    ensures r == g.(hud := r.hud)
  {
    if !g.hud.fishGroup then g
    else
      HudFishAllGrows(g.hud, g.rules.collectedFish);
      g.(hud := HudFishAll(g.hud, g.rules.collectedFish))
  }

  /** The species named in a list of fish. */
  function Names(fish: seq<Agent>): set<string>
    decreases |fish|
  {
    if fish == [] then {} else Names(fish[..|fish| - 1]) + {fish[|fish| - 1].name}
  }

  /**
   * What holds of the badge bookkeeping: one badge per species, in the order
   * first seen, each in its own row; a texture is cached or being loaded only
   * for a species with a badge, and never both; an image is shown only once
   * its texture is cached.
   */
  ghost predicate HudInv(h: Hud) {
    && |h.fishBoxes| == |h.fishTypes|
    && (forall i :: 0 <= i < |h.fishBoxes| ==> h.fishBoxes[i].slot == i && h.fishBoxes[i].name in h.fishTypes)
    && (forall i, j :: 0 <= i < j < |h.fishBoxes| ==> h.fishBoxes[i].name != h.fishBoxes[j].name)
    && h.textures.Keys <= h.fishTypes
    && (forall i :: 0 <= i < |h.pending| ==> h.pending[i].name in h.fishTypes && h.pending[i].name !in h.textures)
    && (forall i, j :: 0 <= i < j < |h.pending| ==> h.pending[i].name != h.pending[j].name)
    && (forall i :: 0 <= i < |h.planes| ==> h.planes[i].name in h.textures)
  }

  lemma InitialHudInv()
    ensures HudInv(Initial.hud)
  {
  }

  /** One step keeps the invariant and adds a badge exactly for a new species. */
  lemma HudFishStepInv(h: Hud, name: string)
    requires HudInv(h)
    ensures HudInv(HudFishStep(h, name))
    ensures HudFishStep(h, name).fishTypes == h.fishTypes + {name}
    ensures name in h.fishTypes ==> HudFishStep(h, name) == h
    ensures name !in h.fishTypes ==> HudFishStep(h, name).fishBoxes == h.fishBoxes + [HudBox(name, |h.fishBoxes|)]
  {
    if name !in h.fishTypes {
      var box := HudBox(name, |h.fishBoxes|);
      var h1 := h.(fishTypes := h.fishTypes + {name}, fishBoxes := h.fishBoxes + [box]);
      assert |h1.fishTypes| == |h.fishTypes| + 1;
      assert HudInv(h1);
    }
  }

  /**
   * updateHUDFish keeps the invariant, so the badges and the species set grow
   * in lockstep; the species set becomes the old one with every collected name added.
   */
  lemma {:induction false} HudFishAllInv(h: Hud, fish: seq<Agent>)
    requires HudInv(h)
    ensures HudInv(HudFishAll(h, fish))
    ensures HudFishAll(h, fish).fishTypes == h.fishTypes + Names(fish)
    ensures |HudFishAll(h, fish).fishBoxes| - |h.fishBoxes| == |HudFishAll(h, fish).fishTypes| - |h.fishTypes|
    ensures h.fishBoxes <= HudFishAll(h, fish).fishBoxes
    decreases |fish|
  {
    if fish != [] {
      var front := fish[..|fish| - 1];
      HudFishAllInv(h, front);
      var h1 := HudFishAll(h, front);
      HudFishStepInv(h1, fish[|fish| - 1].name);
      var h2 := HudFishStep(h1, fish[|fish| - 1].name);
      assert h1.fishBoxes <= h2.fishBoxes;
    }
  }

  /** The species set only grows (whatever state it starts from). */
  lemma {:induction false} HudFishAllGrows(h: Hud, fish: seq<Agent>)
    ensures HudFishAll(h, fish).fishTypes >= h.fishTypes
    decreases |fish|
  {
    if fish != [] {
      HudFishAllGrows(h, fish[..|fish| - 1]);
    }
  }

  /** With every collected species already shown, updateHUDFish changes nothing. */
  lemma {:induction false} HudFishAllKnown(h: Hud, fish: seq<Agent>)
    requires Names(fish) <= h.fishTypes
    ensures HudFishAll(h, fish) == h
    decreases |fish|
  {
    if fish != [] {
      HudFishAllKnown(h, fish[..|fish| - 1]);
    }
  }

  /** updateHUDFish is idempotent: a second call with the same collected fish changes nothing. */
  lemma HudFishIdempotent(g: Game)
    requires HudInv(g.hud)
    ensures HudFishTick(HudFishTick(g)) == HudFishTick(g)
  {
    if g.hud.fishGroup {
      HudFishAllInv(g.hud, g.rules.collectedFish);
      HudFishAllKnown(HudFishAll(g.hud, g.rules.collectedFish), g.rules.collectedFish);
    }
  }

  method LoadHUDFishTexture(w: World, box: HudBox)
    modifies w
    ensures w.Snap() == old(w.Snap()).(hud := RequestTexture(old(w.hud), box))
  {
    if box.name in w.hud.textures {
      w.hud := w.hud.(planes := w.hud.planes + [box]);
    } else {
      w.hud := w.hud.(pending := w.hud.pending + [box]);
    }
  }

  method UpdateHUDFish(w: World)
    modifies w
    ensures w.Snap() == HudFishTick(old(w.Snap()))
  {
    if !w.hud.fishGroup {
      return;
    }
    var fish := w.rules.collectedFish;
    for i := 0 to |fish|
      invariant w.Snap() == old(w.Snap()).(hud := HudFishAll(old(w.hud), fish[..i]))
    {
      assert fish[..i + 1][..i] == fish[..i];
      var name := fish[i].name;
      if name !in w.hud.fishTypes {
        w.hud := w.hud.(fishTypes := w.hud.fishTypes + {name});
        var box := HudBox(name, |w.hud.fishBoxes|);
        w.hud := w.hud.(fishBoxes := w.hud.fishBoxes + [box]);
        LoadHUDFishTexture(w, box);
      }
    }
    assert fish[..|fish|] == fish;
  }

  /** The completion of the `i`-th pending load: the texture is cached and the image added. */
  function LoadDone(h: Hud, i: nat, tex: Texture): Hud
    requires i < |h.pending|
  {
    var box := h.pending[i];
    h.(textures := h.textures[box.name := tex], planes := h.planes + [box],
       pending := h.pending[..i] + h.pending[i + 1..])
  }

  /**
   * A completed load caches a species that was not cached before and leaves
   * every other cache entry alone, so a species is cached once; the invariant is kept.
   */
  lemma LoadDoneInv(h: Hud, i: nat, tex: Texture)
    requires HudInv(h) && i < |h.pending|
    ensures h.pending[i].name !in h.textures
    ensures LoadDone(h, i, tex).textures.Keys == h.textures.Keys + {h.pending[i].name}
    ensures forall k :: k in h.textures ==> LoadDone(h, i, tex).textures[k] == h.textures[k]
    ensures LoadDone(h, i, tex).textures[h.pending[i].name] == tex
    ensures HudInv(LoadDone(h, i, tex))
  {
    var r := LoadDone(h, i, tex);
    var name := h.pending[i].name;
    forall a | 0 <= a < |r.pending|
      ensures r.pending[a].name in r.fishTypes && r.pending[a].name !in r.textures
    {
      if a < i {
        assert r.pending[a] == h.pending[a];
      } else {
        assert r.pending[a] == h.pending[a + 1];
      }
    }
    forall a, b | 0 <= a < b < |r.pending|
      ensures r.pending[a].name != r.pending[b].name
    {
      var a', b' := if a < i then a else a + 1, if b < i then b else b + 1;
      assert r.pending[a] == h.pending[a'] && r.pending[b] == h.pending[b'];
    }
  }

  /** The loader's callback for a pending load. */
  method TextureLoaded(w: World, i: nat, tex: Texture)
    requires i < |w.hud.pending|
    modifies w
    ensures w.Snap() == old(w.Snap()).(hud := LoadDone(old(w.hud), i, tex))
  {
    var box := w.hud.pending[i];
    w.hud := w.hud.(textures := w.hud.textures[box.name := tex]);
    w.hud := w.hud.(planes := w.hud.planes + [box]);
    w.hud := w.hud.(pending := w.hud.pending[..i] + w.hud.pending[i + 1..]);
  }

  // ---------------------------------------------------------------- victory screen

  /** The fog showVictoryHUD darkens the scene to. */
  const VictoryFog := Fog(0x000000, 0.08)

  /**
   * showVictoryHUD on the game state: with a HUD and victory triggered it ends
   * the game, disables the controls, saves the fog, darkens it and shows the
   * victory box; otherwise nothing.
   */
  function ShowVictory(g: Game): (r: Game)
    ensures !(g.hud.scene && g.rules.victoryTriggered) ==> r == g
    ensures g.hud.scene && g.rules.victoryTriggered ==>
      && r.rules.gameOver && !r.hud.controlsEnabled && r.hud.victoryShown
      && r.rules.savedFog == Some(g.rules.fog) && r.rules.fog == VictoryFog
    // every other rule flag and every other part of the HUD is kept
    ensures g.hud.scene && g.rules.victoryTriggered ==>
      && r.rules == g.rules.(gameOver := true, savedFog := Some(g.rules.fog), fog := VictoryFog)
      && r.hud == g.hud.(controlsEnabled := false, victoryShown := true)
    ensures r.loading == g.loading && r.player == g.player && r.meters == g.meters && r.scene == g.scene
    ensures r.hud.fishTypes == g.hud.fishTypes && r.rules.collectedFish == g.rules.collectedFish
  {
    if !g.hud.scene || !g.rules.victoryTriggered then g
    else
      g.(rules := g.rules.(gameOver := true, savedFog := Some(g.rules.fog), fog := VictoryFog),
         hud := g.hud.(controlsEnabled := false, victoryShown := true))
  }

  method ShowVictoryHUD(w: World)
    modifies w
    ensures w.Snap() == ShowVictory(old(w.Snap()))
  {
    if !w.hud.scene || !w.rules.victoryTriggered {
      return;
    }
    w.rules := w.rules.(gameOver := true);
    w.hud := w.hud.(controlsEnabled := false);
    w.rules := w.rules.(savedFog := Some(w.rules.fog));
    w.rules := w.rules.(fog := VictoryFog);
    w.hud := w.hud.(victoryShown := true);
  }
}
