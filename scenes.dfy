/**
 * convertToken and convertScene: tokens lose their actor overrides and bar
 * bindings, and every distance on a scene is scaled from feet to inches of
 * the target grid (five feet per inch).
 */
module SceneConversion {
  import opened Wrappers
  import opened JsValues
  import opened Rewrites
  import opened Documents

  /** A distance after conversion: one fifth of the original. */
  predicate ScaledDown(before: real, after: real) {
    after * 5.0 == before
  }

  /** A token in the target form: no actor overrides, no bar bindings. */
  predicate TokenUnbound(t: Token) {
    t.actorData == JObj(map[]) && t.bar1 == Null && t.bar2 == Null
  }

  /** convertToken. */
  function ConvertToken(t: Token, cfg: Conversion): (r: Token)
    ensures TokenUnbound(r)
    ensures r.textureSrc == ReplacePaths(t.textureSrc, cfg)
    ensures r.flags == FixFlags(t.flags, cfg.srcName, cfg.targetName)
    ensures cfg.srcName != cfg.targetName ==> FlagsMigrated(r.flags, cfg.srcName)
    ensures ScaledDown(t.lightBright, r.lightBright) && ScaledDown(t.lightDim, r.lightDim)
    ensures ScaledDown(t.sightRange, r.sightRange)
    ensures t.lightBright <= t.lightDim ==> r.lightBright <= r.lightDim
  {
    Token(
      actorData := JObj(map[]),
      textureSrc := ReplacePaths(t.textureSrc, cfg),
      bar1 := Null,
      bar2 := Null,
      sightRange := t.sightRange / 5.0,
      lightBright := t.lightBright / 5.0,
      lightDim := t.lightDim / 5.0,
      flags := FixFlags(t.flags, cfg.srcName, cfg.targetName))
  }

  /** The tile and map-note mapping: image path rewritten, flags moved. */
  function ConvertPlaceable(p: Placeable, cfg: Conversion): (r: Placeable)
    ensures r.textureSrc == ReplacePaths(p.textureSrc, cfg)
    ensures r.flags == FixFlags(p.flags, cfg.srcName, cfg.targetName)
    ensures cfg.srcName != cfg.targetName ==> FlagsMigrated(r.flags, cfg.srcName)
    ensures cfg.srcName != cfg.targetName && CarriesBundle(p.flags, cfg.srcName) ==> CarriesBundle(r.flags, cfg.targetName)
  {
    Placeable(ReplacePaths(p.textureSrc, cfg), FixFlags(p.flags, cfg.srcName, cfg.targetName))
  }

  /** The grid of every converted scene: square, one unit per square, measured in inches. */
  const InchGrid: Grid := Grid(0, 1.0, "\"")

  /** Every flag bundle of the scene and of the documents inside it has left the source module. */
  predicate SceneMigrated(s: Scene, src: string) {
    && FlagsMigrated(s.flags, src)
    && (forall i :: 0 <= i < |s.tokens| ==> FlagsMigrated(s.tokens[i].flags, src))
    && (forall i :: 0 <= i < |s.tiles| ==> FlagsMigrated(s.tiles[i].flags, src))
    && (forall i :: 0 <= i < |s.notes| ==> FlagsMigrated(s.notes[i].flags, src))
  }

  /** convertScene. */
  function ConvertScene(s: Scene, cfg: Conversion): (r: Scene)
    ensures r.id == s.id && r.name == s.name
    ensures r.background == RewritePath(s.background, cfg)
    ensures r.foreground == ReplacePaths(s.foreground, cfg) && r.thumb == ReplacePaths(s.thumb, cfg)
    ensures r.flags == FixFlags(s.flags, cfg.srcName, cfg.targetName)
    ensures r.grid == InchGrid
    ensures |r.lights| == |s.lights| && forall i :: 0 <= i < |s.lights| ==>
      ScaledDown(s.lights[i].bright, r.lights[i].bright) && ScaledDown(s.lights[i].dim, r.lights[i].dim)
    ensures |r.sounds| == |s.sounds| && forall i :: 0 <= i < |s.sounds| ==>
      ScaledDown(s.sounds[i].radius, r.sounds[i].radius)
    ensures |r.tiles| == |s.tiles| && forall i :: 0 <= i < |s.tiles| ==> r.tiles[i] == ConvertPlaceable(s.tiles[i], cfg)
    ensures |r.notes| == |s.notes| && forall i :: 0 <= i < |s.notes| ==> r.notes[i] == ConvertPlaceable(s.notes[i], cfg)
    ensures |r.tokens| == |s.tokens| && forall i :: 0 <= i < |s.tokens| ==> r.tokens[i] == ConvertToken(s.tokens[i], cfg)
    ensures forall i :: 0 <= i < |r.tokens| ==> TokenUnbound(r.tokens[i])
    ensures cfg.srcName != cfg.targetName ==> SceneMigrated(r, cfg.srcName)
  {
    s.(
      background := RewritePath(s.background, cfg),
      foreground := ReplacePaths(s.foreground, cfg),
      thumb := ReplacePaths(s.thumb, cfg),
      flags := FixFlags(s.flags, cfg.srcName, cfg.targetName),
      grid := InchGrid,
      lights := seq(|s.lights|, i requires 0 <= i < |s.lights| =>
        Light(s.lights[i].bright / 5.0, s.lights[i].dim / 5.0)),
      sounds := seq(|s.sounds|, i requires 0 <= i < |s.sounds| => AmbientSound(s.sounds[i].radius / 5.0)),
      tiles := seq(|s.tiles|, i requires 0 <= i < |s.tiles| => ConvertPlaceable(s.tiles[i], cfg)),
      notes := seq(|s.notes|, i requires 0 <= i < |s.notes| => ConvertPlaceable(s.notes[i], cfg)),
      tokens := seq(|s.tokens|, i requires 0 <= i < |s.tokens| => ConvertToken(s.tokens[i], cfg)))
  }

  /** A light of bright radius 30 ft and dim radius 60 ft lights 6 and 12 inches after conversion. */
  lemma ConvertSceneLightExample(s: Scene, cfg: Conversion)
    requires |s.lights| > 0 && s.lights[0] == Light(30.0, 60.0)
    ensures ConvertScene(s, cfg).lights[0] == Light(6.0, 12.0)
  {
    var l := ConvertScene(s, cfg).lights[0];
    assert l.bright * 5.0 == 30.0 && l.dim * 5.0 == 60.0;
  }
}
