/**
 * The effect-editor state of src/contexts/ThemeContext.tsx (`EffectState` and its setting
 * records), its defaults, the partial updates the editor applies, and the pure new-state
 * computations behind every `EffectProvider` action. Numeric settings are `real`.
 */
module Effects {
  import opened Options

  datatype EffectType = Glow | Glass | Neomorph | Clay
  datatype ThemeModeType = Dark | Light | Auto
  datatype GlowAnimationType = NoAnimation | Pulse | Breathe | Wave
  datatype ShapeType = Flat | Concave | Convex | Pressed
  datatype SurfaceTexture = Smooth | Matte | Glossy
  datatype ShadowDirection = TopLeft | TopRight | BottomLeft | BottomRight

  /** `Record<EffectType, boolean>`. */
  datatype ActiveEffects = ActiveEffects(glow: bool, glass: bool, neomorph: bool, clay: bool)

  datatype GlowSettings = GlowSettings(
    lightness: real, chroma: real, hue: real, baseColor: string,
    animation: GlowAnimationType, animationSpeed: real, animationIntensity: real,
    maskSize: real, glowScale: real, noiseEnabled: bool, noiseIntensity: real)

  datatype BlurSettings = BlurSettings(x: real, y: real)

  datatype GlassSettings = GlassSettings(
    blur: real, opacity: real, saturation: real, borderWidth: real,
    borderOpacity: real, tint: string, tintStrength: real)

  datatype NeomorphSettings = NeomorphSettings(
    distance: real, blur: real, intensity: real, shape: ShapeType,
    lightSource: real, surfaceColor: string)

  /** The last three fields are optional in the source (`opacity?`, `blur?`, `shadowDirection?`). */
  datatype ClaySettings = ClaySettings(
    depth: real, spread: real, borderRadius: real, highlightColor: string,
    shadowColor: string, surfaceTexture: SurfaceTexture, bendAngle: real,
    opacity: Option<real>, blur: Option<real>, shadowDirection: Option<ShadowDirection>)

  datatype EffectState = EffectState(
    powerOn: bool,
    activeEffects: ActiveEffects,
    themeMode: ThemeModeType,
    glowSettings: GlowSettings,
    blurSettings: BlurSettings,
    glassSettings: GlassSettings,
    neomorphSettings: NeomorphSettings,
    claySettings: ClaySettings)

  // ---------------------------------------------------------------------------
  // Defaults
  // ---------------------------------------------------------------------------

  const DefaultBlurX: real := -590.0
  const DefaultBlurY: real := -1070.0

  const DefaultGlowSettings: GlowSettings :=
    GlowSettings(78.0, 0.18, 70.0, "#FF9F00", NoAnimation, 2.0, 50.0, 0.3, 0.9, true, 0.35)

  const DefaultBlurSettings: BlurSettings := BlurSettings(DefaultBlurX, DefaultBlurY)

  const DefaultGlassSettings: GlassSettings :=
    GlassSettings(12.0, 20.0, 120.0, 1.0, 20.0, "#ffffff", 10.0)

  const DefaultNeomorphSettings: NeomorphSettings :=
    NeomorphSettings(10.0, 30.0, 50.0, Flat, 145.0, "#2a2a2a")

  const DefaultClaySettings: ClaySettings :=
    ClaySettings(10.0, 10.0, 24.0, "#ffffff", "#000000", Smooth, 0.0, Some(100.0), Some(20.0), Some(BottomRight))

  const DefaultEffectState: EffectState :=
    EffectState(
      true,
      ActiveEffects(true, false, false, false),
      Dark,
      DefaultGlowSettings,
      DefaultBlurSettings,
      DefaultGlassSettings,
      DefaultNeomorphSettings,
      DefaultClaySettings)

  // ---------------------------------------------------------------------------
  // Numbers
  // ---------------------------------------------------------------------------

  /** `clamp(value, min, max)` = `Math.min(Math.max(value, min), max)`. */
  function Clamp(value: real, min: real, max: real): (r: real)
    ensures r <= max
    ensures min <= max ==> min <= r
    ensures min <= value <= max ==> r == value
    ensures value < min <= max ==> r == min
    ensures value > max ==> r == max
  {
    var atLeast := if value >= min then value else min;
    if atLeast <= max then atLeast else max
  }

  lemma ClampIdempotent(value: real, min: real, max: real)
    requires min <= max
    ensures Clamp(Clamp(value, min, max), min, max) == Clamp(value, min, max)
  {
  }

  // ---------------------------------------------------------------------------
  // Effect flags
  // ---------------------------------------------------------------------------

  /** `activeEffects[effect]`. */
  function IsActive(a: ActiveEffects, effect: EffectType): bool
  {
    match effect
    case Glow => a.glow
    case Glass => a.glass
    case Neomorph => a.neomorph
    case Clay => a.clay
  }

  /** `{ ...activeEffects, [effect]: value }`. */
  function SetActive(a: ActiveEffects, effect: EffectType, value: bool): (r: ActiveEffects)
    ensures IsActive(r, effect) == value
    ensures forall other :: other != effect ==> IsActive(r, other) == IsActive(a, other)
  {
    match effect
    case Glow => a.(glow := value)
    case Glass => a.(glass := value)
    case Neomorph => a.(neomorph := value)
    case Clay => a.(clay := value)
  }

  /** `Object.values(activeEffects)`, in the order the keys are created. */
  function Flags(a: ActiveEffects): seq<bool>
  {
    [a.glow, a.glass, a.neomorph, a.clay]
  }

  /** `.filter(Boolean).length`. */
  function CountTrue(flags: seq<bool>): (n: nat)
    ensures n <= |flags|
    ensures n == 0 <==> forall i :: 0 <= i < |flags| ==> !flags[i]
    ensures n == |flags| <==> forall i :: 0 <= i < |flags| ==> flags[i]
  {
    if flags == [] then 0
    else
      assert forall i :: 1 <= i < |flags| ==> flags[i] == flags[1..][i - 1];
      (if flags[0] then 1 else 0) + CountTrue(flags[1..])
  }

  /** `.filter(Boolean).length` is the number of `true` values in the list. */
  lemma {:induction false} CountTrueIsMultiplicity(flags: seq<bool>)
    ensures CountTrue(flags) == multiset(flags)[true]
  {
    if flags != [] {
      CountTrueIsMultiplicity(flags[1..]);
      assert flags == [flags[0]] + flags[1..];
    }
  }

  /** `getActiveEffectsCount`: how many of the four effects are switched on. */
  function ActiveEffectsCount(a: ActiveEffects): (n: nat)
    ensures n <= 4
    ensures n == 0 <==> forall effect :: !IsActive(a, effect)
    ensures n == 4 <==> forall effect :: IsActive(a, effect)
    ensures n == Bit(a.glow) + Bit(a.glass) + Bit(a.neomorph) + Bit(a.clay)
  {
    CountOfFour(a.glow, a.glass, a.neomorph, a.clay);
    assert IsActive(a, Glow) == a.glow && IsActive(a, Glass) == a.glass;
    assert IsActive(a, Neomorph) == a.neomorph && IsActive(a, Clay) == a.clay;
    CountTrue(Flags(a))
  }

  function Bit(b: bool): nat
  {
    if b then 1 else 0
  }

  lemma CountOfFour(b0: bool, b1: bool, b2: bool, b3: bool)
    ensures CountTrue([b0, b1, b2, b3]) == Bit(b0) + Bit(b1) + Bit(b2) + Bit(b3)
  {
    assert [b3][1..] == [];
    assert CountTrue([b3]) == Bit(b3);
    assert [b2, b3][1..] == [b3];
    assert CountTrue([b2, b3]) == Bit(b2) + Bit(b3);
    assert [b1, b2, b3][1..] == [b2, b3];
    assert CountTrue([b1, b2, b3]) == Bit(b1) + Bit(b2) + Bit(b3);
    assert [b0, b1, b2, b3][1..] == [b1, b2, b3];
  }

  /** Switching one effect on adds one to the count; switching it off takes one away. */
  lemma ToggleMovesCountByOne(a: ActiveEffects, effect: EffectType)
    ensures var t := SetActive(a, effect, !IsActive(a, effect));
      ActiveEffectsCount(t) == if IsActive(a, effect) then ActiveEffectsCount(a) - 1 else ActiveEffectsCount(a) + 1
  {
    var t := SetActive(a, effect, !IsActive(a, effect));
    CountOfFour(a.glow, a.glass, a.neomorph, a.clay);
    CountOfFour(t.glow, t.glass, t.neomorph, t.clay);
  }

  // ---------------------------------------------------------------------------
  // Partial updates (`Partial<...Settings>`): `None` is a field the update does not mention
  // ---------------------------------------------------------------------------

  datatype GlowPatch = GlowPatch(
    lightness: Option<real>, chroma: Option<real>, hue: Option<real>, baseColor: Option<string>,
    animation: Option<GlowAnimationType>, animationSpeed: Option<real>, animationIntensity: Option<real>,
    maskSize: Option<real>, glowScale: Option<real>, noiseEnabled: Option<bool>, noiseIntensity: Option<real>)

  datatype BlurPatch = BlurPatch(x: Option<real>, y: Option<real>)

  datatype GlassPatch = GlassPatch(
    blur: Option<real>, opacity: Option<real>, saturation: Option<real>, borderWidth: Option<real>,
    borderOpacity: Option<real>, tint: Option<string>, tintStrength: Option<real>)

  datatype NeomorphPatch = NeomorphPatch(
    distance: Option<real>, blur: Option<real>, intensity: Option<real>, shape: Option<ShapeType>,
    lightSource: Option<real>, surfaceColor: Option<string>)

  datatype ClayPatch = ClayPatch(
    depth: Option<real>, spread: Option<real>, borderRadius: Option<real>, highlightColor: Option<string>,
    shadowColor: Option<string>, surfaceTexture: Option<SurfaceTexture>, bendAngle: Option<real>,
    opacity: Option<real>, blur: Option<real>, shadowDirection: Option<ShadowDirection>)

  /** `{ ...glowSettings, ...settings }`. */
  function ApplyGlowPatch(s: GlowSettings, p: GlowPatch): (r: GlowSettings)
    ensures Merged(r.lightness, s.lightness, p.lightness) && Merged(r.chroma, s.chroma, p.chroma)
    ensures Merged(r.hue, s.hue, p.hue) && Merged(r.baseColor, s.baseColor, p.baseColor)
    ensures Merged(r.animation, s.animation, p.animation)
    ensures Merged(r.animationSpeed, s.animationSpeed, p.animationSpeed)
    ensures Merged(r.animationIntensity, s.animationIntensity, p.animationIntensity)
    ensures Merged(r.maskSize, s.maskSize, p.maskSize) && Merged(r.glowScale, s.glowScale, p.glowScale)
    ensures Merged(r.noiseEnabled, s.noiseEnabled, p.noiseEnabled)
    ensures Merged(r.noiseIntensity, s.noiseIntensity, p.noiseIntensity)
  {
    GlowSettings(
      p.lightness.GetOr(s.lightness), p.chroma.GetOr(s.chroma), p.hue.GetOr(s.hue),
      p.baseColor.GetOr(s.baseColor), p.animation.GetOr(s.animation),
      p.animationSpeed.GetOr(s.animationSpeed), p.animationIntensity.GetOr(s.animationIntensity),
      p.maskSize.GetOr(s.maskSize), p.glowScale.GetOr(s.glowScale),
      p.noiseEnabled.GetOr(s.noiseEnabled), p.noiseIntensity.GetOr(s.noiseIntensity))
  }

  /** `{ ...blurSettings, ...settings }`. */
  function ApplyBlurPatch(s: BlurSettings, p: BlurPatch): (r: BlurSettings)
    ensures Merged(r.x, s.x, p.x) && Merged(r.y, s.y, p.y)
  {
    BlurSettings(p.x.GetOr(s.x), p.y.GetOr(s.y))
  }

  /** `{ ...glassSettings, ...settings }`. */
  function ApplyGlassPatch(s: GlassSettings, p: GlassPatch): (r: GlassSettings)
    ensures Merged(r.blur, s.blur, p.blur) && Merged(r.opacity, s.opacity, p.opacity)
    ensures Merged(r.saturation, s.saturation, p.saturation) && Merged(r.borderWidth, s.borderWidth, p.borderWidth)
    ensures Merged(r.borderOpacity, s.borderOpacity, p.borderOpacity) && Merged(r.tint, s.tint, p.tint)
    ensures Merged(r.tintStrength, s.tintStrength, p.tintStrength)
  {
    GlassSettings(
      p.blur.GetOr(s.blur), p.opacity.GetOr(s.opacity), p.saturation.GetOr(s.saturation),
      p.borderWidth.GetOr(s.borderWidth), p.borderOpacity.GetOr(s.borderOpacity),
      p.tint.GetOr(s.tint), p.tintStrength.GetOr(s.tintStrength))
  }

  /** `{ ...neomorphSettings, ...settings }`. */
  function ApplyNeomorphPatch(s: NeomorphSettings, p: NeomorphPatch): (r: NeomorphSettings)
    ensures Merged(r.distance, s.distance, p.distance) && Merged(r.blur, s.blur, p.blur)
    ensures Merged(r.intensity, s.intensity, p.intensity) && Merged(r.shape, s.shape, p.shape)
    ensures Merged(r.lightSource, s.lightSource, p.lightSource)
    ensures Merged(r.surfaceColor, s.surfaceColor, p.surfaceColor)
  {
    NeomorphSettings(
      p.distance.GetOr(s.distance), p.blur.GetOr(s.blur), p.intensity.GetOr(s.intensity),
      p.shape.GetOr(s.shape), p.lightSource.GetOr(s.lightSource), p.surfaceColor.GetOr(s.surfaceColor))
  }

  /** `{ ...claySettings, ...settings }`; an optional field the update sets becomes present. */
  function ApplyClayPatch(s: ClaySettings, p: ClayPatch): (r: ClaySettings)
    ensures Merged(r.depth, s.depth, p.depth) && Merged(r.spread, s.spread, p.spread)
    ensures Merged(r.borderRadius, s.borderRadius, p.borderRadius)
    ensures Merged(r.highlightColor, s.highlightColor, p.highlightColor)
    ensures Merged(r.shadowColor, s.shadowColor, p.shadowColor)
    ensures Merged(r.surfaceTexture, s.surfaceTexture, p.surfaceTexture)
    ensures Merged(r.bendAngle, s.bendAngle, p.bendAngle)
    ensures r.opacity == if p.opacity.Some? then p.opacity else s.opacity
    ensures r.blur == if p.blur.Some? then p.blur else s.blur
    ensures r.shadowDirection == if p.shadowDirection.Some? then p.shadowDirection else s.shadowDirection
  {
    ClaySettings(
      p.depth.GetOr(s.depth), p.spread.GetOr(s.spread), p.borderRadius.GetOr(s.borderRadius),
      p.highlightColor.GetOr(s.highlightColor), p.shadowColor.GetOr(s.shadowColor),
      p.surfaceTexture.GetOr(s.surfaceTexture), p.bendAngle.GetOr(s.bendAngle),
      if p.opacity.Some? then p.opacity else s.opacity,
      if p.blur.Some? then p.blur else s.blur,
      if p.shadowDirection.Some? then p.shadowDirection else s.shadowDirection)
  }

  const NoGlowChange: GlowPatch := GlowPatch(None, None, None, None, None, None, None, None, None, None, None)
  const NoBlurChange: BlurPatch := BlurPatch(None, None)
  const NoGlassChange: GlassPatch := GlassPatch(None, None, None, None, None, None, None)
  const NoNeomorphChange: NeomorphPatch := NeomorphPatch(None, None, None, None, None, None)
  const NoClayChange: ClayPatch := ClayPatch(None, None, None, None, None, None, None, None, None, None)

  /** An update that mentions no field changes nothing, and applying an update twice is applying it once. */
  lemma PatchLaws(
    glow: GlowSettings, gp: GlowPatch, blur: BlurSettings, bp: BlurPatch, glass: GlassSettings, sp: GlassPatch,
    neo: NeomorphSettings, np: NeomorphPatch, clay: ClaySettings, cp: ClayPatch)
    ensures ApplyGlowPatch(glow, NoGlowChange) == glow
    ensures ApplyBlurPatch(blur, NoBlurChange) == blur
    ensures ApplyGlassPatch(glass, NoGlassChange) == glass
    ensures ApplyNeomorphPatch(neo, NoNeomorphChange) == neo
    ensures ApplyClayPatch(clay, NoClayChange) == clay
    ensures ApplyGlowPatch(ApplyGlowPatch(glow, gp), gp) == ApplyGlowPatch(glow, gp)
    ensures ApplyBlurPatch(ApplyBlurPatch(blur, bp), bp) == ApplyBlurPatch(blur, bp)
    ensures ApplyGlassPatch(ApplyGlassPatch(glass, sp), sp) == ApplyGlassPatch(glass, sp)
    ensures ApplyNeomorphPatch(ApplyNeomorphPatch(neo, np), np) == ApplyNeomorphPatch(neo, np)
    ensures ApplyClayPatch(ApplyClayPatch(clay, cp), cp) == ApplyClayPatch(clay, cp)
  {
  }

  // ---------------------------------------------------------------------------
  // The new state each EffectProvider action pushes
  // ---------------------------------------------------------------------------

  /** `togglePower`: only `powerOn` changes, and it flips. */
  function PowerToggled(s: EffectState): (t: EffectState)
    ensures t.powerOn == !s.powerOn
    ensures t == s.(powerOn := t.powerOn)
  {
    s.(powerOn := !s.powerOn)
  }

  /** `toggleEffect`: exactly the named flag flips; every other flag and every other field is kept. */
  function EffectToggled(s: EffectState, effect: EffectType): (t: EffectState)
    ensures IsActive(t.activeEffects, effect) == !IsActive(s.activeEffects, effect)
    ensures forall other :: other != effect ==> IsActive(t.activeEffects, other) == IsActive(s.activeEffects, other)
    ensures t == s.(activeEffects := t.activeEffects)
  {
    s.(activeEffects := SetActive(s.activeEffects, effect, !IsActive(s.activeEffects, effect)))
  }

  /** Toggling the same effect twice restores the state. */
  lemma ToggleTwiceRestores(s: EffectState, effect: EffectType)
    ensures EffectToggled(EffectToggled(s, effect), effect) == s
  {
    var t := EffectToggled(EffectToggled(s, effect), effect);
    assert forall e :: IsActive(t.activeEffects, e) == IsActive(s.activeEffects, e);
    assert IsActive(t.activeEffects, Glow) == IsActive(s.activeEffects, Glow);
    assert IsActive(t.activeEffects, Glass) == IsActive(s.activeEffects, Glass);
    assert IsActive(t.activeEffects, Neomorph) == IsActive(s.activeEffects, Neomorph);
    assert IsActive(t.activeEffects, Clay) == IsActive(s.activeEffects, Clay);
  }

  /** `setThemeMode` once the mode differs: only `themeMode` changes. */
  function WithThemeMode(s: EffectState, mode: ThemeModeType): (t: EffectState)
    ensures t.themeMode == mode && t == s.(themeMode := mode)
  {
    s.(themeMode := mode)
  }

  /** `updateGlowSettings`: only `glowSettings` changes. */
  function WithGlowPatch(s: EffectState, p: GlowPatch): (t: EffectState)
    ensures t == s.(glowSettings := ApplyGlowPatch(s.glowSettings, p))
  {
    s.(glowSettings := ApplyGlowPatch(s.glowSettings, p))
  }

  /** `updateBlurSettings`: only `blurSettings` changes. */
  function WithBlurPatch(s: EffectState, p: BlurPatch): (t: EffectState)
    ensures t == s.(blurSettings := ApplyBlurPatch(s.blurSettings, p))
  {
    s.(blurSettings := ApplyBlurPatch(s.blurSettings, p))
  }

  /** `updateGlassSettings`: only `glassSettings` changes. */
  function WithGlassPatch(s: EffectState, p: GlassPatch): (t: EffectState)
    ensures t == s.(glassSettings := ApplyGlassPatch(s.glassSettings, p))
  {
    s.(glassSettings := ApplyGlassPatch(s.glassSettings, p))
  }

  /** `updateNeomorphSettings`: only `neomorphSettings` changes. */
  function WithNeomorphPatch(s: EffectState, p: NeomorphPatch): (t: EffectState)
    ensures t == s.(neomorphSettings := ApplyNeomorphPatch(s.neomorphSettings, p))
  {
    s.(neomorphSettings := ApplyNeomorphPatch(s.neomorphSettings, p))
  }

  /** `updateClaySettings`: only `claySettings` changes. */
  function WithClayPatch(s: EffectState, p: ClayPatch): (t: EffectState)
    ensures t == s.(claySettings := ApplyClayPatch(s.claySettings, p))
  {
    s.(claySettings := ApplyClayPatch(s.claySettings, p))
  }

  /** `resetBlurPosition`: the blur position goes back to (-590, -1070) and nothing else changes. */
  function BlurReset(s: EffectState): (t: EffectState)
    ensures t.blurSettings.x == DefaultBlurX && t.blurSettings.y == DefaultBlurY
    ensures t == s.(blurSettings := t.blurSettings)
  {
    s.(blurSettings := DefaultBlurSettings)
  }

  // ---------------------------------------------------------------------------
  // History captions
  // ---------------------------------------------------------------------------

  /** `` `Power ${on ? 'on' : 'off'}` ``, naming the state power is switched to. */
  function PowerCaption(on: bool): (r: string)
    ensures |r| >= 8 && r[..6] == "Power "
    ensures on <==> r[6..] == "on"
    ensures !on <==> r[6..] == "off"
  {
    if on then "Power on" else "Power off"
  }

  /** `effect.charAt(0).toUpperCase() + effect.slice(1)`. */
  function EffectTitle(effect: EffectType): string
  {
    match effect
    case Glow => "Glow"
    case Glass => "Glass"
    case Neomorph => "Neomorph"
    case Clay => "Clay"
  }

  /** The capitalised effect name followed by ` enabled` or ` disabled`. */
  function EffectCaption(effect: EffectType, on: bool): (r: string)
    ensures |r| > |EffectTitle(effect)| && r[..|EffectTitle(effect)|] == EffectTitle(effect)
    ensures on <==> r[|EffectTitle(effect)|..] == " enabled"
    ensures !on <==> r[|EffectTitle(effect)|..] == " disabled"
  {
    EffectTitle(effect) + (if on then " enabled" else " disabled")
  }

  function ModeName(mode: ThemeModeType): string
  {
    match mode
    case Dark => "dark"
    case Light => "light"
    case Auto => "auto"
  }

  /** `` `Theme: ${mode}` `` with the mode's lower-case name. */
  function ThemeCaption(mode: ThemeModeType): (r: string)
    ensures |r| > 7 && r[..7] == "Theme: " && r[7..] == ModeName(mode)
  {
    "Theme: " + ModeName(mode)
  }

  /** `` `${prefix} ${key} changed` ``, where `key` is the first key of the partial update. */
  function SettingsCaption(prefix: string, key: string): (r: string)
    ensures |r| == |prefix| + |key| + 9
    ensures r[..|prefix|] == prefix && r[|prefix|] == ' '
    ensures r[|prefix| + 1..|r| - 8] == key && r[|r| - 8..] == " changed"
  {
    prefix + " " + key + " changed"
  }

  /** Different effect toggles are recorded under different captions. */
  lemma EffectCaptionInjective(e1: EffectType, on1: bool, e2: EffectType, on2: bool)
    requires EffectCaption(e1, on1) == EffectCaption(e2, on2)
    ensures e1 == e2 && on1 == on2
  {
    var c, t1, t2 := EffectCaption(e1, on1), EffectTitle(e1), EffectTitle(e2);
    assert |t1| >= 4 && |t2| >= 4;
    assert t1[..4] == c[..|t1|][..4] == c[..4] == c[..|t2|][..4] == t2[..4];
    assert e1 == e2 by {
      assert EffectTitle(Glow)[..4] == "Glow" && EffectTitle(Glass)[..4] == "Glas";
      assert EffectTitle(Neomorph)[..4] == "Neom" && EffectTitle(Clay)[..4] == "Clay";
    }
  }

  /** Different theme modes are recorded under different captions. */
  lemma ThemeCaptionInjective(m1: ThemeModeType, m2: ThemeModeType)
    requires ThemeCaption(m1) == ThemeCaption(m2)
    ensures m1 == m2
  {
    assert ModeName(m1) == ThemeCaption(m1)[7..] == ModeName(m2);
  }

  /** The settings key can be read back from a settings caption. */
  lemma SettingsCaptionInjective(prefix: string, k1: string, k2: string)
    requires SettingsCaption(prefix, k1) == SettingsCaption(prefix, k2)
    ensures k1 == k2
  {
    var c := SettingsCaption(prefix, k1);
    assert k1 == c[|prefix| + 1..|c| - 8] == k2;
  }

  const BlurChangedCaption: string := "Blur position changed"
  const BlurResetCaption: string := "Blur position reset"
  const ResetCaption: string := "Reset to defaults"
}
