/**
 * `ThemeProvider` of src/contexts/ThemeContext.tsx: the theme-customizer configuration, its
 * nested partial update and the two actions that change it.
 */
module Theme {
  import opened Options

  datatype ThemeMode = LightMode | DarkMode | SystemMode
  datatype ShapePreset = Sharp | Rounded | Full
  datatype NeutralPalette = Slate | Gray | Zinc
  datatype SolidStyle = ColorStyle | Inverse | Contrast
  datatype EffectStyle = FlatStyle | Plastic
  datatype SurfaceStyle = Filled | Translucent
  datatype DataStyle = Categorical | Divergent | Sequential
  datatype TransitionStyle = AllTransitions | Micro | Macro | NoTransitions

  datatype Colors = Colors(primary: string, accent: string, neutral: NeutralPalette)

  datatype ThemeConfig = ThemeConfig(
    mode: ThemeMode, shape: ShapePreset, colors: Colors,
    solidStyle: SolidStyle, effectStyle: EffectStyle, surface: SurfaceStyle,
    scaling: real, dataStyle: DataStyle, transition: TransitionStyle,
    borderWidth: real, depthEffect: bool, noiseEffect: bool,
    fieldBaseSize: real, selectorBaseSize: real)

  const DefaultColors: Colors := Colors("217 91% 60%", "280 85% 65%", Slate)

  const DefaultThemeConfig: ThemeConfig :=
    ThemeConfig(DarkMode, Rounded, DefaultColors, ColorStyle, FlatStyle, Filled, 100.0,
                Categorical, AllTransitions, 1.0, false, false, 4.0, 4.0)

  /** The colour part of an update; a field it does not mention is `None`. */
  datatype ColorsPatch = ColorsPatch(primary: Option<string>, accent: Option<string>, neutral: Option<NeutralPalette>)

  /** `Partial<ThemeConfig>`; a field the update does not mention is `None`. */
  datatype ThemePatch = ThemePatch(
    mode: Option<ThemeMode>, shape: Option<ShapePreset>, colors: Option<ColorsPatch>,
    solidStyle: Option<SolidStyle>, effectStyle: Option<EffectStyle>, surface: Option<SurfaceStyle>,
    scaling: Option<real>, dataStyle: Option<DataStyle>, transition: Option<TransitionStyle>,
    borderWidth: Option<real>, depthEffect: Option<bool>, noiseEffect: Option<bool>,
    fieldBaseSize: Option<real>, selectorBaseSize: Option<real>)

  /** `{ ...prev.colors, ...updates.colors }`. */
  function MergeColors(prev: Colors, p: ColorsPatch): (r: Colors)
    ensures Merged(r.primary, prev.primary, p.primary)
    ensures Merged(r.accent, prev.accent, p.accent)
    ensures Merged(r.neutral, prev.neutral, p.neutral)
  {
    Colors(p.primary.GetOr(prev.primary), p.accent.GetOr(prev.accent), p.neutral.GetOr(prev.neutral))
  }

  /**
   * The state `updateTheme` computes: top-level fields of the update override the previous
   * ones, and the colours are merged field by field, or kept whole when the update has none.
   */
  function MergeTheme(prev: ThemeConfig, u: ThemePatch): (r: ThemeConfig)
    ensures u.colors.None? ==> r.colors == prev.colors
    ensures u.colors.Some? ==> r.colors == MergeColors(prev.colors, u.colors.value)
    ensures Merged(r.mode, prev.mode, u.mode) && Merged(r.shape, prev.shape, u.shape)
    ensures Merged(r.solidStyle, prev.solidStyle, u.solidStyle)
    ensures Merged(r.effectStyle, prev.effectStyle, u.effectStyle)
    ensures Merged(r.surface, prev.surface, u.surface) && Merged(r.scaling, prev.scaling, u.scaling)
    ensures Merged(r.dataStyle, prev.dataStyle, u.dataStyle)
    ensures Merged(r.transition, prev.transition, u.transition)
    ensures Merged(r.borderWidth, prev.borderWidth, u.borderWidth)
    ensures Merged(r.depthEffect, prev.depthEffect, u.depthEffect)
    ensures Merged(r.noiseEffect, prev.noiseEffect, u.noiseEffect)
    ensures Merged(r.fieldBaseSize, prev.fieldBaseSize, u.fieldBaseSize)
    ensures Merged(r.selectorBaseSize, prev.selectorBaseSize, u.selectorBaseSize)
  {
    ThemeConfig(
      u.mode.GetOr(prev.mode), u.shape.GetOr(prev.shape),
      if u.colors.Some? then MergeColors(prev.colors, u.colors.value) else prev.colors,
      u.solidStyle.GetOr(prev.solidStyle), u.effectStyle.GetOr(prev.effectStyle),
      u.surface.GetOr(prev.surface), u.scaling.GetOr(prev.scaling),
      u.dataStyle.GetOr(prev.dataStyle), u.transition.GetOr(prev.transition),
      u.borderWidth.GetOr(prev.borderWidth), u.depthEffect.GetOr(prev.depthEffect),
      u.noiseEffect.GetOr(prev.noiseEffect), u.fieldBaseSize.GetOr(prev.fieldBaseSize),
      u.selectorBaseSize.GetOr(prev.selectorBaseSize))
  }

  const NoThemeChange: ThemePatch :=
    ThemePatch(None, None, None, None, None, None, None, None, None, None, None, None, None, None)

  /** The patch that sets exactly the colour fields of `c`. */
  function SetAllColors(c: Colors): ColorsPatch
  {
    ColorsPatch(Some(c.primary), Some(c.accent), Some(c.neutral))
  }

  /**
   * An update mentioning nothing is the identity; applying an update twice is applying it
   * once; a colour update that names every colour field replaces the colours outright,
   * which is what the customizer's colour controls send.
   */
  lemma MergeThemeLaws(prev: ThemeConfig, u: ThemePatch, c: Colors)
    ensures MergeTheme(prev, NoThemeChange) == prev
    ensures MergeTheme(MergeTheme(prev, u), u) == MergeTheme(prev, u)
    ensures MergeTheme(prev, NoThemeChange.(colors := Some(SetAllColors(c)))) == prev.(colors := c)
  {
  }

  class ThemeStore {
    /** `theme`. */
    var theme: ThemeConfig

    /** The initial theme as loaded; reading it from storage is not part of this model. */
    constructor (initial: ThemeConfig)
      ensures theme == initial
    {
      theme := initial;
    }

    /** `updateTheme`. */
    method UpdateTheme(updates: ThemePatch)
      modifies this
      ensures theme == MergeTheme(old(theme), updates)
    {
      theme := MergeTheme(theme, updates);
    }

    /** `resetTheme`: back to the default configuration. */
    method ResetTheme()
      modifies this
      ensures theme == DefaultThemeConfig
    {
      theme := DefaultThemeConfig;
    }
  }
}
