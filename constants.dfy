/** The default style record, the catalog of nine glass presets and the initial editor
    parameters. */
module Constants {
  import opened Types

  const DefaultRawStyles: RawStyles := RawStyles(
    glassBgOpacity := 0.1,
    glassBgColorTint := None,
    glassBlurRadius := 16.0,
    glassSaturation := 1.5,
    glassContrast := 1.15,
    glassBrightness := 1.0,
    glassChromaticStrength := 0.03,
    shadowColor := "#000000",
    shadowOpacityPrimary := 0.08,
    shadowYOffsetPrimary := 10.0,
    shadowBlurRadiusPrimary := 30.0,
    shadowSpreadPrimary := -2.0,
    shadowColorSecondary := None,
    shadowOpacitySecondary := None,
    shadowYOffsetSecondary := None,
    shadowBlurRadiusSecondary := None,
    shadowSpreadSecondary := None,
    insetHighlightColor := Some("rgba(255,255,255,0.4)"),
    insetHighlightOpacity := 0.4,
    borderColor := "#FFFFFF",
    borderWidth := 1.0,
    borderRadius := 20.0,
    borderOpacity := 0.20,
    textColor := "#FFFFFF",
    titleColor := "#FFFFFF")

  const Crystal: Theme := Theme("crystal", "Crystal",
    Some("Ultra-clear, bright, with sharp highlights and subtle depth."),
    DefaultRawStyles.(
      glassBgOpacity := 0.03,
      glassBlurRadius := 18.0,
      glassSaturation := 1.5,
      glassContrast := 1.2,
      borderColor := "#FFFFFF",
      borderOpacity := 0.20,
      shadowColor := "#000000",
      shadowOpacityPrimary := 0.07,
      shadowYOffsetPrimary := 10.0,
      shadowBlurRadiusPrimary := 35.0,
      insetHighlightOpacity := 0.6,
      glassChromaticStrength := 0.015))

  const Mercury: Theme := Theme("mercury", "Mercury",
    Some("Metallic, liquid-metal feel with a cool grey tint."),
    DefaultRawStyles.(
      glassBgColorTint := Some("rgba(180, 180, 180, 0.08)"),
      glassBgOpacity := 0.1,
      glassBlurRadius := 16.0,
      glassSaturation := 1.1,
      glassContrast := 1.3,
      glassBrightness := 1.05,
      borderColor := "#B4B4B4",
      borderOpacity := 0.4,
      shadowColor := "#101010",
      shadowOpacityPrimary := 0.15,
      shadowYOffsetPrimary := 8.0,
      shadowBlurRadiusPrimary := 25.0,
      insetHighlightColor := Some("rgba(220, 220, 230, 0.6)"),
      insetHighlightOpacity := 1.0,
      glassChromaticStrength := 0.01,
      textColor := "#E0E0E0",
      titleColor := "#F5F5F5"))

  const Frost: Theme := Theme("frost", "Frost",
    Some("Emphasized frosted look with more blur and softer highlights."),
    DefaultRawStyles.(
      glassBgColorTint := Some("rgba(230, 240, 250, 0.09)"),
      glassBgOpacity := 0.12,
      glassBlurRadius := 30.0,
      glassSaturation := 1.05,
      glassContrast := 1.0,
      glassBrightness := 1.0,
      borderColor := "#E6F0FA",
      borderOpacity := 0.35,
      shadowColor := "#203040",
      shadowOpacityPrimary := 0.07,
      shadowYOffsetPrimary := 15.0,
      shadowBlurRadiusPrimary := 50.0,
      insetHighlightColor := Some("rgba(240, 248, 255, 0.3)"),
      insetHighlightOpacity := 1.0,
      glassChromaticStrength := 0.005,
      textColor := "#D5E5F5",
      titleColor := "#EBF4FF"))

  const Prismatic: Theme := Theme("prismatic", "Prismatic",
    Some("Strong chromatic aberration and multi-toned shadows for a rainbow effect."),
    DefaultRawStyles.(
      glassBgOpacity := 0.04,
      glassBlurRadius := 22.0,
      glassSaturation := 2.2,
      glassContrast := 1.35,
      borderColor := "#FFFFFF",
      borderOpacity := 0.15,
      shadowColor := "#D600F7",
      shadowOpacityPrimary := 0.12,
      shadowYOffsetPrimary := 10.0,
      shadowBlurRadiusPrimary := 35.0,
      shadowColorSecondary := Some("#00F7A8"),
      shadowOpacitySecondary := Some(0.10),
      shadowYOffsetSecondary := Some(12.0),
      shadowBlurRadiusSecondary := Some(40.0),
      shadowSpreadSecondary := Some(-2.0),
      insetHighlightOpacity := 0.4,
      glassChromaticStrength := 0.15,
      textColor := "#F0F0F0",
      titleColor := "#FFFFFF"))

  const Organic: Theme := Theme("organic", "Organic",
    Some("Softer, more rounded feel with warmer tones and diffused shadows."),
    DefaultRawStyles.(
      glassBgColorTint := Some("rgba(200, 255, 200, 0.07)"),
      glassBgOpacity := 0.1,
      glassBlurRadius := 24.0,
      glassSaturation := 1.4,
      glassContrast := 1.1,
      borderColor := "#C8FFC8",
      borderOpacity := 0.28,
      shadowColor := "#103010",
      shadowOpacityPrimary := 0.08,
      shadowYOffsetPrimary := 14.0,
      shadowBlurRadiusPrimary := 45.0,
      insetHighlightColor := Some("rgba(220, 255, 220, 0.45)"),
      insetHighlightOpacity := 1.0,
      borderRadius := 22.0,
      glassChromaticStrength := 0.018,
      textColor := "#D8F8D8",
      titleColor := "#E8FFE8"))

  const Mirror: Theme := Theme("mirror", "Mirror",
    Some("Sharper, reflective surface with less blur and higher contrast."),
    DefaultRawStyles.(
      glassBgColorTint := Some("rgba(210, 210, 210, 0.15)"),
      glassBgOpacity := 0.18,
      glassBlurRadius := 10.0,
      glassSaturation := 0.7,
      glassContrast := 1.6,
      glassBrightness := 1.15,
      borderColor := "#C0C0C0",
      borderOpacity := 0.6,
      shadowColor := "#000000",
      shadowOpacityPrimary := 0.2,
      shadowYOffsetPrimary := 6.0,
      shadowBlurRadiusPrimary := 15.0,
      insetHighlightColor := Some("rgba(250, 250, 255, 0.7)"),
      insetHighlightOpacity := 1.0,
      glassChromaticStrength := 0.003,
      textColor := "#1A1A1A",
      titleColor := "#0D0D0D"))

  const Aura: Theme := Theme("aura", "Aura",
    Some("Soft, diffused glow with subtle chromatic aberration and rounded corners."),
    DefaultRawStyles.(
      glassBgOpacity := 0.06,
      glassBlurRadius := 26.0,
      glassSaturation := 1.7,
      glassContrast := 1.1,
      glassBrightness := 1.05,
      glassChromaticStrength := 0.025,
      borderColor := "#E0E0FF",
      borderOpacity := 0.2,
      borderRadius := 20.0,
      shadowColor := "#303050",
      shadowOpacityPrimary := 0.08,
      shadowYOffsetPrimary := 10.0,
      shadowBlurRadiusPrimary := 50.0,
      insetHighlightColor := Some("rgba(230, 230, 255, 0.35)"),
      insetHighlightOpacity := 1.0,
      textColor := "#F0F0FF",
      titleColor := "#FFFFFF"))

  const Void: Theme := Theme("void", "Void",
    Some("Dark, mysterious theme with very low background opacity and stark highlights."),
    DefaultRawStyles.(
      glassBgOpacity := 0.02,
      glassBgColorTint := Some("rgba(10, 10, 20, 0.1)"),
      glassBlurRadius := 16.0,
      glassSaturation := 1.3,
      glassContrast := 1.3,
      glassBrightness := 0.95,
      glassChromaticStrength := 0.03,
      borderColor := "#505070",
      borderOpacity := 0.4,
      borderRadius := 12.0,
      shadowColor := "#000000",
      shadowOpacityPrimary := 0.25,
      shadowYOffsetPrimary := 15.0,
      shadowBlurRadiusPrimary := 30.0,
      insetHighlightColor := Some("rgba(180, 180, 220, 0.3)"),
      insetHighlightOpacity := 1.0,
      textColor := "#D0D0E0",
      titleColor := "#E8E8F8"))

  const TrueLiquid: Theme := Theme("trueLiquid", "TrueLiquid",
    Some("Refined Liquid Glass: balanced translucency, noticeable 'lensing', layered shadows."),
    DefaultRawStyles.(
      glassBgOpacity := 0.12,
      glassBlurRadius := 18.0,
      glassSaturation := 1.6,
      glassContrast := 1.20,
      glassBrightness := 1.0,
      glassChromaticStrength := 0.06,
      borderColor := "#FFFFFF",
      borderOpacity := 0.18,
      borderWidth := 1.0,
      borderRadius := 22.0,
      shadowColor := "#051025",
      shadowOpacityPrimary := 0.10,
      shadowYOffsetPrimary := 10.0,
      shadowBlurRadiusPrimary := 35.0,
      shadowSpreadPrimary := -3.0,
      shadowColorSecondary := Some("#000000"),
      shadowOpacitySecondary := Some(0.06),
      shadowYOffsetSecondary := Some(15.0),
      shadowBlurRadiusSecondary := Some(50.0),
      shadowSpreadSecondary := Some(-1.0),
      insetHighlightColor := Some("rgba(235, 235, 255, 0.45)"),
      insetHighlightOpacity := 0.8,
      textColor := "#FFFFFF",
      titleColor := "#FFFFFF"))

  /** `UI_ELEMENT_THEMES`, in catalog order. */
  const Themes: seq<Theme> := [Crystal, Mercury, Frost, Prismatic, Organic, Mirror, Aura, Void, TrueLiquid]

  /** `themes.find(t => t.id === id)`: the first preset with that id. */
  function FindThemeIn(themes: seq<Theme>, id: string): (r: Opt<Theme>)
    ensures r.Some? ==> r.value in themes && r.value.id == id
    ensures r.None? <==> forall t :: t in themes ==> t.id != id
  {
    if themes == [] then None
    else if themes[0].id == id then Some(themes[0])
    else FindThemeIn(themes[1..], id)
  }

  function FindTheme(id: string): Opt<Theme> {
    FindThemeIn(Themes, id)
  }

  /** The ids of the catalog, in catalog order. */
  const ThemeIds: seq<string> := ["crystal", "mercury", "frost", "prismatic", "organic", "mirror", "aura", "void", "trueLiquid"]

  /** A lookup in the catalog succeeds exactly for the catalog's ids, and finds the preset with
      the id asked for. */
  lemma FindThemeSucceedsOnCatalogIds(id: string)
    ensures FindTheme(id).Some? <==> id in ThemeIds
    ensures FindTheme(id).Some? ==> FindTheme(id).value.id == id && FindTheme(id).value in Themes
  {
    CatalogOrder();
    if id in ThemeIds {
      var k :| 0 <= k < |ThemeIds| && ThemeIds[k] == id;
      assert Themes[k].id == id;
    }
  }

  /** All five secondary-shadow fields are present. */
  predicate HasFullSecondaryShadow(s: RawStyles) {
    && s.shadowColorSecondary.Some? && s.shadowOpacitySecondary.Some?
    && s.shadowYOffsetSecondary.Some? && s.shadowBlurRadiusSecondary.Some?
    && s.shadowSpreadSecondary.Some?
  }

  /** No secondary-shadow field is present. */
  predicate HasNoSecondaryShadow(s: RawStyles) {
    && s.shadowColorSecondary.None? && s.shadowOpacitySecondary.None?
    && s.shadowYOffsetSecondary.None? && s.shadowBlurRadiusSecondary.None?
    && s.shadowSpreadSecondary.None?
  }

  /** `INITIAL_CONCEPTUAL_SLIDER_VALUES`: the default read with fallbacks 0.03, 1.5, 16, 1.0. */
  const InitialConceptualSliderValues: ConceptualValues := ConceptualValues(
    transmission := DefaultRawStyles.glassBgOpacity * 100.0,
    chromaticAberration := OrElse(DefaultRawStyles.glassChromaticStrength, 0.03) * 333.0,
    backdropSaturation := OrElse(DefaultRawStyles.glassSaturation, 1.5) * 100.0,
    roughness := OrElse(DefaultRawStyles.glassBlurRadius, 16.0) / 50.0 * 100.0,
    thickness := OrElse(DefaultRawStyles.borderWidth, 1.0) * 10.0,
    elasticity := 0.0)

  /** `UI_ELEMENT_THEMES.find(t => t.id === 'trueLiquid')?.styleParams || DEFAULT_UI_ELEMENT_RAW_STYLES`. */
  function InitialStyles(): RawStyles {
    match FindTheme("trueLiquid")
    case Some(t) => t.styleParams
    case None => DefaultRawStyles
  }

  /** The style and conceptual fields of `INITIAL_PARAMS`, with their chained fallbacks. */
  function InitialParams(): GlassParameters {
    var liquid := FindTheme("trueLiquid");
    var opacity := if liquid.Some? then OrElse(liquid.value.styleParams.glassBgOpacity, DefaultRawStyles.glassBgOpacity) else DefaultRawStyles.glassBgOpacity;
    var chroma := OrElse(if liquid.Some? then OrElse(liquid.value.styleParams.glassChromaticStrength, DefaultRawStyles.glassChromaticStrength) else DefaultRawStyles.glassChromaticStrength, 0.03);
    var saturation := OrElse(if liquid.Some? then OrElse(liquid.value.styleParams.glassSaturation, DefaultRawStyles.glassSaturation) else DefaultRawStyles.glassSaturation, 1.5);
    var blur := OrElse(if liquid.Some? then OrElse(liquid.value.styleParams.glassBlurRadius, DefaultRawStyles.glassBlurRadius) else DefaultRawStyles.glassBlurRadius, 16.0);
    var border := OrElse(if liquid.Some? then OrElse(liquid.value.styleParams.borderWidth, DefaultRawStyles.borderWidth) else DefaultRawStyles.borderWidth, 1.0);
    GlassParameters(
      InitialStyles(),
      ConceptualValues(opacity * 100.0, chroma * 333.0, saturation * 100.0, blur / 50.0 * 100.0, border * 10.0, 0.0),
      Some("trueLiquid"))
  }

  /** The catalog holds nine presets, in this order, with distinct ids. */
  lemma CatalogOrder()
    ensures |Themes| == 9
    ensures Themes[0].id == "crystal" && Themes[1].id == "mercury" && Themes[2].id == "frost"
    ensures Themes[3].id == "prismatic" && Themes[4].id == "organic" && Themes[5].id == "mirror"
    ensures Themes[6].id == "aura" && Themes[7].id == "void" && Themes[8].id == "trueLiquid"
    ensures forall i, j :: 0 <= i < j < |Themes| ==> Themes[i].id != Themes[j].id
  {
  }

  /** Every preset looks itself up: `FindTheme(t.id)` returns `t`. */
  lemma {:induction false} FindThemeOfCatalogMember(t: Theme)
    requires t in Themes
    ensures FindTheme(t.id) == Some(t)
  {
    CatalogOrder();
  }

  /** A preset differs from the default only in the fields it lists: none of them lists
      `borderWidth` with a value other than 1, so it stays 1 everywhere; catalog ids are non-empty. */
  lemma PresetsKeepDefaultBorderWidth()
    ensures forall t :: t in Themes ==> t.styleParams.borderWidth == 1.0 && t.id != ""
  {
  }

  /** The default has no secondary shadow; prismatic and trueLiquid define all five fields and
      every other preset defines none. */
  lemma SecondaryShadowPresets()
    ensures HasNoSecondaryShadow(DefaultRawStyles)
    ensures HasFullSecondaryShadow(Prismatic.styleParams) && HasFullSecondaryShadow(TrueLiquid.styleParams)
    ensures HasNoSecondaryShadow(Crystal.styleParams) && HasNoSecondaryShadow(Mercury.styleParams)
    ensures HasNoSecondaryShadow(Frost.styleParams) && HasNoSecondaryShadow(Organic.styleParams)
    ensures HasNoSecondaryShadow(Mirror.styleParams) && HasNoSecondaryShadow(Aura.styleParams)
    ensures HasNoSecondaryShadow(Void.styleParams)
  {
  }

  /** The default has no tint; mercury, frost, organic, mirror and void set one and the other
      four presets do not. */
  lemma TintedPresets()
    ensures DefaultRawStyles.glassBgColorTint == None
    ensures Truthy(Mercury.styleParams.glassBgColorTint) && Truthy(Frost.styleParams.glassBgColorTint)
    ensures Truthy(Organic.styleParams.glassBgColorTint) && Truthy(Mirror.styleParams.glassBgColorTint)
    ensures Truthy(Void.styleParams.glassBgColorTint)
    ensures !Truthy(Crystal.styleParams.glassBgColorTint) && !Truthy(Prismatic.styleParams.glassBgColorTint)
    ensures !Truthy(Aura.styleParams.glassBgColorTint) && !Truthy(TrueLiquid.styleParams.glassBgColorTint)
  {
  }

  /** `INITIAL_PARAMS` starts from trueLiquid's styles and reads its conceptual values from them. */
  lemma InitialParamsFromTrueLiquid()
    ensures InitialParams().defaultUiElementRawStyles == TrueLiquid.styleParams
    ensures InitialParams().selectedUiElementThemeId == Some("trueLiquid")
    ensures InitialParams().conceptualControlValues
         == ConceptualValues(12.0, 0.06 * 333.0, 160.0, 36.0, 10.0, 0.0)
  {
    CatalogOrder();
    FindThemeOfCatalogMember(TrueLiquid);
  }
}
