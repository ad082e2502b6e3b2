/** Value types of the liquid-glass editor: the raw style record, elements, themes,
    conceptual slider values and the small JavaScript conventions the core relies on. */
module Types {

  /** An optional field: `None` is JavaScript's `undefined` (the key is absent). */
  datatype Opt<T> = None | Some(value: T)

  /** JavaScript truthiness of an optional string: absent and "" are both falsy. */
  predicate Truthy(o: Opt<string>) {
    o.Some? && o.value != ""
  }

  /** JavaScript `x || d` on a number: zero reads as the fallback (NaN is not modelled). */
  function OrElse(x: real, d: real): (r: real)
    ensures r == x || r == d
    ensures x != 0.0 ==> r == x
  {
    if x == 0.0 then d else x
  }

  /** Text whose numbers are kept abstract: JavaScript's number-to-string conversion
      is not modelled, so an interpolated number stays a `Number` piece. */
  datatype Piece = Lit(s: string) | Number(n: real)
  type Text = seq<Piece>

  /** `${x}` for an optional number: an absent one prints as "undefined". */
  function OptNumberText(o: Opt<real>): (t: Text)
    ensures o.Some? ==> t == [Number(o.value)]
    ensures o.None? ==> t == [Lit("undefined")]
  {
    match o
    case Some(x) => [Number(x)]
    case None => [Lit("undefined")]
  }

  /** The raw, persisted style attributes of one element (`UIElementRawStyleParams`). */
  datatype RawStyles = RawStyles(
    glassBgOpacity: real,
    glassBgColorTint: Opt<string>,
    glassBlurRadius: real,
    glassSaturation: real,
    glassContrast: real,
    glassBrightness: real,
    glassChromaticStrength: real,
    shadowColor: string,
    shadowOpacityPrimary: real,
    shadowYOffsetPrimary: real,
    shadowBlurRadiusPrimary: real,
    shadowSpreadPrimary: real,
    shadowColorSecondary: Opt<string>,
    shadowOpacitySecondary: Opt<real>,
    shadowYOffsetSecondary: Opt<real>,
    shadowBlurRadiusSecondary: Opt<real>,
    shadowSpreadSecondary: Opt<real>,
    insetHighlightColor: Opt<string>,
    insetHighlightOpacity: real,
    borderColor: string,
    borderWidth: real,
    borderRadius: real,
    borderOpacity: real,
    textColor: string,
    titleColor: string)

  /** One key of `Partial<UIElementRawStyleParams>` together with its value. */
  datatype StyleField =
    | GlassBgOpacity(real)
    | GlassBgColorTint(Opt<string>)
    | GlassBlurRadius(real)
    | GlassSaturation(real)
    | GlassContrast(real)
    | GlassBrightness(real)
    | GlassChromaticStrength(real)
    | ShadowColor(string)
    | ShadowOpacityPrimary(real)
    | ShadowYOffsetPrimary(real)
    | ShadowBlurRadiusPrimary(real)
    | ShadowSpreadPrimary(real)
    | ShadowColorSecondary(Opt<string>)
    | ShadowOpacitySecondary(Opt<real>)
    | ShadowYOffsetSecondary(Opt<real>)
    | ShadowBlurRadiusSecondary(Opt<real>)
    | ShadowSpreadSecondary(Opt<real>)
    | InsetHighlightColor(Opt<string>)
    | InsetHighlightOpacity(real)
    | BorderColor(string)
    | BorderWidth(real)
    | BorderRadius(real)
    | BorderOpacity(real)
    | TextColor(string)
    | TitleColor(string)

  /** A partial style record, in key order; a later key wins, as in an object spread. */
  type StylePatch = seq<StyleField>

  /** `{ ...s, [key]: value }` for one key. */
  function SetField(s: RawStyles, f: StyleField): RawStyles {
    match f
    case GlassBgOpacity(x) => s.(glassBgOpacity := x)
    case GlassBgColorTint(x) => s.(glassBgColorTint := x)
    case GlassBlurRadius(x) => s.(glassBlurRadius := x)
    case GlassSaturation(x) => s.(glassSaturation := x)
    case GlassContrast(x) => s.(glassContrast := x)
    case GlassBrightness(x) => s.(glassBrightness := x)
    case GlassChromaticStrength(x) => s.(glassChromaticStrength := x)
    case ShadowColor(x) => s.(shadowColor := x)
    case ShadowOpacityPrimary(x) => s.(shadowOpacityPrimary := x)
    case ShadowYOffsetPrimary(x) => s.(shadowYOffsetPrimary := x)
    case ShadowBlurRadiusPrimary(x) => s.(shadowBlurRadiusPrimary := x)
    case ShadowSpreadPrimary(x) => s.(shadowSpreadPrimary := x)
    case ShadowColorSecondary(x) => s.(shadowColorSecondary := x)
    case ShadowOpacitySecondary(x) => s.(shadowOpacitySecondary := x)
    case ShadowYOffsetSecondary(x) => s.(shadowYOffsetSecondary := x)
    case ShadowBlurRadiusSecondary(x) => s.(shadowBlurRadiusSecondary := x)
    case ShadowSpreadSecondary(x) => s.(shadowSpreadSecondary := x)
    case InsetHighlightColor(x) => s.(insetHighlightColor := x)
    case InsetHighlightOpacity(x) => s.(insetHighlightOpacity := x)
    case BorderColor(x) => s.(borderColor := x)
    case BorderWidth(x) => s.(borderWidth := x)
    case BorderRadius(x) => s.(borderRadius := x)
    case BorderOpacity(x) => s.(borderOpacity := x)
    case TextColor(x) => s.(textColor := x)
    case TitleColor(x) => s.(titleColor := x)
  }

  /** `{ ...s, ...patch }`: a shallow merge, key by key. */
  function Merge(s: RawStyles, patch: StylePatch): RawStyles
    decreases |patch|
  {
    if patch == [] then s else Merge(SetField(s, patch[0]), patch[1..])
  }

  datatype ElementKind = Button | Card | Panel {
    /** The string the source stores in `type`. */
    function Name(): string {
      match this
      case Button => "button"
      case Card => "card"
      case Panel => "panel"
    }
  }

  datatype ElementContent = ElementContent(text: Opt<string>, title: Opt<string>, body: Opt<string>, icon: Opt<string>)

  datatype Position = Position(x: real, y: real)

  /** `themeId?: string | null`: a preset id, `null` (customised), or absent (`undefined`). */
  datatype ThemeLink = Preset(id: string) | Customized | Unset

  /** An optional `themeId?: string | null` argument: a string, `null`, or left out. */
  datatype ThemeArg = Named(id: string) | NullTheme | Omitted

  datatype Element = Element(
    id: string,
    kind: ElementKind,
    content: ElementContent,
    position: Position,
    zIndex: int,
    rawStyleParams: RawStyles,
    themeId: ThemeLink)

  datatype Theme = Theme(id: string, name: string, description: Opt<string>, styleParams: RawStyles)

  datatype ConceptualKey = Transmission | ChromaticAberration | BackdropSaturation | Roughness | Thickness | Elasticity

  datatype ConceptualValues = ConceptualValues(
    transmission: real,
    chromaticAberration: real,
    backdropSaturation: real,
    roughness: real,
    thickness: real,
    elasticity: real)
  {
    function Get(key: ConceptualKey): real {
      match key
      case Transmission => transmission
      case ChromaticAberration => chromaticAberration
      case BackdropSaturation => backdropSaturation
      case Roughness => roughness
      case Thickness => thickness
      case Elasticity => elasticity
    }

    /** `{ ...values, [key]: v }`. */
    function With(key: ConceptualKey, v: real): ConceptualValues {
      match key
      case Transmission => this.(transmission := v)
      case ChromaticAberration => this.(chromaticAberration := v)
      case BackdropSaturation => this.(backdropSaturation := v)
      case Roughness => this.(roughness := v)
      case Thickness => this.(thickness := v)
      case Elasticity => this.(elasticity := v)
    }
  }

  datatype ExportFileType = Tsx | Css | Figma

  /** The style-related part of `LiquidGlassParameters`. */
  datatype GlassParameters = GlassParameters(
    defaultUiElementRawStyles: RawStyles,
    conceptualControlValues: ConceptualValues,
    selectedUiElementThemeId: Opt<string>)
}
