/** The hex colour parser and the projection of a raw style record onto CSS custom
    properties plus the two composite declarations `backgroundColor` and `boxShadow`. */
module StyleProjection {
  import opened Types

  datatype Rgb = Rgb(r: nat, g: nat, b: nat)

  const White: Rgb := Rgb(255, 255, 255)

  predicate IsByte(c: Rgb) {
    c.r < 256 && c.g < 256 && c.b < 256
  }

  /** A character of the class `[a-f\d]` under the case-insensitive flag. */
  predicate IsHexDigit(c: char) {
    '0' <= c <= '9' || 'a' <= c <= 'f' || 'A' <= c <= 'F'
  }

  function HexDigitValue(c: char): (v: nat)
    requires IsHexDigit(c)
    ensures v < 16
  {
    if '0' <= c <= '9' then c as nat - '0' as nat
    else if 'a' <= c <= 'f' then c as nat - 'a' as nat + 10
    else c as nat - 'A' as nat + 10
  }

  /** The digits after an optional leading `#`. */
  function HexBody(s: string): string {
    if |s| > 0 && s[0] == '#' then s[1..] else s
  }

  /** The whole string matches `^#?([a-f\d]{2})([a-f\d]{2})([a-f\d]{2})$` with the `i` flag. */
  predicate IsHexColor(s: string) {
    var d := HexBody(s);
    |d| == 6 && forall i :: 0 <= i < 6 ==> IsHexDigit(d[i])
  }

  /** `parseInt` of a two-digit hex group. */
  function PairValue(hi: char, lo: char): (v: nat)
    requires IsHexDigit(hi) && IsHexDigit(lo)
    ensures v < 256
  {
    16 * HexDigitValue(hi) + HexDigitValue(lo)
  }

  /** The three groups of a matching string, parsed. */
  function ParseHexColor(s: string): (c: Rgb)
    requires IsHexColor(s)
  {
    var d := HexBody(s);
    Rgb(PairValue(d[0], d[1]), PairValue(d[2], d[3]), PairValue(d[4], d[5]))
  }

  /** `hexToRgbArray`: the parsed triple for `#RRGGBB`/`RRGGBB`, white for anything else. */
  function HexToRgbArray(s: string): (c: Rgb)
    ensures IsByte(c)
    ensures !IsHexColor(s) ==> c == White
    ensures s == "" ==> c == White
  {
    if s == "" then White
    else if IsHexColor(s) then ParseHexColor(s)
    else White
  }

  /** The lower-case digit for a value below 16. */
  function HexDigitChar(v: nat): (c: char)
    requires v < 16
    ensures IsHexDigit(c) && HexDigitValue(c) == v
  {
    if v < 10 then ('0' as nat + v) as char else ('a' as nat + v - 10) as char
  }

  function PairChars(v: nat): (p: string)
    requires v < 256
    ensures |p| == 2 && IsHexDigit(p[0]) && IsHexDigit(p[1]) && PairValue(p[0], p[1]) == v
  {
    [HexDigitChar(v / 16), HexDigitChar(v % 16)]
  }

  /** The `#rrggbb` spelling of a colour: the partner of the parser. */
  function ToHex(c: Rgb): (s: string)
    requires IsByte(c)
    ensures |s| == 7 && s[0] == '#'
  {
    "#" + PairChars(c.r) + PairChars(c.g) + PairChars(c.b)
  }

  /** Parsing the `#rrggbb` spelling gives the colour back, and so does the spelling without `#`. */
  lemma HexRoundTrip(c: Rgb)
    requires IsByte(c)
    ensures IsHexColor(ToHex(c)) && HexToRgbArray(ToHex(c)) == c
    ensures IsHexColor(ToHex(c)[1..]) && HexToRgbArray(ToHex(c)[1..]) == c
  {
    var s := ToHex(c);
    assert HexBody(s) == s[1..];
    assert HexBody(s[1..]) == s[1..];
  }

  /** ASCII lower case; every other character is kept. */
  function LowerAscii(c: char): char {
    if 'A' <= c <= 'Z' then (c as int + 32) as char else c
  }

  function Lower(s: string): (r: string)
    ensures |r| == |s|
  {
    seq(|s|, i requires 0 <= i < |s| => LowerAscii(s[i]))
  }

  lemma HexDigitLower(c: char)
    ensures IsHexDigit(LowerAscii(c)) <==> IsHexDigit(c)
    ensures IsHexDigit(c) ==> HexDigitValue(LowerAscii(c)) == HexDigitValue(c)
  {
  }

  lemma HexBodyLower(s: string)
    ensures HexBody(Lower(s)) == Lower(HexBody(s))
  {
    if |s| > 0 && s[0] == '#' {
      assert Lower(s)[0] == '#';
      assert Lower(s)[1..] == Lower(s[1..]);
    } else if |s| > 0 {
      assert Lower(s)[0] != '#';
    }
  }

  /** The parser ignores case (the `i` flag): lower-casing a string never changes its colour. */
  lemma HexCaseInsensitive(s: string)
    ensures IsHexColor(Lower(s)) <==> IsHexColor(s)
    ensures HexToRgbArray(Lower(s)) == HexToRgbArray(s)
  {
    var d := HexBody(s);
    HexBodyLower(s);
    var ld := HexBody(Lower(s));
    assert ld == Lower(d);
    forall i | 0 <= i < |d| ensures IsHexDigit(ld[i]) <==> IsHexDigit(d[i]) {
      HexDigitLower(d[i]);
    }
    if IsHexColor(s) {
      HexDigitLower(d[0]); HexDigitLower(d[1]); HexDigitLower(d[2]);
      HexDigitLower(d[3]); HexDigitLower(d[4]); HexDigitLower(d[5]);
      assert ParseHexColor(Lower(s)) == ParseHexColor(s);
    }
  }

  /** Shorthand, alpha and un-prefixed short forms of CSS colours all fall back to white. */
  lemma OtherColourFormsFallBackToWhite()
    ensures HexToRgbArray("#FFF") == White
    ensures HexToRgbArray("#00000080") == White
    ensures HexToRgbArray("rgba(255,255,255,0.4)") == White
    ensures HexToRgbArray("##000000") == White
  {
    assert HexBody("##000000") == "#000000";
    assert !IsHexDigit('#');
  }

  // ---------------------------------------------------------------------------
  // The projection

  /** The keys the projection can emit: nineteen base variables, five secondary-shadow
      variables and the two composite properties. */
  datatype CssKey =
    | GlassBgOpacityVar | GlassBlurRadiusVar | GlassSaturationVar | GlassContrastVar
    | GlassBrightnessVar | GlassChromaticStrengthVar
    | ShadowColorRgbVar | ShadowOpacityPrimaryVar | ShadowYOffsetPrimaryVar
    | ShadowBlurRadiusPrimaryVar | ShadowSpreadPrimaryVar
    | InsetHighlightColorRgbVar | InsetHighlightOpacityVar
    | BorderColorRgbVar | BorderWidthVar | BorderRadiusVar | BorderOpacityVar
    | TextColorVar | TitleColorVar
    | ShadowColorSecondaryRgbVar | ShadowOpacitySecondaryVar | ShadowYOffsetSecondaryVar
    | ShadowBlurRadiusSecondaryVar | ShadowSpreadSecondaryVar
    | BackgroundColorProp | BoxShadowProp
  {
    /** The property name as written in the style object. */
    function Name(): string {
      match this
      case GlassBgOpacityVar => "--glass-bg-opacity"
      case GlassBlurRadiusVar => "--glass-blur-radius"
      case GlassSaturationVar => "--glass-saturation"
      case GlassContrastVar => "--glass-contrast"
      case GlassBrightnessVar => "--glass-brightness"
      case GlassChromaticStrengthVar => "--glass-chromatic-strength"
      case ShadowColorRgbVar => "--shadow-color-rgb"
      case ShadowOpacityPrimaryVar => "--shadow-opacity-primary"
      case ShadowYOffsetPrimaryVar => "--shadow-y-offset-primary"
      case ShadowBlurRadiusPrimaryVar => "--shadow-blur-radius-primary"
      case ShadowSpreadPrimaryVar => "--shadow-spread-primary"
      case InsetHighlightColorRgbVar => "--inset-highlight-color-rgb"
      case InsetHighlightOpacityVar => "--inset-highlight-opacity"
      case BorderColorRgbVar => "--border-color-rgb"
      case BorderWidthVar => "--border-width"
      case BorderRadiusVar => "--border-radius"
      case BorderOpacityVar => "--border-opacity"
      case TextColorVar => "--text-color"
      case TitleColorVar => "--title-color"
      case ShadowColorSecondaryRgbVar => "--shadow-color-secondary-rgb"
      case ShadowOpacitySecondaryVar => "--shadow-opacity-secondary"
      case ShadowYOffsetSecondaryVar => "--shadow-y-offset-secondary"
      case ShadowBlurRadiusSecondaryVar => "--shadow-blur-radius-secondary"
      case ShadowSpreadSecondaryVar => "--shadow-spread-secondary"
      case BackgroundColorProp => "backgroundColor"
      case BoxShadowProp => "boxShadow"
    }

    /** A position in the order the source writes the keys; used to show they are distinct. */
    function Rank(): nat {
      match this
      case GlassBgOpacityVar => 0
      case GlassBlurRadiusVar => 1
      case GlassSaturationVar => 2
      case GlassContrastVar => 3
      case GlassBrightnessVar => 4
      case GlassChromaticStrengthVar => 5
      case ShadowColorRgbVar => 6
      case ShadowOpacityPrimaryVar => 7
      case ShadowYOffsetPrimaryVar => 8
      case ShadowBlurRadiusPrimaryVar => 9
      case ShadowSpreadPrimaryVar => 10
      case InsetHighlightColorRgbVar => 11
      case InsetHighlightOpacityVar => 12
      case BorderColorRgbVar => 13
      case BorderWidthVar => 14
      case BorderRadiusVar => 15
      case BorderOpacityVar => 16
      case TextColorVar => 17
      case TitleColorVar => 18
      case BackgroundColorProp => 19
      case ShadowColorSecondaryRgbVar => 20
      case ShadowOpacitySecondaryVar => 21
      case ShadowYOffsetSecondaryVar => 22
      case ShadowBlurRadiusSecondaryVar => 23
      case ShadowSpreadSecondaryVar => 24
      case BoxShadowProp => 25
    }

    /** A custom property, as opposed to the two composites. */
    predicate IsVariable() {
      !BackgroundColorProp? && !BoxShadowProp?
    }
  }

  /** The key at a position of the source's order; the inverse of `Rank`. */
  function KeyOfRank(n: nat): (k: CssKey)
    requires n < KeyCount
    ensures k.Rank() == n
  {
    match n
    case 0 => GlassBgOpacityVar
    case 1 => GlassBlurRadiusVar
    case 2 => GlassSaturationVar
    case 3 => GlassContrastVar
    case 4 => GlassBrightnessVar
    case 5 => GlassChromaticStrengthVar
    case 6 => ShadowColorRgbVar
    case 7 => ShadowOpacityPrimaryVar
    case 8 => ShadowYOffsetPrimaryVar
    case 9 => ShadowBlurRadiusPrimaryVar
    case 10 => ShadowSpreadPrimaryVar
    case 11 => InsetHighlightColorRgbVar
    case 12 => InsetHighlightOpacityVar
    case 13 => BorderColorRgbVar
    case 14 => BorderWidthVar
    case 15 => BorderRadiusVar
    case 16 => BorderOpacityVar
    case 17 => TextColorVar
    case 18 => TitleColorVar
    case 19 => BackgroundColorProp
    case 20 => ShadowColorSecondaryRgbVar
    case 21 => ShadowOpacitySecondaryVar
    case 22 => ShadowYOffsetSecondaryVar
    case 23 => ShadowBlurRadiusSecondaryVar
    case 24 => ShadowSpreadSecondaryVar
    case _ => BoxShadowProp
  }

  const KeyCount: nat := 26

  lemma RankIsPosition(k: CssKey)
    ensures k.Rank() < KeyCount && KeyOfRank(k.Rank()) == k
  {
  }

  predicate StartsWithDashes(name: string) {
    |name| >= 2 && name[0] == '-' && name[1] == '-'
  }

  /** `key.startsWith('--')` holds exactly for the custom properties. */
  lemma VariableNamesStartWithDashes(k: CssKey)
    ensures StartsWithDashes(k.Name()) <==> k.IsVariable()
  {
  }

  /** A value of the style object: a raw number, or a string (with numbers kept abstract). */
  datatype CssVal = Num(n: real) | Str(t: Text)

  datatype Prop = Prop(key: CssKey, value: CssVal)

  /** `${x}px`. */
  function Px(x: real): CssVal {
    Str([Number(x), Lit("px")])
  }

  /** `${c[0]}, ${c[1]}, ${c[2]}`. */
  function TripletText(c: Rgb): Text {
    [Number(c.r as real), Lit(", "), Number(c.g as real), Lit(", "), Number(c.b as real)]
  }

  predicate HasKey(props: seq<Prop>, key: CssKey) {
    exists i :: 0 <= i < |props| && props[i].key == key
  }

  predicate DistinctKeys(props: seq<Prop>) {
    forall i, j :: 0 <= i < j < |props| ==> props[i].key != props[j].key
  }

  /** Keys appear in strictly increasing rank, that is, in the source's order. */
  predicate RankOrdered(props: seq<Prop>) {
    forall i, j :: 0 <= i < j < |props| ==> props[i].key.Rank() < props[j].key.Rank()
  }

  /** The value stored under a key of the style object, if any (the first entry with it). */
  function Lookup(props: seq<Prop>, key: CssKey): Opt<CssVal> {
    if props == [] then None
    else if props[0].key == key then Some(props[0].value)
    else Lookup(props[1..], key)
  }

  /** A lookup finds a value exactly when some entry has the key, and the value it finds is
      stored under that key. */
  lemma {:induction false} LookupFindsKey(props: seq<Prop>, key: CssKey)
    ensures Lookup(props, key).None? <==> !HasKey(props, key)
    ensures Lookup(props, key).Some? ==> Prop(key, Lookup(props, key).value) in props
  {
    if props != [] && props[0].key != key {
      LookupFindsKey(props[1..], key);
      if HasKey(props, key) {
        var i :| 0 <= i < |props| && props[i].key == key;
        assert i > 0 && props[1..][i - 1].key == key;
      }
      if HasKey(props[1..], key) {
        var i :| 0 <= i < |props[1..]| && props[1..][i].key == key;
        assert props[i + 1].key == key;
      }
    } else if props != [] {
      assert props[0].key == key;
    }
  }

  /** The secondary layer's gate: a truthy colour and defined opacity, y-offset and blur. */
  predicate HasSecondaryShadow(s: RawStyles) {
    Truthy(s.shadowColorSecondary) && s.shadowOpacitySecondary.Some?
    && s.shadowYOffsetSecondary.Some? && s.shadowBlurRadiusSecondary.Some?
  }

  /** The inset highlight's colour: its parsed value when truthy, else white. */
  function InsetHighlightRgb(s: RawStyles): Rgb {
    if Truthy(s.insetHighlightColor) then HexToRgbArray(s.insetHighlightColor.value) else White
  }

  /** `backgroundColor`: the tint when truthy, else white at the glass opacity. */
  function BackgroundColor(s: RawStyles): CssVal {
    if Truthy(s.glassBgColorTint) then Str([Lit(s.glassBgColorTint.value)])
    else Str([Lit("rgba(255, 255, 255, "), Number(s.glassBgOpacity), Lit(")")])
  }

  const PrimaryShadowLayer: string := "0 var(--shadow-y-offset-primary) var(--shadow-blur-radius-primary) var(--shadow-spread-primary) rgba(var(--shadow-color-rgb), var(--shadow-opacity-primary))"
  const SecondaryShadowLayer: string := "0 var(--shadow-y-offset-secondary) var(--shadow-blur-radius-secondary) var(--shadow-spread-secondary) rgba(var(--shadow-color-secondary-rgb), var(--shadow-opacity-secondary))"
  const InsetHighlightLayer: string := "inset 0 1px 0px rgba(var(--inset-highlight-color-rgb), var(--inset-highlight-opacity))"

  /** The layers of `boxShadow`, outermost first. */
  function BoxShadowLayers(s: RawStyles): seq<string> {
    if HasSecondaryShadow(s) then [PrimaryShadowLayer, SecondaryShadowLayer, InsetHighlightLayer]
    else [PrimaryShadowLayer, InsetHighlightLayer]
  }

  /** The `boxShadow` string: three layers joined by ", ", or the two-layer multi-line literal. */
  function BoxShadowText(layers: seq<string>): string
    requires |layers| == 2 || |layers| == 3
  {
    if |layers| == 3 then layers[0] + ", " + layers[1] + ", " + layers[2]
    else "\n      " + layers[0] + ",\n      " + layers[1] + "\n    "
  }

  /** What `createCssVariablesFromRawStyles` stores under a key, or `None` when the key is
      not set: the nineteen base variables and the two composites always, the secondary
      variables only behind the gate, the secondary spread only when it is also defined. */
  function Entry(s: RawStyles, k: CssKey): Opt<CssVal> {
    match k
    case GlassBgOpacityVar => Some(Num(s.glassBgOpacity))
    case GlassBlurRadiusVar => Some(Px(s.glassBlurRadius))
    case GlassSaturationVar => Some(Num(s.glassSaturation))
    case GlassContrastVar => Some(Num(s.glassContrast))
    case GlassBrightnessVar => Some(Num(s.glassBrightness))
    case GlassChromaticStrengthVar => Some(Num(s.glassChromaticStrength))
    case ShadowColorRgbVar => Some(Str(TripletText(HexToRgbArray(s.shadowColor))))
    case ShadowOpacityPrimaryVar => Some(Num(s.shadowOpacityPrimary))
    case ShadowYOffsetPrimaryVar => Some(Px(s.shadowYOffsetPrimary))
    case ShadowBlurRadiusPrimaryVar => Some(Px(s.shadowBlurRadiusPrimary))
    case ShadowSpreadPrimaryVar => Some(Px(s.shadowSpreadPrimary))
    case InsetHighlightColorRgbVar => Some(Str(TripletText(InsetHighlightRgb(s))))
    case InsetHighlightOpacityVar => Some(Num(s.insetHighlightOpacity))
    case BorderColorRgbVar => Some(Str(TripletText(HexToRgbArray(s.borderColor))))
    case BorderWidthVar => Some(Px(s.borderWidth))
    case BorderRadiusVar => Some(Px(s.borderRadius))
    case BorderOpacityVar => Some(Num(s.borderOpacity))
    case TextColorVar => Some(Str([Lit(s.textColor)]))
    case TitleColorVar => Some(Str([Lit(s.titleColor)]))
    case BackgroundColorProp => Some(BackgroundColor(s))
    case ShadowColorSecondaryRgbVar =>
      if HasSecondaryShadow(s) then Some(Str(TripletText(HexToRgbArray(s.shadowColorSecondary.value)))) else None
    case ShadowOpacitySecondaryVar =>
      if HasSecondaryShadow(s) then Some(Num(s.shadowOpacitySecondary.value)) else None
    case ShadowYOffsetSecondaryVar =>
      if HasSecondaryShadow(s) then Some(Px(s.shadowYOffsetSecondary.value)) else None
    case ShadowBlurRadiusSecondaryVar =>
      if HasSecondaryShadow(s) then Some(Px(s.shadowBlurRadiusSecondary.value)) else None
    case ShadowSpreadSecondaryVar =>
      if HasSecondaryShadow(s) && s.shadowSpreadSecondary.Some? then Some(Px(s.shadowSpreadSecondary.value)) else None
    case BoxShadowProp => Some(Str([Lit(BoxShadowText(BoxShadowLayers(s)))]))
  }

  /** The entries for the keys from position `n` of the source's order onwards, where
      `entry` says what (if anything) is stored under each key. */
  function EntriesFrom(entry: CssKey -> Opt<CssVal>, n: nat): (props: seq<Prop>)
    requires n <= KeyCount
    decreases KeyCount - n
  {
    if n == KeyCount then []
    else
      var k := KeyOfRank(n);
      var rest := EntriesFrom(entry, n + 1);
      match entry(k)
      case Some(v) => [Prop(k, v)] + rest
      case None => rest
  }

  /** `createCssVariablesFromRawStyles`: the style object as its entries in insertion order. */
  function CreateCssVariables(s: RawStyles): seq<Prop> {
    EntriesFrom(k => Entry(s, k), 0)
  }

  /** The entries from position `n` come in the source's order, all at or after `n`. */
  lemma {:induction false} EntriesFromOrdered(entry: CssKey -> Opt<CssVal>, n: nat)
    requires n <= KeyCount
    ensures forall i :: 0 <= i < |EntriesFrom(entry, n)| ==> n <= EntriesFrom(entry, n)[i].key.Rank()
    ensures RankOrdered(EntriesFrom(entry, n))
    decreases KeyCount - n
  {
    if n < KeyCount {
      EntriesFromOrdered(entry, n + 1);
    }
  }

  /** Every entry comes from `entry`, and every key from position `n` on that it sets is present. */
  lemma {:induction false} EntriesFromLookup(entry: CssKey -> Opt<CssVal>, n: nat, k: CssKey)
    requires n <= KeyCount
    ensures Lookup(EntriesFrom(entry, n), k) == if n <= k.Rank() then entry(k) else None
    decreases KeyCount - n
  {
    if n < KeyCount {
      var kn := KeyOfRank(n);
      var rest := EntriesFrom(entry, n + 1);
      EntriesFromLookup(entry, n + 1, k);
      if kn == k {
        assert n == k.Rank();
      } else {
        assert n != k.Rank();
        match entry(kn)
        case Some(v) =>
          assert EntriesFrom(entry, n) == [Prop(kn, v)] + rest;
          assert ([Prop(kn, v)] + rest)[1..] == rest;
        case None =>
      }
    }
  }

  /** The style object holds exactly the keys `Entry` sets, each once, in the source's order,
      and each with the value `Entry` gives it. */
  lemma ProjectionIsEntries(s: RawStyles, k: CssKey)
    ensures Lookup(CreateCssVariables(s), k) == Entry(s, k)
    ensures HasKey(CreateCssVariables(s), k) <==> Entry(s, k).Some?
  {
    EntriesFromLookup(k => Entry(s, k), 0, k);
    LookupFindsKey(CreateCssVariables(s), k);
  }

  /** Each key is set at most once, and the keys come in the source's order. */
  lemma ProjectionKeysOrdered(s: RawStyles)
    ensures RankOrdered(CreateCssVariables(s))
    ensures DistinctKeys(CreateCssVariables(s))
  {
    EntriesFromOrdered(k => Entry(s, k), 0);
  }

  /** The nineteen base variables and both composites are always set; the five secondary
      variables are set only behind the gate. */
  lemma BaseKeysAlwaysSet(s: RawStyles, k: CssKey)
    ensures Entry(s, k).Some? <==>
      (k.Rank() <= 19 || k == BoxShadowProp
       || (HasSecondaryShadow(s) && (k != ShadowSpreadSecondaryVar || s.shadowSpreadSecondary.Some?)))
  {
  }

  /** `backgroundColor` is the tint when it is non-empty, else `rgba(255, 255, 255, opacity)`. */
  lemma ProjectionBackground(s: RawStyles)
    ensures Truthy(s.glassBgColorTint) ==> Entry(s, BackgroundColorProp) == Some(Str([Lit(s.glassBgColorTint.value)]))
    ensures !Truthy(s.glassBgColorTint) ==>
      Entry(s, BackgroundColorProp) == Some(Str([Lit("rgba(255, 255, 255, "), Number(s.glassBgOpacity), Lit(")")]))
  {
  }

  /** `boxShadow` has three layers (primary, secondary, inset) exactly when the gate holds,
      otherwise two (primary, inset). */
  lemma ProjectionShadowLayers(s: RawStyles)
    ensures |BoxShadowLayers(s)| == 3 <==> HasSecondaryShadow(s)
    ensures |BoxShadowLayers(s)| == 2 <==> !HasSecondaryShadow(s)
    ensures BoxShadowLayers(s)[0] == PrimaryShadowLayer
    ensures BoxShadowLayers(s)[|BoxShadowLayers(s)| - 1] == InsetHighlightLayer
    ensures HasSecondaryShadow(s) ==> BoxShadowLayers(s)[1] == SecondaryShadowLayer
    ensures Entry(s, BoxShadowProp) == Some(Str([Lit(BoxShadowText(BoxShadowLayers(s)))]))
  {
  }

  /** A secondary colour and opacity without a y-offset or a blur set no secondary variable
      and leave the shadow at two layers. */
  lemma PartialSecondaryIsAbsent(s: RawStyles, k: CssKey)
    requires Truthy(s.shadowColorSecondary) && s.shadowOpacitySecondary.Some?
    requires s.shadowYOffsetSecondary.None? || s.shadowBlurRadiusSecondary.None?
    requires 20 <= k.Rank() <= 24
    ensures Entry(s, k).None?
    ensures |BoxShadowLayers(s)| == 2
  {
  }

  /** Pixel fields carry a `px` suffix; opacities stay numbers. */
  lemma ProjectionBaseFields(s: RawStyles)
    ensures Entry(s, GlassBgOpacityVar) == Some(Num(s.glassBgOpacity))
    ensures Entry(s, GlassBlurRadiusVar) == Some(Str([Number(s.glassBlurRadius), Lit("px")]))
    ensures Entry(s, BorderWidthVar) == Some(Str([Number(s.borderWidth), Lit("px")]))
    ensures Entry(s, BorderRadiusVar) == Some(Str([Number(s.borderRadius), Lit("px")]))
    ensures Entry(s, BorderOpacityVar) == Some(Num(s.borderOpacity))
  {
  }

  /** Colours become parsed triplets, white for a missing inset highlight. */
  lemma ProjectionColourFields(s: RawStyles)
    ensures IsHexColor(s.borderColor) ==>
      Entry(s, BorderColorRgbVar) == Some(Str(TripletText(ParseHexColor(s.borderColor))))
    ensures !Truthy(s.insetHighlightColor) ==>
      Entry(s, InsetHighlightColorRgbVar) == Some(Str(TripletText(White)))
  {
  }
}
