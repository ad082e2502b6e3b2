/** The conceptual mapper: linear maps between the editor's slider values and the raw
    style fields they drive. */
module Conceptual {
  import opened Types
  import opened Constants

  /** The values a zero (or absent) raw field reads as, one per key that has a fallback. */
  datatype Fallbacks = Fallbacks(chromatic: real, saturation: real, blur: real, border: real)

  /** The fallbacks of the editor's handlers. */
  const AppFallbacks: Fallbacks := Fallbacks(0.03, 1.5, 20.0, 1.2)

  /** The fallbacks `INITIAL_CONCEPTUAL_SLIDER_VALUES` uses. */
  const CatalogFallbacks: Fallbacks := Fallbacks(0.03, 1.5, 16.0, 1.0)

  /** The raw field a mapped key drives. */
  function RawField(s: RawStyles, key: ConceptualKey): real
    requires key != Elasticity
  {
    match key
    case Transmission => s.glassBgOpacity
    case ChromaticAberration => s.glassChromaticStrength
    case BackdropSaturation => s.glassSaturation
    case Roughness => s.glassBlurRadius
    case Thickness => s.borderWidth
  }

  /** The fallback a mapped key reads a zero raw field as; transmission has none. */
  function FallbackFor(fb: Fallbacks, key: ConceptualKey): real
    requires key != Elasticity && key != Transmission
  {
    match key
    case ChromaticAberration => fb.chromatic
    case BackdropSaturation => fb.saturation
    case Roughness => fb.blur
    case Thickness => fb.border
  }

  /** `mapConceptualToRawStyles`: a single-field patch per mapped key, none for elasticity. */
  function MapConceptualToRawStyles(key: ConceptualKey, v: real): (patch: StylePatch)
    ensures key == Elasticity <==> patch == []
    ensures key != Elasticity ==> |patch| == 1
  {
    match key
    case Transmission => [GlassBgOpacity(v / 100.0)]
    case ChromaticAberration => [GlassChromaticStrength(v / 333.0)]
    case BackdropSaturation => [GlassSaturation(v / 100.0)]
    case Roughness => [GlassBlurRadius(v / 100.0 * 50.0)]
    case Thickness => [BorderWidth(v / 10.0)]
    case Elasticity => []
  }

  /** The raw-to-conceptual reading: `opacity * 100` and `(x || d) * k` for the other four. */
  function ReadConceptual(s: RawStyles, fb: Fallbacks, elasticity: real): ConceptualValues {
    ConceptualValues(
      transmission := s.glassBgOpacity * 100.0,
      chromaticAberration := OrElse(s.glassChromaticStrength, fb.chromatic) * 333.0,
      backdropSaturation := OrElse(s.glassSaturation, fb.saturation) * 100.0,
      roughness := OrElse(s.glassBlurRadius, fb.blur) / 50.0 * 100.0,
      thickness := OrElse(s.borderWidth, fb.border) * 10.0,
      elasticity := elasticity)
  }

  /** The documented slider ranges. */
  predicate InSliderRange(c: ConceptualValues) {
    && 0.0 <= c.transmission <= 100.0
    && 0.0 <= c.chromaticAberration <= 100.0
    && 0.0 <= c.backdropSaturation <= 300.0
    && 0.0 <= c.roughness <= 100.0
    && 5.0 <= c.thickness <= 50.0
    && 0.0 <= c.elasticity <= 100.0
  }

  /** A key's patch sets its own raw field to the scaled slider value and leaves the rest of
      the record as it was; elasticity changes nothing. */
  lemma PatchSetsOnlyItsField(s: RawStyles, key: ConceptualKey, v: real)
    ensures var t := Merge(s, MapConceptualToRawStyles(key, v));
      && (key == Transmission ==> t == s.(glassBgOpacity := v / 100.0))
      && (key == ChromaticAberration ==> t == s.(glassChromaticStrength := v / 333.0))
      && (key == BackdropSaturation ==> t == s.(glassSaturation := v / 100.0))
      && (key == Roughness ==> t == s.(glassBlurRadius := v / 100.0 * 50.0))
      && (key == Thickness ==> t == s.(borderWidth := v / 10.0))
      && (key == Elasticity ==> t == s)
  {
  }

  /** Round trip raw -> conceptual -> raw: a non-zero raw value comes back unchanged; a zero
      one (JavaScript `||` treats it as missing) comes back as the fallback. */
  lemma RawConceptualRawRoundTrip(s: RawStyles, key: ConceptualKey, elasticity: real)
    requires key != Elasticity
    ensures var back := Merge(s, MapConceptualToRawStyles(key, ReadConceptual(s, AppFallbacks, elasticity).Get(key)));
      && (key == Transmission || RawField(s, key) != 0.0 ==> back == s)
      && (key != Transmission && RawField(s, key) == 0.0 ==>
            RawField(back, key) == FallbackFor(AppFallbacks, key)
            && back == Merge(s, MapConceptualToRawStyles(key, ReadConceptual(back, AppFallbacks, elasticity).Get(key))))
  {
  }

  /** Round trip conceptual -> raw -> conceptual: setting a slider and reading it back gives
      the slider's value (unless it is zero on a key with a fallback), and every other reading
      is unchanged. */
  lemma ConceptualRawConceptualRoundTrip(s: RawStyles, key: ConceptualKey, v: real, fb: Fallbacks, elasticity: real)
    requires key != Elasticity
    requires key == Transmission || v != 0.0
    ensures var after := ReadConceptual(Merge(s, MapConceptualToRawStyles(key, v)), fb, elasticity);
      && after.Get(key) == v
      && forall k :: k != key ==> after.Get(k) == ReadConceptual(s, fb, elasticity).Get(k)
  {
  }

  /** Slider values inside their ranges map to raw values inside the raw ranges. */
  lemma SliderRangesMapToRawRanges(c: ConceptualValues, s: RawStyles)
    requires InSliderRange(c)
    ensures var t := Merge(Merge(Merge(Merge(Merge(s,
                MapConceptualToRawStyles(Transmission, c.transmission)),
                MapConceptualToRawStyles(ChromaticAberration, c.chromaticAberration)),
                MapConceptualToRawStyles(BackdropSaturation, c.backdropSaturation)),
                MapConceptualToRawStyles(Roughness, c.roughness)),
                MapConceptualToRawStyles(Thickness, c.thickness));
      && 0.0 <= t.glassBgOpacity <= 1.0
      && 0.0 <= t.glassChromaticStrength <= 100.0 / 333.0
      && 0.0 <= t.glassSaturation <= 3.0
      && 0.0 <= t.glassBlurRadius <= 50.0
      && 0.5 <= t.borderWidth <= 5.0
  {
  }

  /** `INITIAL_CONCEPTUAL_SLIDER_VALUES` is the reading of the default styles with elasticity 0,
      whichever fallbacks are used, because none of the default's mapped fields is zero. */
  lemma InitialConceptualIsReadingOfDefault()
    ensures InitialConceptualSliderValues == ReadConceptual(DefaultRawStyles, CatalogFallbacks, 0.0)
    ensures InitialConceptualSliderValues == ReadConceptual(DefaultRawStyles, AppFallbacks, 0.0)
    ensures InitialConceptualSliderValues == ConceptualValues(10.0, 9.99, 150.0, 32.0, 10.0, 0.0)
  {
  }

  /** The fallbacks matter exactly where a raw field is zero: there the two readings differ on
      roughness and thickness. */
  lemma FallbacksDisagreeOnZeroBlur(s: RawStyles)
    requires s.glassBlurRadius == 0.0 && s.borderWidth == 0.0
    ensures ReadConceptual(s, AppFallbacks, 0.0).roughness == 40.0
    ensures ReadConceptual(s, CatalogFallbacks, 0.0).roughness == 32.0
    ensures ReadConceptual(s, AppFallbacks, 0.0).thickness == 12.0
    ensures ReadConceptual(s, CatalogFallbacks, 0.0).thickness == 10.0
  {
  }
}
