/** The editor's small pure rules: the elastic stretch, the grid placement of new elements,
    their default content, the darken-for-light-background override and export file names. */
module Interaction {
  import opened Types
  import opened StyleProjection

  // ---------------------------------------------------------------------------
  // Elastic stretch

  const MaxStretch: real := 0.08
  const MinScale: real := 0.85
  const MaxScale: real := 1.15

  /** `Math.max(lo, Math.min(x, hi))`. */
  function Clamp(x: real, lo: real, hi: real): (r: real)
    requires lo <= hi
    ensures lo <= r <= hi
    ensures lo <= x <= hi ==> r == x
  {
    if x > hi then hi else if x < lo then lo else x
  }

  /** `(p - c) / (c || 1)`: the pointer's offset from the centre, in half-extents. */
  function Pull(pointer: real, center: real): real {
    (pointer - center) / OrElse(center, 1.0)
  }

  /** The elastic scale along one axis: with positive elasticity, `1 + pull * (e / 100) * 0.08`
      clamped to [0.85, 1.15]; otherwise 1. */
  function ElasticScale(elasticity: real, pointer: real, center: real): (r: real)
    ensures MinScale <= r <= MaxScale
    ensures elasticity <= 0.0 ==> r == 1.0
  {
    if elasticity > 0.0 then
      Clamp(1.0 + Pull(pointer, center) * (elasticity / 100.0) * MaxStretch, MinScale, MaxScale)
    else 1.0
  }

  /** Inside the element and with elasticity in the slider's range the clamp never bites: the
      scale is the unclamped stretch, within 8% of 1, growing towards the pointer's side. */
  lemma ClampInactiveInsideElement(elasticity: real, pointer: real, center: real)
    requires 0.0 < elasticity <= 100.0
    requires center > 0.0 && 0.0 <= pointer <= 2.0 * center
    ensures ElasticScale(elasticity, pointer, center) == 1.0 + Pull(pointer, center) * (elasticity / 100.0) * MaxStretch
    ensures 1.0 - MaxStretch <= ElasticScale(elasticity, pointer, center) <= 1.0 + MaxStretch
    ensures pointer > center <==> ElasticScale(elasticity, pointer, center) > 1.0
  {
    PullInUnitRange(pointer, center);
    ScaledPullInUnitRange(Pull(pointer, center), elasticity / 100.0);
  }

  /** Within the element the pull lies in [-1, 1] and is positive exactly right of the centre. */
  lemma PullInUnitRange(pointer: real, center: real)
    requires center > 0.0 && 0.0 <= pointer <= 2.0 * center
    ensures -1.0 <= Pull(pointer, center) <= 1.0
    ensures Pull(pointer, center) > 0.0 <==> pointer > center
  {
    var d := pointer - center;
    var q := d / center;
    assert Pull(pointer, center) == q;
    assert q * center == d;
    ProductSign(q - 1.0, center);
    ProductSign(q + 1.0, center);
    ProductSign(q, center);
  }

  /** Multiplying by a positive number keeps the sign. */
  lemma ProductSign(x: real, c: real)
    requires c > 0.0
    ensures x > 0.0 <==> x * c > 0.0
    ensures x < 0.0 <==> x * c < 0.0
  {
  }

  lemma ScaledPullInUnitRange(p: real, f: real)
    requires -1.0 <= p <= 1.0 && 0.0 < f <= 1.0
    ensures -1.0 <= p * f <= 1.0
    ensures p * f > 0.0 <==> p > 0.0
  {
    if p >= 0.0 {
      assert p * f <= p * 1.0;
    } else {
      assert p * f >= p * 1.0;
    }
  }

  // ---------------------------------------------------------------------------
  // New elements

  /** The n-th new element's position: five columns 40 apart, starting at (50, 50). */
  function GridPosition(n: nat): Position {
    Position(50.0 + ((n % 5) * 40) as real, 50.0 + ((n / 5) * 40) as real)
  }

  /** Different counts give different positions, all in the five columns from x = 50 to 210. */
  lemma GridPositionsDistinct(a: nat, b: nat)
    ensures GridPosition(a) == GridPosition(b) <==> a == b
    ensures 50.0 <= GridPosition(a).x <= 210.0 && 50.0 <= GridPosition(a).y
  {
    if GridPosition(a) == GridPosition(b) {
      assert (a % 5) * 40 == (b % 5) * 40;
      assert (a / 5) * 40 == (b / 5) * 40;
      assert a % 5 == b % 5 && a / 5 == b / 5;
      assert a == (a / 5) * 5 + a % 5 && b == (b / 5) * 5 + b % 5;
    }
  }

  /** The content a new element of each type starts with. */
  function DefaultContent(kind: ElementKind): (c: ElementContent)
    ensures kind == Button <==> Truthy(c.text)
    ensures kind != Button <==> Truthy(c.title)
    ensures Truthy(c.icon) && (Truthy(c.body) <==> kind == Card)
  {
    match kind
    case Button => ElementContent(Some("Liquid Button"), None, None, Some("fas fa-magic"))
    case Card => ElementContent(None, Some("Glass Card"), Some("Drag me anywhere"), Some("fas fa-gem"))
    case Panel => ElementContent(None, Some("Control Panel"), None, Some("fas fa-sliders-h"))
  }

  // ---------------------------------------------------------------------------
  // Darken for light backgrounds

  const DarkTint: string := "rgba(20, 20, 30, 0.25)"

  /** A dark tint and white text and titles over the given styles. */
  function DarkenOverride(s: RawStyles): RawStyles {
    s.(glassBgColorTint := Some(DarkTint), textColor := "#FFFFFF", titleColor := "#FFFFFF")
  }

  /** The override touches exactly the tint and the two text colours, and applying it twice is
      the same as once. */
  lemma DarkenOverrideChangesThreeFields(s: RawStyles)
    ensures var d := DarkenOverride(s);
      && d == s.(glassBgColorTint := d.glassBgColorTint, textColor := d.textColor, titleColor := d.titleColor)
      && DarkenOverride(d) == d
      && (d == s <==> s.glassBgColorTint == Some(DarkTint) && s.textColor == "#FFFFFF" && s.titleColor == "#FFFFFF")
  {
  }

  /** Darkened styles always project to the dark background and white text. */
  lemma DarkenedProjection(s: RawStyles)
    ensures Entry(DarkenOverride(s), BackgroundColorProp) == Some(Str([Lit(DarkTint)]))
    ensures Entry(DarkenOverride(s), TextColorVar) == Some(Str([Lit("#FFFFFF")]))
    ensures Entry(DarkenOverride(s), TitleColorVar) == Some(Str([Lit("#FFFFFF")]))
    ensures forall k :: k != BackgroundColorProp && k != TextColorVar && k != TitleColorVar ==>
      Entry(DarkenOverride(s), k) == Entry(s, k)
  {
  }

  /** The styles an element is drawn with: darkened only while the toggle is on and the element
      is the selected one; the stored styles are never changed. */
  function RenderedStyles(el: Element, darkenActive: bool, selectedId: Opt<string>): (s: RawStyles)
    ensures s == el.rawStyleParams || s == DarkenOverride(el.rawStyleParams)
    ensures selectedId != Some(el.id) || !darkenActive ==> s == el.rawStyleParams
    ensures selectedId == Some(el.id) && darkenActive ==> s == DarkenOverride(el.rawStyleParams)
    ensures selectedId == Some(el.id) && darkenActive ==>
      s.glassBgColorTint == Some(DarkTint) && s.textColor == "#FFFFFF" && s.titleColor == "#FFFFFF"
  {
    if darkenActive && selectedId == Some(el.id) then DarkenOverride(el.rawStyleParams) else el.rawStyleParams
  }

  // ---------------------------------------------------------------------------
  // Export file names

  function Extension(t: ExportFileType): string {
    match t
    case Tsx => ".tsx"
    case Css => ".css"
    case Figma => ".json"
  }

  /** `liquid-glass-${type}` plus the file type's extension. */
  function ExportFilename(kind: ElementKind, t: ExportFileType): string {
    "liquid-glass-" + kind.Name() + Extension(t)
  }

  /** The file name is the fixed prefix, the element type's name and the extension, which
      tells the three file types apart. */
  lemma ExportFilenameParts(kind: ElementKind, t: ExportFileType)
    ensures var f := ExportFilename(kind, t);
      && f[..13] == "liquid-glass-" && f[13..|f| - |Extension(t)|] == kind.Name()
      && (t == Tsx <==> f[|f| - 4..] == ".tsx")
      && (t == Css <==> f[|f| - 4..] == ".css")
      && (t == Figma <==> f[|f| - 5..] == ".json")
  {
    var e := Extension(t);
    ConcatenationParts("liquid-glass-", kind.Name(), e);
    var f := ExportFilename(kind, t);
    assert f[|f| - 4..] == e[|e| - 4..] by {
      SuffixOfSuffix(f, |e|, 4);
    }
    assert f[|f| - 5] != '.' || e == ".json" by {
      if e != ".json" {
        assert f[|f| - 5] == kind.Name()[|kind.Name()| - 1];
      }
    }
  }

  /** The three parts of a concatenation can be cut back out of it. */
  lemma ConcatenationParts(p: string, k: string, e: string)
    ensures var f := p + k + e;
      f[..|p|] == p && f[|p|..|f| - |e|] == k && f[|f| - |e|..] == e
  {
  }

  /** The last `n` characters of a string lie within its last `m` when `n <= m`. */
  lemma SuffixOfSuffix(f: string, m: nat, n: nat)
    requires n <= m <= |f|
    ensures f[|f| - n..] == f[|f| - m..][m - n..]
  {
  }

  /** Different element types or file types never share a file name. */
  lemma ExportFilenamesDistinct(k1: ElementKind, t1: ExportFileType, k2: ElementKind, t2: ExportFileType)
    ensures ExportFilename(k1, t1) == ExportFilename(k2, t2) <==> k1 == k2 && t1 == t2
  {
    var a := ExportFilename(k1, t1);
    var b := ExportFilename(k2, t2);
    if a == b {
      assert a[13] == k1.Name()[0] && b[13] == k2.Name()[0];
      assert k1 == k2;
      var n := 13 + |k1.Name()|;
      assert a[n..] == Extension(t1) && b[n..] == Extension(t2);
      assert Extension(t1)[1] == a[n + 1] && Extension(t2)[1] == b[n + 1];
    }
  }
}
