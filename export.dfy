/** The three exporters: a Framer/React component, a CSS rule set and a Figma node. Each is
    modelled as the structured data its template interpolates; the template's fixed text,
    layout and whitespace are not modelled. */
module Export {
  import opened Types
  import opened StyleProjection

  // ---------------------------------------------------------------------------
  // Shared helpers

  /** `s.substring(0, n)`. */
  function Take(s: string, n: nat): (r: string)
    ensures |r| == if |s| < n then |s| else n
    ensures r == s[..|r|]
  {
    if |s| < n then s else s[..n]
  }

  /** The value of a style entry as `${value}` prints it. */
  function Render(v: CssVal): Text {
    match v
    case Num(n) => [Number(n)]
    case Str(t) => t
  }

  // ---------------------------------------------------------------------------
  // Framer / React component

  function UpperAscii(c: char): char {
    if 'a' <= c <= 'z' then (c as int - 32) as char else c
  }

  /** `s.charAt(0).toUpperCase() + s.slice(1)` (ASCII letters only). */
  function Capitalize(s: string): (r: string)
    ensures |r| == |s|
    ensures s != [] ==> r[1..] == s[1..]
  {
    if s == [] then [] else [UpperAscii(s[0])] + s[1..]
  }

  /** The component is named after the element's type. */
  lemma ComponentNames()
    ensures "Liquid" + Capitalize(Button.Name()) == "LiquidButton"
    ensures "Liquid" + Capitalize(Card.Name()) == "LiquidCard"
    ensures "Liquid" + Capitalize(Panel.Name()) == "LiquidPanel"
  {
  }

  /** `s.replace(/`/g, '\\`')`: the escape as the source writes it. */
  function EscapeBackticks(s: string): (r: string)
    ensures |r| >= |s|
  {
    if s == [] then []
    else if s[0] == '`' then ['\\', '`'] + EscapeBackticks(s[1..])
    else [s[0]] + EscapeBackticks(s[1..])
  }

  lemma {:induction false} EscapedNeverStartsWithBacktick(s: string)
    ensures EscapeBackticks(s) == [] || EscapeBackticks(s)[0] != '`'
  {
  }

  /** Every backtick of the escaped string is preceded by a backslash. That backslash can itself
      be escaped by one before it, so this does not keep the backtick inside a template literal
      (see `EscapeBackticksMisreads`). */
  lemma {:induction false} EscapedBackticksArePreceded(s: string)
    ensures forall i :: 0 <= i < |EscapeBackticks(s)| && EscapeBackticks(s)[i] == '`' ==>
      i > 0 && EscapeBackticks(s)[i - 1] == '\\'
  {
    if s != [] {
      EscapedBackticksArePreceded(s[1..]);
      EscapedNeverStartsWithBacktick(s[1..]);
      var rest := EscapeBackticks(s[1..]);
      var r := EscapeBackticks(s);
      var k := if s[0] == '`' then 2 else 1;
      assert r[k..] == rest;
      forall i | 0 <= i < |r| && r[i] == '`' ensures i > 0 && r[i - 1] == '\\' {
        if i >= k {
          assert r[i] == rest[i - k];
          if i - k > 0 {
            assert r[i - 1] == rest[i - k - 1];
          }
        }
      }
    }
  }

  /** How JavaScript reads the text between the backticks of a template literal. */
  datatype TemplateReading =
    | Cooked(s: string)   // read whole, as this string
    | ClosesEarly         // an unescaped backtick ends the literal before the text does
    | Substitution        // an unescaped `${` starts an interpolation
    | EscapedClose        // a trailing backslash escapes the closing backtick
    | OtherEscape         // an escape other than `\\`, `\``, `\$`, `\r` (not modelled)

  function Prepend(c: char, r: TemplateReading): (r': TemplateReading)
    ensures r.Cooked? ==> r' == Cooked([c] + r.s)
    ensures !r.Cooked? ==> r' == r
  {
    if r.Cooked? then Cooked([c] + r.s) else r
  }

  /** The cooked value of a template literal whose body is `t`: `\\`, `\`` and `\$` stand for
      the character after the backslash and `\r` for a carriage return; a raw carriage return,
      alone or before a line feed, reads as a line feed; an unescaped backtick closes the
      literal and an unescaped `${` opens a substitution. */
  function ReadTemplate(t: string): TemplateReading {
    if t == [] then Cooked([])
    else if t[0] == '`' then ClosesEarly
    else if t[0] == '$' && |t| >= 2 && t[1] == '{' then Substitution
    else if t[0] == '\\' then
      if |t| == 1 then EscapedClose
      else if t[1] == '\\' || t[1] == '`' || t[1] == '$' then Prepend(t[1], ReadTemplate(t[2..]))
      else if t[1] == 'r' then Prepend('\r', ReadTemplate(t[2..]))
      else OtherEscape
    else if t[0] == '\r' then
      if |t| >= 2 && t[1] == '\n' then Prepend('\n', ReadTemplate(t[2..]))
      else Prepend('\n', ReadTemplate(t[1..]))
    else Prepend(t[0], ReadTemplate(t[1..]))
  }

  /** Text with no backslash, no dollar sign and no carriage return: the backtick-only escape
      keeps it whole. */
  predicate PlainMarkup(s: string) {
    forall i :: 0 <= i < |s| ==> s[i] != '\\' && s[i] != '$' && s[i] != '\r'
  }

  /** Text without backslashes or dollar signs survives the backtick-only escape. */
  lemma {:induction false} EscapeBackticksReadsBackPlainText(s: string)
    requires PlainMarkup(s)
    ensures ReadTemplate(EscapeBackticks(s)) == Cooked(s)
  {
    if s != [] {
      assert forall i :: 0 <= i < |s[1..]| ==> s[1..][i] == s[i + 1];
      EscapeBackticksReadsBackPlainText(s[1..]);
      var rest := EscapeBackticks(s[1..]);
      if s[0] == '`' {
        assert (['\\', '`'] + rest)[2..] == rest;
      } else {
        assert ([s[0]] + rest)[1..] == rest;
      }
      assert s == [s[0]] + s[1..];
    }
  }

  /** The backtick-only escape lets a backslash before a backtick close the literal early,
      passes `${` through as a substitution, and leaves a carriage return to be read as a line
      feed. */
  lemma EscapeBackticksMisreads()
    ensures ReadTemplate(EscapeBackticks("\\`")) == ClosesEarly
    ensures ReadTemplate(EscapeBackticks("${x}")) == Substitution
    ensures ReadTemplate(EscapeBackticks("a\rb")) == Cooked("a\nb")
  {
    assert EscapeBackticks("a\rb") == "a\rb";
    assert EscapeBackticks("\\`") == ['\\', '\\', '`'];
    assert ['\\', '\\', '`'][2..] == "`";
    assert EscapeBackticks("${x}") == "${x}";
  }

  /** The escape the pasted inner HTML needs: a backslash before every backslash, backtick and
      dollar sign, and a carriage return written as `\r`. */
  function EscapeTemplate(s: string): (r: string)
    ensures |r| >= |s|
  {
    if s == [] then []
    else if s[0] == '\\' || s[0] == '`' || s[0] == '$' then ['\\', s[0]] + EscapeTemplate(s[1..])
    else if s[0] == '\r' then ['\\', 'r'] + EscapeTemplate(s[1..])
    else [s[0]] + EscapeTemplate(s[1..])
  }

  /** On plain markup the corrected escape and the source's escape produce the same text. */
  lemma {:induction false} EscapesAgreeOnPlainMarkup(s: string)
    requires PlainMarkup(s)
    ensures EscapeTemplate(s) == EscapeBackticks(s)
  {
    if s != [] {
      assert PlainMarkup(s[1..]) by {
        assert forall i :: 0 <= i < |s[1..]| ==> s[1..][i] == s[i + 1];
      }
      EscapesAgreeOnPlainMarkup(s[1..]);
    }
  }

  /** Every text reads back whole, and unchanged, from a template literal built by `EscapeTemplate`. */
  lemma {:induction false} EscapeTemplateReadsBack(s: string)
    ensures ReadTemplate(EscapeTemplate(s)) == Cooked(s)
  {
    if s != [] {
      EscapeTemplateReadsBack(s[1..]);
      var rest := EscapeTemplate(s[1..]);
      if s[0] == '\\' || s[0] == '`' || s[0] == '$' {
        assert (['\\', s[0]] + rest)[2..] == rest;
      } else if s[0] == '\r' {
        assert (['\\', 'r'] + rest)[2..] == rest;
      } else {
        assert ([s[0]] + rest)[1..] == rest;
      }
      assert s == [s[0]] + s[1..];
    }
  }

  /** `x ? `…${x}…` : ''` for an optional string. */
  function Wrap(o: Opt<string>, before: string, after: string): (r: string)
    ensures Truthy(o) ==> r == before + o.value + after
    ensures !Truthy(o) ==> r == ""
  {
    if Truthy(o) then before + o.value + after else ""
  }

  /** The inner HTML of the default content: icon and text (or "Button") for a button; icon,
      title and body for a card or panel, or an "Empty Panel"/"Empty Card" paragraph when all
      three are missing. */
  function ChildrenHtml(kind: ElementKind, c: ElementContent): string {
    match kind
    case Button =>
      Wrap(c.icon, "<i class=\"", " mr-2\"></i>") + (if Truthy(c.text) then c.text.value else "Button")
    case _ =>
      if Truthy(c.icon) || Truthy(c.title) || Truthy(c.body) then
        Wrap(c.icon, "<i class=\"", " text-2xl mb-3 block text-center opacity-70\"></i>")
        + Wrap(c.title, "<h4 class=\"card-title\">", "</h4>")
        + Wrap(c.body, "<p class=\"card-body\">", "</p>")
      else "<p class=\"card-body\">Empty " + EmptyLabel(kind) + "</p>"
  }

  function EmptyLabel(kind: ElementKind): string {
    if kind == Panel then "Panel" else "Card"
  }

  /** `${content.title || content.body || content.icon}`: an absent icon prints "undefined". */
  function ContentProbe(c: ElementContent): string {
    if Truthy(c.title) then c.title.value
    else if Truthy(c.body) then c.body.value
    else if c.icon.Some? then c.icon.value
    else "undefined"
  }

  /** The custom properties the component sets: the projection with `backgroundColor` and
      `boxShadow` deleted and only `--` keys kept. */
  function KeepCustomProperties(props: seq<Prop>): seq<Prop> {
    if props == [] then []
    else if StartsWithDashes(props[0].key.Name()) then [props[0]] + KeepCustomProperties(props[1..])
    else KeepCustomProperties(props[1..])
  }

  /** What `generateFramerComponentString` interpolates into its template. */
  datatype FramerComponent = FramerComponent(
    componentName: string,      // Liquid${typeName}
    styleEntries: seq<Prop>,    // componentStyle
    typeName: string,           // "${type}"
    defaultText: string,        // ${content.text || 'Button'}
    contentProbe: string,       // ${content.title || content.body || content.icon}
    emptyLabel: string,         // Empty ${type === 'panel' ? 'Panel' : 'Card'}
    childrenHtml: string)       // \`${escapedChildrenInnerHTMLString}\`

  /** An optional content field that is absent or plain. */
  predicate PlainField(o: Opt<string>) {
    o.Some? ==> PlainMarkup(o.value)
  }

  /** Content every present field of which is plain. */
  predicate PlainContent(c: ElementContent) {
    PlainField(c.text) && PlainField(c.title) && PlainField(c.body) && PlainField(c.icon)
  }

  lemma PlainConcat(a: string, b: string)
    requires PlainMarkup(a) && PlainMarkup(b)
    ensures PlainMarkup(a + b)
  {
    forall i | 0 <= i < |a + b| ensures (a + b)[i] != '\\' && (a + b)[i] != '$' && (a + b)[i] != '\r' {
      if i >= |a| {
        assert (a + b)[i] == b[i - |a|];
      }
    }
  }

  lemma WrapPlain(o: Opt<string>, before: string, after: string)
    requires PlainField(o) && PlainMarkup(before) && PlainMarkup(after)
    ensures PlainMarkup(Wrap(o, before, after))
  {
    if Truthy(o) {
      PlainConcat(before, o.value);
      PlainConcat(before + o.value, after);
    }
  }

  lemma IconClassesSplit()
    ensures " text-2xl mb-3 block text-center opacity-70\"></i>" == " text-2xl mb-3 block tex" + "t-center opacity-70\"></i>"
  {
  }

  lemma IconClassesPiecesPlain()
    ensures PlainMarkup(" text-2xl mb-3 block tex") && PlainMarkup("t-center opacity-70\"></i>")
  {
  }

  /** The fixed markup around a card's or panel's icon holds no backslash and no dollar sign. */
  lemma IconClassesPlain()
    ensures PlainMarkup(" text-2xl mb-3 block text-center opacity-70\"></i>")
  {
    IconClassesSplit();
    IconClassesPiecesPlain();
    PlainConcat(" text-2xl mb-3 block tex", "t-center opacity-70\"></i>");
  }

  lemma ButtonChildrenPlain(c: ElementContent)
    requires PlainField(c.text) && PlainField(c.icon)
    ensures PlainMarkup(ChildrenHtml(Button, c))
  {
    assert PlainMarkup("<i class=\"") && PlainMarkup(" mr-2\"></i>") && PlainMarkup("Button");
    WrapPlain(c.icon, "<i class=\"", " mr-2\"></i>");
    PlainConcat(Wrap(c.icon, "<i class=\"", " mr-2\"></i>"), if Truthy(c.text) then c.text.value else "Button");
  }

  lemma CardMarkupPlain()
    ensures PlainMarkup("<i class=\"")
    ensures PlainMarkup("<h4 class=\"card-title\">") && PlainMarkup("</h4>")
    ensures PlainMarkup("<p class=\"card-body\">") && PlainMarkup("</p>")
  {
  }

  lemma FilledChildrenPlain(kind: ElementKind, c: ElementContent)
    requires kind != Button && (Truthy(c.icon) || Truthy(c.title) || Truthy(c.body))
    requires PlainField(c.title) && PlainField(c.body) && PlainField(c.icon)
    ensures PlainMarkup(ChildrenHtml(kind, c))
  {
    IconClassesPlain();
    var i := Wrap(c.icon, "<i class=\"", " text-2xl mb-3 block text-center opacity-70\"></i>");
    var t := Wrap(c.title, "<h4 class=\"card-title\">", "</h4>");
    var b := Wrap(c.body, "<p class=\"card-body\">", "</p>");
    assert ChildrenHtml(kind, c) == i + t + b;
    CardMarkupPlain();
    WrapPlain(c.icon, "<i class=\"", " text-2xl mb-3 block text-center opacity-70\"></i>");
    WrapPlain(c.title, "<h4 class=\"card-title\">", "</h4>");
    WrapPlain(c.body, "<p class=\"card-body\">", "</p>");
    PlainConcat(i, t);
    PlainConcat(i + t, b);
  }

  lemma EmptyChildrenPlain(kind: ElementKind)
    requires kind != Button
    ensures PlainMarkup(ChildrenHtml(kind, ElementContent(None, None, None, None)))
  {
    assert PlainMarkup("<p class=\"card-body\">Empty ") && PlainMarkup(EmptyLabel(kind)) && PlainMarkup("</p>");
    PlainConcat("<p class=\"card-body\">Empty ", EmptyLabel(kind));
    PlainConcat("<p class=\"card-body\">Empty " + EmptyLabel(kind), "</p>");
  }

  /** The fixed markup around the content holds no backslash and no dollar sign, so children
      markup built from plain fields is plain. */
  lemma ChildrenHtmlPlain(kind: ElementKind, c: ElementContent)
    requires PlainContent(c)
    ensures PlainMarkup(ChildrenHtml(kind, c))
  {
    if kind == Button {
      ButtonChildrenPlain(c);
    } else if Truthy(c.icon) || Truthy(c.title) || Truthy(c.body) {
      FilledChildrenPlain(kind, c);
    } else {
      EmptyChildrenPlain(kind);
      assert ChildrenHtml(kind, c) == ChildrenHtml(kind, ElementContent(None, None, None, None));
    }
  }

  /** `generateFramerComponentString`, before the template is filled in. The children markup
      is escaped with the backtick-only `EscapeBackticks`, as the source does, which keeps it
      whole only when it is plain (`FramerChildrenRoundTrip`, `FramerChildrenMisread`). */
  function GenerateFramer(el: Element): FramerComponent {
    FramerComponent(
      "Liquid" + Capitalize(el.kind.Name()),
      KeepCustomProperties(CreateCssVariables(el.rawStyleParams)),
      el.kind.Name(),
      if Truthy(el.content.text) then el.content.text.value else "Button",
      ContentProbe(el.content),
      EmptyLabel(el.kind),
      EscapeBackticks(ChildrenHtml(el.kind, el.content)))
  }

  /** The component with its children markup escaped by `EscapeTemplate` instead. */
  function GenerateFramerEscaped(el: Element): FramerComponent {
    GenerateFramer(el).(childrenHtml := EscapeTemplate(ChildrenHtml(el.kind, el.content)))
  }

  /** Filtering keeps a custom property's value and drops the two composites. */
  lemma {:induction false} KeepCustomPropertiesLookup(props: seq<Prop>, k: CssKey)
    ensures Lookup(KeepCustomProperties(props), k) == if k.IsVariable() then Lookup(props, k) else None
  {
    if props != [] {
      VariableNamesStartWithDashes(props[0].key);
      KeepCustomPropertiesLookup(props[1..], k);
    }
  }

  /** The component's style sets every custom property of the projection, with the same value,
      and nothing else. */
  lemma FramerStyleMatchesProjection(el: Element, k: CssKey)
    ensures Lookup(GenerateFramer(el).styleEntries, k)
         == if k.IsVariable() then Entry(el.rawStyleParams, k) else None
  {
    KeepCustomPropertiesLookup(CreateCssVariables(el.rawStyleParams), k);
    ProjectionIsEntries(el.rawStyleParams, k);
  }

  /** When the children markup is plain, the generated component's template literal reads
      back, under JavaScript's reading, to exactly that markup. */
  lemma FramerChildrenRoundTrip(el: Element)
    requires PlainMarkup(ChildrenHtml(el.kind, el.content))
    ensures ReadTemplate(GenerateFramer(el).childrenHtml) == Cooked(ChildrenHtml(el.kind, el.content))
  {
    EscapeBackticksReadsBackPlainText(ChildrenHtml(el.kind, el.content));
  }

  /** A button whose text is a backslash before a backtick produces a component whose template
      literal closes early; one whose text is `${x}` produces a substitution. */
  lemma FramerChildrenMisread(el: Element)
    requires el.kind == Button && !Truthy(el.content.icon)
    ensures el.content.text == Some("\\`") ==> ReadTemplate(GenerateFramer(el).childrenHtml) == ClosesEarly
    ensures el.content.text == Some("${x}") ==> ReadTemplate(GenerateFramer(el).childrenHtml) == Substitution
  {
    var h := ChildrenHtml(el.kind, el.content);
    assert GenerateFramer(el).childrenHtml == EscapeBackticks(h);
    if Truthy(el.content.text) {
      assert h == el.content.text.value;
    }
    EscapeBackticksMisreads();
  }

  /** The corrected component reads back to the children markup for every content, and it
      differs from the source's only in the escape, and not at all on plain markup. */
  lemma EscapedFramerChildrenRoundTrip(el: Element)
    ensures ReadTemplate(GenerateFramerEscaped(el).childrenHtml) == Cooked(ChildrenHtml(el.kind, el.content))
    ensures GenerateFramerEscaped(el).(childrenHtml := GenerateFramer(el).childrenHtml) == GenerateFramer(el)
    ensures PlainMarkup(ChildrenHtml(el.kind, el.content)) ==> GenerateFramerEscaped(el) == GenerateFramer(el)
  {
    EscapeTemplateReadsBack(ChildrenHtml(el.kind, el.content));
    if PlainMarkup(ChildrenHtml(el.kind, el.content)) {
      EscapesAgreeOnPlainMarkup(ChildrenHtml(el.kind, el.content));
    }
  }

  /** A card or panel with no icon, title or body falls back to the empty paragraph; with an
      absent icon the content probe is the non-empty string "undefined", so the generated
      component's own empty-check does not fire and it shows the pasted HTML instead. */
  lemma EmptyContentFallback(el: Element)
    requires el.kind != Button
    requires !Truthy(el.content.icon) && !Truthy(el.content.title) && !Truthy(el.content.body)
    ensures ChildrenHtml(el.kind, el.content) == "<p class=\"card-body\">Empty " + EmptyLabel(el.kind) + "</p>"
    ensures el.content.icon.None? ==> GenerateFramer(el).contentProbe == "undefined"
  {
  }

  // ---------------------------------------------------------------------------
  // CSS

  datatype Decl = Decl(property: string, value: Text)
  datatype Rule = Rule(selector: string, decls: seq<Decl>)

  /** `.my-liquid-${type}-${id.substring(0, 6)}`. */
  function CssSelector(el: Element): string {
    ".my-liquid-" + el.kind.Name() + "-" + Take(el.id, 6)
  }

  /** `color.replace(/^#?([a-f\d]{2})([a-f\d]{2})([a-f\d]{2})$/i, "r, g, b")`: a hex colour
      becomes its triplet, anything else is kept as it is. */
  function ColorTriplet(color: string): Text {
    if IsHexColor(color) then TripletText(ParseHexColor(color)) else [Lit(color)]
  }

  /** The value the CSS rule gives a base variable. */
  function CssVariableValue(s: RawStyles, k: CssKey): Text
    requires k.Rank() < 19
  {
    match k
    case GlassBgOpacityVar => [Number(s.glassBgOpacity)]
    case GlassBlurRadiusVar => [Number(s.glassBlurRadius), Lit("px")]
    case GlassSaturationVar => [Number(s.glassSaturation)]
    case GlassContrastVar => [Number(s.glassContrast)]
    case GlassBrightnessVar => [Number(s.glassBrightness)]
    case GlassChromaticStrengthVar => [Number(s.glassChromaticStrength)]
    case ShadowColorRgbVar => ColorTriplet(s.shadowColor)
    case ShadowOpacityPrimaryVar => [Number(s.shadowOpacityPrimary)]
    case ShadowYOffsetPrimaryVar => [Number(s.shadowYOffsetPrimary), Lit("px")]
    case ShadowBlurRadiusPrimaryVar => [Number(s.shadowBlurRadiusPrimary), Lit("px")]
    case ShadowSpreadPrimaryVar => [Number(s.shadowSpreadPrimary), Lit("px")]
    case InsetHighlightColorRgbVar =>
      if Truthy(s.insetHighlightColor) then ColorTriplet(s.insetHighlightColor.value) else [Lit("255,255,255")]
    case InsetHighlightOpacityVar => [Number(s.insetHighlightOpacity)]
    case BorderColorRgbVar => ColorTriplet(s.borderColor)
    case BorderWidthVar => [Number(s.borderWidth), Lit("px")]
    case BorderRadiusVar => [Number(s.borderRadius), Lit("px")]
    case BorderOpacityVar => [Number(s.borderOpacity)]
    case TextColorVar => [Lit(s.textColor)]
    case TitleColorVar => [Lit(s.titleColor)]
    case _ => []
  }

  /** The nineteen variable declarations, in the projection's order and with its names. */
  function CssVariableDecls(s: RawStyles): (ds: seq<Decl>)
    ensures |ds| == 19
  {
    seq(19, i requires 0 <= i < 19 => Decl(KeyOfRank(i).Name(), CssVariableValue(s, KeyOfRank(i))))
  }

  /** `background-color`: the tint when truthy, else white at `var(--glass-bg-opacity)`. */
  function CssBackground(s: RawStyles): Text {
    if Truthy(s.glassBgColorTint) then [Lit(s.glassBgColorTint.value)]
    else [Lit("rgba(255, 255, 255, var(--glass-bg-opacity))")]
  }

  function Padding(kind: ElementKind): string {
    if kind == Button then "12px 24px" else "24px"
  }

  /** The CSS rule's secondary-layer gate: a truthy colour and a defined opacity only. */
  predicate CssHasSecondaryLayer(s: RawStyles) {
    Truthy(s.shadowColorSecondary) && s.shadowOpacitySecondary.Some?
  }

  /** `, 0 ${y}px ${blur}px ${spread || 0}px rgba(${triplet}, ${opacity})`. */
  function CssSecondaryLayer(s: RawStyles): Text
    requires CssHasSecondaryLayer(s)
  {
    [Lit(", 0 ")] + OptNumberText(s.shadowYOffsetSecondary) + [Lit("px ")]
    + OptNumberText(s.shadowBlurRadiusSecondary) + [Lit("px ")]
    + [Number(if s.shadowSpreadSecondary.Some? then s.shadowSpreadSecondary.value else 0.0), Lit("px rgba(")]
    + ColorTriplet(s.shadowColorSecondary.value) + [Lit(", "), Number(s.shadowOpacitySecondary.value), Lit(")")]
  }

  function CssBoxShadow(s: RawStyles): Text {
    [Lit(PrimaryShadowLayer)]
    + (if CssHasSecondaryLayer(s) then CssSecondaryLayer(s) else [])
    + [Lit(", " + InsetHighlightLayer)]
  }

  /** The glass look shared by every element. */
  const GlassDecls: seq<Decl> := [
    Decl("backdrop-filter", [Lit("blur(var(--glass-blur-radius)) saturate(var(--glass-saturation)) contrast(var(--glass-contrast)) brightness(var(--glass-brightness))")]),
    Decl("border", [Lit("var(--border-width) solid rgba(var(--border-color-rgb), var(--border-opacity))")]),
    Decl("border-radius", [Lit("var(--border-radius)")]),
    Decl("color", [Lit("var(--text-color)")])]

  /** The layout declarations and the elastic transform at rest. */
  const LayoutDecls: seq<Decl> := [
    Decl("font-weight", [Lit("600")]),
    Decl("user-select", [Lit("none")]),
    Decl("cursor", [Lit("grab")]),
    Decl("position", [Lit("relative")]),
    Decl("overflow", [Lit("hidden")]),
    Decl("transform-style", [Lit("preserve-3d")]),
    Decl("backface-visibility", [Lit("hidden")]),
    Decl("--elastic-scale-x", [Lit("1")]),
    Decl("--elastic-scale-y", [Lit("1")]),
    Decl("transform", [Lit("scale(var(--elastic-scale-x), var(--elastic-scale-y))")])]

  const ChromaticGradient: string := "linear-gradient(45deg, rgba(255, 0, 0, var(--glass-chromatic-strength)) 0%, transparent 25%, rgba(0, 255, 0, calc(var(--glass-chromatic-strength) * 0.7)) 50%, transparent 75%, rgba(0, 0, 255, var(--glass-chromatic-strength)) 100%)"

  /** The chromatic-aberration overlay of the `::before` rule. */
  const BeforeDecls: seq<Decl> := [
    Decl("content", [Lit("''")]), Decl("position", [Lit("absolute")]),
    Decl("top", [Lit("0")]), Decl("left", [Lit("0")]), Decl("right", [Lit("0")]), Decl("bottom", [Lit("0")]),
    Decl("border-radius", [Lit("var(--border-radius)")]),
    Decl("background-image", [Lit(ChromaticGradient)]),
    Decl("opacity", [Lit("0.3")]), Decl("pointer-events", [Lit("none")]),
    Decl("z-index", [Lit("0")]), Decl("mix-blend-mode", [Lit("screen")])]

  /** The main rule: the variables, the background, the glass look, the padding and the layout. */
  function CssMainRule(el: Element): Rule {
    Rule(CssSelector(el),
      CssVariableDecls(el.rawStyleParams)
      + [Decl("background-color", CssBackground(el.rawStyleParams))]
      + GlassDecls
      + [Decl("padding", [Lit(Padding(el.kind))])]
      + LayoutDecls)
  }

  function CssShadowRule(el: Element): Rule {
    Rule(CssSelector(el), [Decl("box-shadow", CssBoxShadow(el.rawStyleParams))])
  }

  /** `generateCssString`: the main rule, the box-shadow rule, the chromatic `::before` layer
      and the rule lifting the children above it. */
  function GenerateCss(el: Element): seq<Rule> {
    [ CssMainRule(el),
      CssShadowRule(el),
      Rule(CssSelector(el) + "::before", BeforeDecls),
      Rule(CssSelector(el) + " > *", [Decl("position", [Lit("relative")]), Decl("z-index", [Lit("1")])]) ]
  }

  /** Every rule is scoped to the element's selector. */
  lemma CssRulesScoped(el: Element)
    ensures |GenerateCss(el)| == 4
    ensures forall r :: r in GenerateCss(el) ==> CssSelector(el) <= r.selector
  {
    var sel := CssSelector(el);
    assert sel <= sel + "::before" && sel <= sel + " > *";
  }

  /** The selector identifies the element's type and the first six characters of its id, and
      nothing more: two elements get the same selector exactly when those agree. */
  lemma SelectorIdentifiesTypeAndIdPrefix(a: Element, b: Element)
    ensures CssSelector(a) == CssSelector(b) <==> a.kind == b.kind && Take(a.id, 6) == Take(b.id, 6)
  {
    var p := ".my-liquid-";
    if CssSelector(a) == CssSelector(b) {
      var sa := CssSelector(a);
      var sb := CssSelector(b);
      assert sa[11] == a.kind.Name()[0] && sb[11] == b.kind.Name()[0];
      assert a.kind == b.kind;
      var n := |p + a.kind.Name() + "-"|;
      assert sa[n..] == Take(a.id, 6);
      assert sb[n..] == Take(b.id, 6);
    }
  }

  /** The padding depends on the type only: `12px 24px` for a button, `24px` otherwise. */
  lemma CssPadding(el: Element)
    ensures Decl("padding", [Lit(if el.kind == Button then "12px 24px" else "24px")]) in CssMainRule(el).decls
  {
    var pad := Decl("padding", [Lit(Padding(el.kind))]);
    var head := CssVariableDecls(el.rawStyleParams) + [Decl("background-color", CssBackground(el.rawStyleParams))] + GlassDecls;
    assert CssMainRule(el).decls == head + [pad] + LayoutDecls;
    assert (head + [pad] + LayoutDecls)[|head|] == pad;
  }

  /** Each CSS variable has the projection's value, except where the two read a colour
      differently: a colour that is not six-digit hex is copied verbatim by the CSS rule but
      read as white by the projection, and a missing inset colour is written `255,255,255`.
      The two values are compared as `Text` structure, not as printed characters: a non-hex
      colour spelled `255, 255, 255` prints like the projection's white triplet yet counts as
      differing here. */
  lemma CssVariablesAgreeWithProjection(s: RawStyles, k: CssKey)
    requires k.Rank() < 19
    ensures CssVariableValue(s, k) == Render(Entry(s, k).value) <==> !ColourReadDiffers(s, k)
  {
  }

  /** Where the CSS rule and the projection disagree on a colour variable. */
  predicate ColourReadDiffers(s: RawStyles, k: CssKey) {
    || (k == ShadowColorRgbVar && !IsHexColor(s.shadowColor))
    || (k == BorderColorRgbVar && !IsHexColor(s.borderColor))
    || (k == InsetHighlightColorRgbVar && !(Truthy(s.insetHighlightColor) && IsHexColor(s.insetHighlightColor.value)))
  }

  /** The CSS rule's gate is looser than the projection's: a secondary colour and opacity
      without a y-offset print `undefinedpx` in the CSS, while the projection emits no
      secondary layer at all. */
  lemma CssSecondaryGateIsLooser(s: RawStyles)
    requires Truthy(s.shadowColorSecondary) && s.shadowOpacitySecondary.Some?
    requires s.shadowYOffsetSecondary.None?
    ensures CssHasSecondaryLayer(s) && !HasSecondaryShadow(s)
    ensures Lit("undefined") in CssBoxShadow(s)
  {
    assert CssBoxShadow(s)[2] == Lit("undefined");
  }

  /** Whenever the projection has a secondary layer, so does the CSS. */
  lemma CssGateContainsProjectionGate(s: RawStyles)
    ensures HasSecondaryShadow(s) ==> CssHasSecondaryLayer(s)
    ensures !CssHasSecondaryLayer(s) ==> CssBoxShadow(s) == [Lit(PrimaryShadowLayer), Lit(", " + InsetHighlightLayer)]
  {
  }

  // ---------------------------------------------------------------------------
  // Figma

  /** A JavaScript number that may be NaN. */
  datatype JsNum = NaN | Finite(v: real)

  function Div255(n: JsNum): JsNum {
    match n
    case NaN => NaN
    case Finite(v) => Finite(v / 255.0)
  }

  /** `s.slice(a, b)` for non-negative bounds. */
  function Slice(s: string, a: nat, b: nat): (r: string)
    ensures |r| <= |s|
  {
    var hi := if b < |s| then b else |s|;
    var lo := if a < hi then a else hi;
    s[lo..hi]
  }

  /** The number of leading hexadecimal digits. */
  function HexRun(s: string): (n: nat)
    ensures n <= |s|
    ensures forall i :: 0 <= i < n ==> IsHexDigit(s[i])
    ensures n < |s| ==> !IsHexDigit(s[n])
  {
    if s == [] || !IsHexDigit(s[0]) then 0 else 1 + HexRun(s[1..])
  }

  function HexDigitsValue(d: string): nat
    requires forall i :: 0 <= i < |d| ==> IsHexDigit(d[i])
  {
    if d == [] then 0 else HexDigitsValue(d[..|d| - 1]) * 16 + HexDigitValue(d[|d| - 1])
  }

  /** `parseInt(s, 16)`: an optional sign, an optional `0x`/`0X` prefix, then the longest run of
      hex digits; NaN when the run is empty. */
  function ParseIntHex(s: string): JsNum {
    var negative := |s| > 0 && s[0] == '-';
    var unsigned := if |s| > 0 && (s[0] == '-' || s[0] == '+') then s[1..] else s;
    var body := if |unsigned| >= 2 && unsigned[0] == '0' && (unsigned[1] == 'x' || unsigned[1] == 'X')
                then unsigned[2..] else unsigned;
    var n := HexRun(body);
    if n == 0 then NaN
    else
      var v := HexDigitsValue(body[..n]) as real;
      Finite(if negative then -v else v)
  }

  /** Two hex digits parse to the projection's pair value. */
  lemma ParsePair(hi: char, lo: char)
    requires IsHexDigit(hi) && IsHexDigit(lo)
    ensures ParseIntHex([hi, lo]) == Finite(PairValue(hi, lo) as real)
  {
    var d := [hi, lo];
    assert hi != '-' && hi != '+' && lo != 'x' && lo != 'X';
    assert d[1..] == [lo] && [lo][1..] == [];
    assert HexRun([lo]) == 1;
    assert HexRun(d) == 2;
    assert d[..2] == d && d[..1] == [hi] && [hi][..0] == [];
    assert HexDigitsValue([hi]) == HexDigitValue(hi);
  }

  datatype FigmaColor = FigmaColor(r: JsNum, g: JsNum, b: JsNum)
  datatype Paint = Paint(paintType: string, color: FigmaColor, opacity: real)
  datatype Effect = Effect(effectType: string, radius: real, visible: bool)
  datatype FigmaNode = FigmaNode(id: string, name: string, nodeType: string, fills: seq<Paint>,
                                 effects: seq<Effect>, strokes: seq<Paint>, strokeWeight: real, cornerRadius: real)
  /** `{ document: { children: [node] } }` before serialisation. */
  datatype FigmaDocument = FigmaDocument(children: seq<FigmaNode>)

  /** The stroke colour: each channel is `parseInt(borderColor.slice(a, a + 2), 16) / 255`,
      reading fixed positions that assume a leading `#`. */
  function FigmaStrokeColor(borderColor: string): FigmaColor {
    FigmaColor(Div255(ParseIntHex(Slice(borderColor, 1, 3))),
               Div255(ParseIntHex(Slice(borderColor, 3, 5))),
               Div255(ParseIntHex(Slice(borderColor, 5, 7))))
  }

  /** `generateFigmaJsonString`, before `JSON.stringify`. */
  function GenerateFigma(el: Element): FigmaDocument {
    var s := el.rawStyleParams;
    FigmaDocument([FigmaNode(
      "glass-node-" + Take(el.id, 6),
      "Liquid Glass " + el.kind.Name(),
      "FRAME",
      [Paint("SOLID", FigmaColor(Finite(1.0), Finite(1.0), Finite(1.0)), s.glassBgOpacity)],
      [Effect("BACKGROUND_BLUR", s.glassBlurRadius, true)],
      [Paint("SOLID", FigmaStrokeColor(s.borderColor), s.borderOpacity)],
      s.borderWidth,
      s.borderRadius)])
  }

  /** For a `#rrggbb` border colour the stroke is the projection's triplet scaled to [0, 1]. */
  lemma FigmaStrokeMatchesProjection(s: string)
    requires |s| == 7 && s[0] == '#' && IsHexColor(s)
    ensures var c := HexToRgbArray(s);
      FigmaStrokeColor(s) == FigmaColor(Finite(c.r as real / 255.0), Finite(c.g as real / 255.0), Finite(c.b as real / 255.0))
  {
    assert HexBody(s) == s[1..];
    assert Slice(s, 1, 3) == [s[1], s[2]];
    assert Slice(s, 3, 5) == [s[3], s[4]];
    assert Slice(s, 5, 7) == [s[5], s[6]];
    ParsePair(s[1], s[2]);
    ParsePair(s[3], s[4]);
    ParsePair(s[5], s[6]);
  }

  /** Without the `#` (which the projection's parser accepts) the fixed slices are off by one:
      `FFFFFF` is white to the projection but its blue channel reads `F`, giving 15/255, and a
      three-digit colour loses its blue channel to NaN. */
  lemma FigmaMisreadsColoursWithoutHash()
    ensures HexToRgbArray("FFFFFF") == White
    ensures FigmaStrokeColor("FFFFFF") == FigmaColor(Finite(1.0), Finite(1.0), Finite(15.0 / 255.0))
    ensures FigmaStrokeColor("#FFF").b == NaN
  {
    SixDigitSlices();
    ParsePair('F', 'F');
    ParseSingleF();
    assert Slice("#FFF", 5, 7) == [];
    assert HexBody("FFFFFF") == "FFFFFF";
  }

  lemma SixDigitSlices()
    ensures Slice("FFFFFF", 1, 3) == "FF" && Slice("FFFFFF", 3, 5) == "FF" && Slice("FFFFFF", 5, 7) == "F"
  {
    assert "FFFFFF"[1..3] == "FF";
    assert "FFFFFF"[3..5] == "FF";
    assert "FFFFFF"[5..6] == "F";
  }

  lemma ParseSingleF()
    ensures ParseIntHex("F") == Finite(15.0)
  {
    assert HexRun("F"[1..]) == 0;
    assert HexRun("F") == 1;
    assert "F"[..1] == "F";
    assert "F"[..0] == [];
  }

  /** The Figma node carries the raw glass opacity, blur radius, border width, border radius
      and border opacity, the very numbers the projection (and so, by
      `CssVariablesAgreeWithProjection`, the CSS rule) writes for the same fields. */
  lemma ExportersAgree(el: Element)
    ensures var s := el.rawStyleParams;
      var node := GenerateFigma(el).children[0];
      && node.fills[0].opacity == s.glassBgOpacity
      && node.effects[0].radius == s.glassBlurRadius
      && node.strokeWeight == s.borderWidth
      && node.cornerRadius == s.borderRadius
      && node.strokes[0].opacity == s.borderOpacity
      && Entry(s, GlassBgOpacityVar) == Some(Num(node.fills[0].opacity))
      && Entry(s, GlassBlurRadiusVar) == Some(Px(node.effects[0].radius))
      && Entry(s, BorderWidthVar) == Some(Px(node.strokeWeight))
      && Entry(s, BorderRadiusVar) == Some(Px(node.cornerRadius))
      && Entry(s, BorderOpacityVar) == Some(Num(node.strokes[0].opacity))
  {
    ProjectionBaseFields(el.rawStyleParams);
  }
}
