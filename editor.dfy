/** The editor's handlers: the state of the studio page (the element store, the style
    parameters, the darken toggle, the export dialog and the toast) and the operations the
    controls, the drag surface and the export buttons perform on it. */
module Studio {
  import opened Types
  import opened Constants
  import opened Conceptual
  import opened ElementRegistry
  import opened Export
  import opened Interaction

  // ---------------------------------------------------------------------------
  // What the sliders show

  /** The styles the conceptual sliders describe: the selected element's, or the defaults when
      nothing is selected; none when the selection names no element. */
  function ShownStyles(els: seq<Element>, selected: Opt<string>, params: GlassParameters): (r: Opt<RawStyles>)
    ensures !Truthy(selected) ==> r == Some(params.defaultUiElementRawStyles)
    ensures Truthy(selected) ==>
      (r.Some? <==> FindElement(els, selected.value).Some?)
      && (r.Some? ==> exists e :: e in els && e.id == selected.value && e.rawStyleParams == r.value)
  {
    if Truthy(selected) then
      match FindElement(els, selected.value)
      case Some(e) => Some(e.rawStyleParams)
      case None => None
    else Some(params.defaultUiElementRawStyles)
  }

  /** The sliders are the reading of the styles they describe (with the editor's fallbacks and
      whatever elasticity is set). */
  predicate SlidersInSync(els: seq<Element>, selected: Opt<string>, params: GlassParameters) {
    var shown := ShownStyles(els, selected, params);
    shown.Some? ==>
      params.conceptualControlValues == ReadConceptual(shown.value, AppFallbacks, params.conceptualControlValues.elasticity)
  }

  /** Moving the elasticity slider keeps the sliders in sync: elasticity is not read from styles. */
  lemma ElasticityKeepsSync(els: seq<Element>, selected: Opt<string>, params: GlassParameters, v: real)
    requires SlidersInSync(els, selected, params)
    ensures SlidersInSync(els, selected, params.(conceptualControlValues := params.conceptualControlValues.With(Elasticity, v)))
  {
  }

  /** Moving a mapped slider on the selected element keeps the sliders in sync, unless the value
      is a zero that the reading turns into a fallback. */
  lemma SelectedChangeKeepsSync(els: seq<Element>, id: string, params: GlassParameters, key: ConceptualKey, v: real)
    requires id != "" && FindElement(els, id).Some?
    requires key != Elasticity && (key == Transmission || v != 0.0)
    requires SlidersInSync(els, Some(id), params)
    ensures var updated := Merge(FindElement(els, id).value.rawStyleParams, MapConceptualToRawStyles(key, v));
      SlidersInSync(Restyled(els, id, updated, Customized), Some(id),
                    params.(conceptualControlValues := params.conceptualControlValues.With(key, v), selectedUiElementThemeId := None))
  {
    var e := FindElement(els, id).value;
    var updated := Merge(e.rawStyleParams, MapConceptualToRawStyles(key, v));
    var before := params.conceptualControlValues;
    var after := before.With(key, v);
    var reading := ReadConceptual(updated, AppFallbacks, before.elasticity);
    RestyledFind(els, id, updated, Customized, id);
    assert ShownStyles(Restyled(els, id, updated, Customized), Some(id), params) == Some(updated);
    assert before == ReadConceptual(e.rawStyleParams, AppFallbacks, before.elasticity);
    ConceptualRawConceptualRoundTrip(e.rawStyleParams, key, v, AppFallbacks, before.elasticity);
    ValuesEqualByKeys(after, reading);
  }

  /** Slider values are equal when every key reads the same. */
  lemma ValuesEqualByKeys(a: ConceptualValues, b: ConceptualValues)
    requires forall k :: a.Get(k) == b.Get(k)
    ensures a == b
  {
    assert a.Get(Transmission) == b.Get(Transmission) && a.Get(ChromaticAberration) == b.Get(ChromaticAberration);
    assert a.Get(BackdropSaturation) == b.Get(BackdropSaturation) && a.Get(Roughness) == b.Get(Roughness);
    assert a.Get(Thickness) == b.Get(Thickness) && a.Get(Elasticity) == b.Get(Elasticity);
  }

  /** The same for the defaults when nothing is selected. */
  lemma DefaultsChangeKeepsSync(els: seq<Element>, selected: Opt<string>, params: GlassParameters, key: ConceptualKey, v: real)
    requires !Truthy(selected)
    requires key != Elasticity && (key == Transmission || v != 0.0)
    requires SlidersInSync(els, selected, params)
    ensures SlidersInSync(els, selected,
      params.(defaultUiElementRawStyles := Merge(params.defaultUiElementRawStyles, MapConceptualToRawStyles(key, v)),
              conceptualControlValues := params.conceptualControlValues.With(key, v), selectedUiElementThemeId := None))
  {
    ConceptualRawConceptualRoundTrip(params.defaultUiElementRawStyles, key, v, AppFallbacks, params.conceptualControlValues.elasticity);
  }

  // ---------------------------------------------------------------------------
  // Themes

  /** The styles `applyUiTheme` installs: the preset's, or the defaults for "no theme". */
  function ThemeStyles(theme: Opt<Theme>): RawStyles {
    if theme.Some? then theme.value.styleParams else DefaultRawStyles
  }

  /** The slider values `applyUiTheme` installs, keeping the current elasticity. */
  function ThemeSliders(theme: Opt<Theme>, elasticity: real): ConceptualValues {
    if theme.Some? then ReadConceptual(theme.value.styleParams, AppFallbacks, elasticity)
    else InitialConceptualSliderValues.(elasticity := elasticity)
  }

  /** Whether or not a theme is given, the installed sliders are the reading of the installed
      styles: the initial slider values are exactly the reading of the defaults. */
  lemma ThemeSlidersReadThemeStyles(theme: Opt<Theme>, elasticity: real)
    ensures ThemeSliders(theme, elasticity) == ReadConceptual(ThemeStyles(theme), AppFallbacks, elasticity)
    ensures ThemeSliders(theme, elasticity).elasticity == elasticity
  {
    if theme.None? {
      InitialConceptualIsReadingOfDefault();
    }
  }

  /** The toast `applyUiTheme` shows. */
  function ThemeToast(theme: Opt<Theme>): string {
    if theme.Some? then theme.value.name + " Glass Applied" else "Default Styles Applied"
  }

  /** `theme ? theme.id : null` as a store argument and as the parameter value. */
  function ThemeArgOf(theme: Opt<Theme>): ThemeArg {
    if theme.Some? then Named(theme.value.id) else NullTheme
  }

  function ThemeIdOf(theme: Opt<Theme>): Opt<string> {
    if theme.Some? then Some(theme.value.id) else None
  }

  /** `selectedUiElementThemeId` (a string or null) passed on as a store argument. */
  function ThemeArgOfId(id: Opt<string>): ThemeArg {
    if id.Some? then Named(id.value) else NullTheme
  }

  /** `el.themeId || null`: a non-empty preset link, otherwise no theme. */
  function LinkedThemeId(link: ThemeLink): (r: Opt<string>)
    ensures r.Some? <==> link.Preset? && link.id != ""
    ensures r.Some? ==> r.value == link.id
  {
    if link.Preset? && link.id != "" then Some(link.id) else None
  }

  // ---------------------------------------------------------------------------
  // Mounting

  const WelcomeContent: ElementContent :=
    ElementContent(None, Some("Welcome Card"), Some("Drag me or change my style!"), Some("fas fa-hand-sparkles"))
  const ActionContent: ElementContent :=
    ElementContent(Some("Liquid Action"), None, None, Some("fas fa-bolt"))

  /** The two elements the mount effect adds to an empty store, as `addElement` builds them. */
  lemma MountedElements(cardId: string, buttonId: string)
    ensures FindTheme("trueLiquid") == Some(TrueLiquid)
    ensures var card := NewElement(cardId, Card, WelcomeContent, Some(Position(50.0, 50.0)), Some(TrueLiquid.styleParams),
                                   Named("trueLiquid"), 0.0, 0.0, 1);
      && card == Element(cardId, Card, WelcomeContent, Position(50.0, 50.0), 1, TrueLiquid.styleParams, Preset("trueLiquid"))
      && NewElement(buttonId, Button, ActionContent, Some(Position(350.0, 70.0)), Some(TrueLiquid.styleParams),
                    Named("trueLiquid"), 0.0, 0.0, card.zIndex + 1)
         == Element(buttonId, Button, ActionContent, Position(350.0, 70.0), 2, TrueLiquid.styleParams, Preset("trueLiquid"))
  {
    FindThemeOfCatalogMember(TrueLiquid);
  }

  // ---------------------------------------------------------------------------
  // Export

  /** The generated artefact shown in the export dialog. */
  datatype ExportArtifact = TsxFile(component: FramerComponent) | CssFile(rules: seq<Rule>) | FigmaFile(document: FigmaDocument)

  /** The export dialog: the exported element, the file type and the suggested file name; the
      content it shows is generated from the first two. */
  datatype ExportDialog = ExportDialog(target: Element, fileType: ExportFileType, filename: string) {
    function Content(): ExportArtifact {
      Generate(target, fileType)
    }
  }

  /** The styles an export carries: darkened while the toggle is on. */
  function StylesToExport(base: RawStyles, darkenActive: bool): RawStyles {
    if darkenActive then DarkenOverride(base) else base
  }

  const DefaultPanelContent: ElementContent := ElementContent(None, Some("Default Panel"), None, None)

  /** The synthetic panel exported when nothing is selected. */
  function DefaultExportElement(params: GlassParameters, darkenActive: bool): Element {
    Element("default_export", Panel, DefaultPanelContent, Position(0.0, 0.0), 1,
      StylesToExport(params.defaultUiElementRawStyles, darkenActive),
      if params.selectedUiElementThemeId.Some? then Preset(params.selectedUiElementThemeId.value) else Customized)
  }

  /** `elementToExport` as the export handler builds it: a selected element is exported as
      stored; only the default panel receives the darkened styles. */
  function ExportTargetAsWritten(selected: Opt<Element>, darkenActive: bool, params: GlassParameters): Element {
    if selected.Some? then selected.value else DefaultExportElement(params, darkenActive)
  }

  /** The intended export target: the toggle applies to every export, a selected element's
      included. */
  function ExportTarget(selected: Opt<Element>, darkenActive: bool, params: GlassParameters): Element {
    if selected.Some? then selected.value.(rawStyleParams := StylesToExport(selected.value.rawStyleParams, darkenActive))
    else DefaultExportElement(params, darkenActive)
  }

  /** As written, with the toggle on, a selected element whose tint is not already the dark one
      is exported with styles different from the ones it is drawn with. */
  lemma ExportAsWrittenIgnoresDarken(el: Element, params: GlassParameters)
    requires el.rawStyleParams.glassBgColorTint != Some(DarkTint)
    ensures ExportTargetAsWritten(Some(el), true, params).rawStyleParams != RenderedStyles(el, true, Some(el.id))
    ensures ExportTargetAsWritten(Some(el), true, params).rawStyleParams
         != StylesToExport(el.rawStyleParams, true)
  {
    assert RenderedStyles(el, true, Some(el.id)).glassBgColorTint == Some(DarkTint);
  }

  /** The corrected export of a selected element is the element as it is drawn while selected,
      with its id, type, content, position, layer and link kept. */
  lemma ExportMatchesRendering(el: Element, darkenActive: bool, params: GlassParameters)
    ensures var t := ExportTarget(Some(el), darkenActive, params);
      && t.rawStyleParams == RenderedStyles(el, darkenActive, Some(el.id))
      && t == el.(rawStyleParams := t.rawStyleParams)
      && (!darkenActive ==> t == el)
  {
  }

  /** With nothing selected the correction changes nothing: the default panel carries the
      (possibly darkened) default styles and the selected theme id as its link. */
  lemma DefaultExportUnchanged(darkenActive: bool, params: GlassParameters)
    ensures ExportTarget(None, darkenActive, params) == ExportTargetAsWritten(None, darkenActive, params)
    ensures var t := ExportTarget(None, darkenActive, params);
      && t.id == "default_export" && t.kind == Panel && t.zIndex == 1
      && (darkenActive ==> t.rawStyleParams == DarkenOverride(params.defaultUiElementRawStyles))
      && (!darkenActive ==> t.rawStyleParams == params.defaultUiElementRawStyles)
      && (t.themeId.Preset? <==> params.selectedUiElementThemeId.Some?)
  {
  }

  /** The dialog the export handler opens for a target and a file type. */
  function ExportDialogFor(target: Element, t: ExportFileType): ExportDialog {
    ExportDialog(target, t, ExportFilename(target.kind, t))
  }

  /** The dialog records the target and file type it was opened for, and its file name names
      the target's type and carries the file type's extension (see `ExportFilenameParts`),
      which `Generate` ties to the kind of artefact shown. */
  lemma ExportDialogConsistent(target: Element, t: ExportFileType)
    ensures var d := ExportDialogFor(target, t);
      && d.target == target && d.fileType == t
      && d.filename == ExportFilename(target.kind, t)
      && (t == Tsx <==> d.Content().TsxFile?)
  {
  }

  lemma DefaultContentPlain(kind: ElementKind)
    ensures PlainContent(DefaultContent(kind))
  {
  }

  lemma FixedContentPlain()
    ensures PlainContent(WelcomeContent) && PlainContent(ActionContent) && PlainContent(DefaultPanelContent)
  {
  }

  /** Every content the editor itself creates (the add buttons' defaults, the welcome card, the
      action button and the default export panel) is plain markup, so the component exported
      for it carries the children markup whole despite the backtick-only escape. */
  lemma EditorContentExportsWhole(el: Element)
    requires || el.content == DefaultContent(el.kind)
             || (el.kind == Card && el.content == WelcomeContent)
             || (el.kind == Button && el.content == ActionContent)
             || (el.kind == Panel && el.content == DefaultPanelContent)
    ensures ReadTemplate(GenerateFramer(el).childrenHtml) == Cooked(ChildrenHtml(el.kind, el.content))
  {
    DefaultContentPlain(el.kind);
    FixedContentPlain();
    ChildrenHtmlPlain(el.kind, el.content);
    FramerChildrenRoundTrip(el);
  }

  /** The generator a file type selects. */
  function Generate(el: Element, t: ExportFileType): (a: ExportArtifact)
    ensures t == Tsx <==> a.TsxFile?
    ensures t == Css <==> a.CssFile?
    ensures t == Figma <==> a.FigmaFile?
  {
    match t
    case Tsx => TsxFile(GenerateFramer(el))
    case Css => CssFile(GenerateCss(el))
    case Figma => FigmaFile(GenerateFigma(el))
  }

  // ---------------------------------------------------------------------------
  // The page state

  class Editor {
    const store: ElementStore
    var params: GlassParameters
    var darkenForLightBgActive: bool
    var exportDialog: Opt<ExportDialog>
    var toast: Opt<string>

    ghost predicate Valid()
      reads this, store
    {
      store.Valid()
    }

    /** The page before mounting: an empty store and the initial parameters. */
    constructor ()
      ensures Valid() && fresh(store)
      ensures store.elements == [] && store.selectedElementId == None
      ensures params == InitialParams() && !darkenForLightBgActive && exportDialog == None && toast == None
    {
      store := new ElementStore();
      params := InitialParams();
      darkenForLightBgActive := false;
      exportDialog := None;
      toast := None;
    }

    /** The mount effect: installs the initial theme's styles and its reading, and on an empty
        store adds the welcome card and the action button and selects the card. `cardId` and
        `buttonId` stand for the two generated ids. */
    method Mount(cardId: string, buttonId: string)
      requires Valid()
      requires cardId != "" && buttonId != "" && cardId != buttonId
      modifies this, store
      ensures Valid()
      ensures params == old(params).(defaultUiElementRawStyles := TrueLiquid.styleParams,
                                     conceptualControlValues := ReadConceptual(TrueLiquid.styleParams, AppFallbacks, 0.0))
      ensures darkenForLightBgActive == old(darkenForLightBgActive) && exportDialog == old(exportDialog) && toast == old(toast)
      ensures old(store.elements) != [] ==>
        store.elements == old(store.elements) && store.selectedElementId == old(store.selectedElementId)
      ensures old(store.elements) == [] ==>
        && store.elements == [
             Element(cardId, Card, WelcomeContent, Position(50.0, 50.0), 1, TrueLiquid.styleParams, Preset("trueLiquid")),
             Element(buttonId, Button, ActionContent, Position(350.0, 70.0), 2, TrueLiquid.styleParams, Preset("trueLiquid"))]
        && store.selectedElementId == Some(cardId)
        && SlidersInSync(store.elements, store.selectedElementId, params)
    {
      InitialParamsFromTrueLiquid();
      MountedElements(cardId, buttonId);
      var initialId := InitialParams().selectedUiElementThemeId;
      var initialTheme := if initialId.Some? then FindTheme(initialId.value) else None;
      assert initialTheme == Some(TrueLiquid);
      var stylesForDefault := DefaultRawStyles;
      if initialTheme.Some? {
        stylesForDefault := initialTheme.value.styleParams;
        params := params.(defaultUiElementRawStyles := stylesForDefault,
                          conceptualControlValues := ReadConceptual(stylesForDefault, AppFallbacks, InitialConceptualSliderValues.elasticity));
      }
      if |store.elements| == 0 {
        AddWelcomeElements(cardId, buttonId, stylesForDefault, ThemeArgOf(initialTheme));
      }
    }

    /** The mount effect's seeding of an empty store: the welcome card at (50, 50), the action
        button at (350, 70), both with the given styles and theme, and the card selected. */
    method AddWelcomeElements(cardId: string, buttonId: string, styles: RawStyles, themeArg: ThemeArg)
      requires store.Valid() && store.elements == []
      requires cardId != "" && buttonId != "" && cardId != buttonId
      modifies store
      ensures store.Valid()
      ensures var card := NewElement(cardId, Card, WelcomeContent, Some(Position(50.0, 50.0)), Some(styles), themeArg, 0.0, 0.0, 1);
        && store.elements == [card, NewElement(buttonId, Button, ActionContent, Some(Position(350.0, 70.0)), Some(styles),
                                               themeArg, 0.0, 0.0, card.zIndex + 1)]
        && store.selectedElementId == Some(cardId)
    {
      AddWelcomeCard(cardId, styles, themeArg);
      AddActionButton(buttonId, styles, themeArg);
      store.SetSelectedElementId(Some(cardId));
    }

    method AddWelcomeCard(cardId: string, styles: RawStyles, themeArg: ThemeArg)
      requires store.Valid() && store.elements == [] && cardId != ""
      modifies store
      ensures store.Valid()
      ensures store.elements == [NewElement(cardId, Card, WelcomeContent, Some(Position(50.0, 50.0)), Some(styles), themeArg, 0.0, 0.0, 1)]
    {
      var _ := store.AddElement(Card, WelcomeContent, Some(Position(50.0, 50.0)), Some(styles), themeArg, cardId, 0.0, 0.0);
    }

    method AddActionButton(buttonId: string, styles: RawStyles, themeArg: ThemeArg)
      requires store.Valid() && |store.elements| == 1 && store.elements[0].id != buttonId && buttonId != ""
      modifies store
      ensures store.Valid()
      ensures store.elements == old(store.elements) + [NewElement(buttonId, Button, ActionContent, Some(Position(350.0, 70.0)),
                                                                  Some(styles), themeArg, 0.0, 0.0, old(store.elements)[0].zIndex + 1)]
    {
      assert NextZIndex(store.elements, None) == store.elements[0].zIndex + 1;
      var _ := store.AddElement(Button, ActionContent, Some(Position(350.0, 70.0)), Some(styles), themeArg, buttonId, 0.0, 0.0);
    }

    /** `handleConceptualStyleChange`: elasticity only moves its slider; any other key patches
        the selected element's styles (clearing its link) or, with nothing selected, the
        defaults, and moves the slider. A selection that names no element changes nothing. */
    method HandleConceptualStyleChange(key: ConceptualKey, v: real)
      requires Valid()
      modifies this, store
      ensures Valid()
      ensures store.selectedElementId == old(store.selectedElementId)
      ensures darkenForLightBgActive == old(darkenForLightBgActive) && exportDialog == old(exportDialog) && toast == old(toast)
      ensures key == Elasticity ==>
        store.elements == old(store.elements)
        && params == old(params).(conceptualControlValues := old(params).conceptualControlValues.With(Elasticity, v))
      ensures key != Elasticity && !Truthy(old(store.selectedElementId)) ==>
        store.elements == old(store.elements)
        && params == old(params).(defaultUiElementRawStyles := Merge(old(params).defaultUiElementRawStyles, MapConceptualToRawStyles(key, v)),
                                  conceptualControlValues := old(params).conceptualControlValues.With(key, v),
                                  selectedUiElementThemeId := None)
      ensures key != Elasticity && Truthy(old(store.selectedElementId)) ==>
        var id := old(store.selectedElementId).value;
        var found := FindElement(old(store.elements), id);
        && (found.None? ==> store.elements == old(store.elements) && params == old(params))
        && (found.Some? ==>
              store.elements == Restyled(old(store.elements), id,
                                         Merge(found.value.rawStyleParams, MapConceptualToRawStyles(key, v)), Customized)
              && params == old(params).(conceptualControlValues := old(params).conceptualControlValues.With(key, v),
                                        selectedUiElementThemeId := None))
      ensures (key == Elasticity || key == Transmission || v != 0.0) &&
              SlidersInSync(old(store.elements), old(store.selectedElementId), old(params)) ==>
        SlidersInSync(store.elements, store.selectedElementId, params)
    {
      if key == Elasticity {
        ghost var sync := SlidersInSync(store.elements, store.selectedElementId, params);
        if sync {
          ElasticityKeepsSync(store.elements, store.selectedElementId, params, v);
        }
        params := params.(conceptualControlValues := params.conceptualControlValues.With(Elasticity, v));
        return;
      }
      var styleChange := MapConceptualToRawStyles(key, v);
      ghost var keeps := (key == Transmission || v != 0.0) && SlidersInSync(store.elements, store.selectedElementId, params);
      if Truthy(store.selectedElementId) {
        var id := store.selectedElementId.value;
        var currentElement := FindElement(store.elements, id);
        if currentElement.Some? {
          if keeps {
            SelectedChangeKeepsSync(store.elements, id, params, key, v);
          }
          var updated := Merge(currentElement.value.rawStyleParams, styleChange);
          store.UpdateElementStyles(id, updated, NullTheme);
          params := params.(conceptualControlValues := params.conceptualControlValues.With(key, v),
                            selectedUiElementThemeId := None);
        }
      } else {
        if keeps {
          DefaultsChangeKeepsSync(store.elements, store.selectedElementId, params, key, v);
        }
        params := params.(defaultUiElementRawStyles := Merge(params.defaultUiElementRawStyles, styleChange),
                          conceptualControlValues := params.conceptualControlValues.With(key, v),
                          selectedUiElementThemeId := None);
      }
    }

    /** `handleBorderParamChange`: sets one raw field on the selected element (clearing its
        link) or, with nothing selected, on the defaults; the sliders do not move. */
    method HandleBorderParamChange(field: StyleField)
      requires Valid()
      modifies this, store
      ensures Valid()
      ensures store.selectedElementId == old(store.selectedElementId)
      ensures darkenForLightBgActive == old(darkenForLightBgActive) && exportDialog == old(exportDialog) && toast == old(toast)
      ensures params.conceptualControlValues == old(params).conceptualControlValues
      ensures !Truthy(old(store.selectedElementId)) ==>
        store.elements == old(store.elements)
        && params == old(params).(defaultUiElementRawStyles := SetField(old(params).defaultUiElementRawStyles, field),
                                  selectedUiElementThemeId := None)
      ensures Truthy(old(store.selectedElementId)) ==>
        var id := old(store.selectedElementId).value;
        var found := FindElement(old(store.elements), id);
        && (found.None? ==> store.elements == old(store.elements) && params == old(params))
        && (found.Some? ==>
              store.elements == Restyled(old(store.elements), id, SetField(found.value.rawStyleParams, field), Customized)
              && params == old(params).(selectedUiElementThemeId := None))
    {
      if Truthy(store.selectedElementId) {
        var id := store.selectedElementId.value;
        var currentElement := FindElement(store.elements, id);
        if currentElement.Some? {
          store.UpdateElementStyles(id, SetField(currentElement.value.rawStyleParams, field), NullTheme);
          params := params.(selectedUiElementThemeId := None);
        }
      } else {
        params := params.(defaultUiElementRawStyles := SetField(params.defaultUiElementRawStyles, field),
                          selectedUiElementThemeId := None);
      }
    }

    /** `applyUiTheme`: installs the preset's styles (or the defaults) on the selected element,
        linking it to the preset, or as the defaults when nothing is selected; the sliders become
        their reading and a toast names the theme. */
    method ApplyUiTheme(theme: Opt<Theme>)
      requires Valid()
      modifies this, store
      ensures Valid()
      ensures store.selectedElementId == old(store.selectedElementId)
      ensures darkenForLightBgActive == old(darkenForLightBgActive) && exportDialog == old(exportDialog)
      ensures toast == Some(ThemeToast(theme))
      ensures var sliders := ThemeSliders(theme, old(params).conceptualControlValues.elasticity);
        if Truthy(old(store.selectedElementId)) then
          && store.elements == Restyled(old(store.elements), old(store.selectedElementId).value, ThemeStyles(theme),
                                        if AppliedPreset(ThemeArgOf(theme)).Some? then Preset(theme.value.id) else Customized)
          && params == old(params).(conceptualControlValues := sliders, selectedUiElementThemeId := ThemeIdOf(theme))
        else
          && store.elements == old(store.elements)
          && params == old(params).(defaultUiElementRawStyles := ThemeStyles(theme), conceptualControlValues := sliders,
                                    selectedUiElementThemeId := ThemeIdOf(theme))
      ensures SlidersInSync(store.elements, store.selectedElementId, params)
    {
      var newStyles := ThemeStyles(theme);
      var currentElasticity := params.conceptualControlValues.elasticity;
      var newSliders := ThemeSliders(theme, currentElasticity);
      ThemeSlidersReadThemeStyles(theme, currentElasticity);
      if Truthy(store.selectedElementId) {
        var id := store.selectedElementId.value;
        var link := if AppliedPreset(ThemeArgOf(theme)).Some? then Preset(theme.value.id) else Customized;
        store.UpdateElementStyles(id, newStyles, ThemeArgOf(theme));
        RestyledFind(old(store.elements), id, newStyles, link, id);
        params := params.(conceptualControlValues := newSliders, selectedUiElementThemeId := ThemeIdOf(theme));
      } else {
        params := params.(selectedUiElementThemeId := ThemeIdOf(theme), defaultUiElementRawStyles := newStyles,
                          conceptualControlValues := newSliders);
      }
      toast := Some(ThemeToast(theme));
    }

    /** `handleAddElement`: a new element of the type, with its default content, at the next
        grid slot, with the default styles and the selected theme; the store selects it.
        `newId` stands for the generated id. */
    method HandleAddElement(kind: ElementKind, newId: string)
      requires Valid()
      requires newId != "" && forall e :: e in store.elements ==> e.id != newId
      modifies store
      ensures Valid()
      ensures store.selectedElementId == Some(newId)
      ensures store.elements == old(store.elements) + [
        NewElement(newId, kind, DefaultContent(kind), Some(GridPosition(|old(store.elements)|)),
                   Some(params.defaultUiElementRawStyles), ThemeArgOfId(params.selectedUiElementThemeId), 0.0, 0.0,
                   NextZIndex(old(store.elements), None))]
      ensures store.elements[|store.elements| - 1].position == GridPosition(|old(store.elements)|)
      ensures forall e :: e in old(store.elements) ==> e.zIndex < store.elements[|store.elements| - 1].zIndex
    {
      var content := DefaultContent(kind);
      var position := GridPosition(|store.elements|);
      var _ := store.AddElement(kind, content, Some(position), Some(params.defaultUiElementRawStyles),
                                ThemeArgOfId(params.selectedUiElementThemeId), newId, 0.0, 0.0);
    }

    /** `handleExport`: generates the chosen file for the selected element (or the default
        panel) and opens the export dialog with it. Uses the corrected target, on which the
        darken toggle applies to every export. */
    method HandleExport(t: ExportFileType)
      modifies this
      ensures params == old(params) && darkenForLightBgActive == old(darkenForLightBgActive) && toast == old(toast)
      ensures var selected := if Truthy(store.selectedElementId) then FindElement(store.elements, store.selectedElementId.value) else None;
        exportDialog == Some(ExportDialogFor(ExportTarget(selected, darkenForLightBgActive, params), t))
    {
      var selected: Opt<Element> := None;
      if Truthy(store.selectedElementId) {
        selected := FindElement(store.elements, store.selectedElementId.value);
      }
      var target := ExportTarget(selected, darkenForLightBgActive, params);
      exportDialog := Some(ExportDialogFor(target, t));
    }

    /** `onSelect`: selects the element and, when it exists, shows its theme link and the
        reading of its styles on the sliders, keeping the elasticity. */
    method SelectElement(id: string)
      requires Valid()
      modifies this, store
      ensures Valid()
      ensures store.selectedElementId == Some(id) && store.elements == old(store.elements)
      ensures darkenForLightBgActive == old(darkenForLightBgActive) && exportDialog == old(exportDialog) && toast == old(toast)
      ensures FindElement(store.elements, id).None? ==> params == old(params)
      ensures FindElement(store.elements, id).Some? ==>
        var el := FindElement(store.elements, id).value;
        params == old(params).(selectedUiElementThemeId := LinkedThemeId(el.themeId),
                               conceptualControlValues := ReadConceptual(el.rawStyleParams, AppFallbacks,
                                                                         old(params).conceptualControlValues.elasticity))
      ensures id != "" ==> SlidersInSync(store.elements, store.selectedElementId, params)
    {
      store.SetSelectedElementId(Some(id));
      var el := FindElement(store.elements, id);
      if el.Some? {
        params := params.(selectedUiElementThemeId := LinkedThemeId(el.value.themeId),
                          conceptualControlValues := ReadConceptual(el.value.rawStyleParams, AppFallbacks,
                                                                    params.conceptualControlValues.elasticity));
      }
    }

    /** The drag-start handler: select the element, then bring it to the front. The element's
        link and the reading of its styles go to the sliders, it alone gets the next z-index,
        and nothing else changes; an unknown id is only selected. */
    method HandleDragStart(id: string)
      requires Valid()
      modifies this, store
      ensures Valid()
      ensures store.selectedElementId == Some(id)
      ensures darkenForLightBgActive == old(darkenForLightBgActive) && exportDialog == old(exportDialog) && toast == old(toast)
      ensures FindElement(old(store.elements), id).None? ==> store.elements == old(store.elements) && params == old(params)
      ensures FindElement(old(store.elements), id).Some? ==>
        var el := FindElement(old(store.elements), id).value;
        params == old(params).(selectedUiElementThemeId := LinkedThemeId(el.themeId),
                               conceptualControlValues := ReadConceptual(el.rawStyleParams, AppFallbacks,
                                                                         old(params).conceptualControlValues.elasticity))
      ensures |store.elements| == |old(store.elements)|
      ensures forall i :: 0 <= i < |store.elements| ==>
        store.elements[i] == if old(store.elements)[i].id == id
                             then old(store.elements)[i].(zIndex := NextZIndex(old(store.elements), Some(id)))
                             else old(store.elements)[i]
      ensures forall i, j :: 0 <= i < |store.elements| && 0 <= j < |store.elements|
                && store.elements[i].id == id && store.elements[j].id != id
                ==> store.elements[j].zIndex < store.elements[i].zIndex
    {
      SelectElement(id);
      store.BringToFront(id);
    }

    /** The drag handler: moves the element. */
    method HandleDrag(id: string, position: Position)
      requires Valid()
      modifies store
      ensures Valid() && store.selectedElementId == old(store.selectedElementId)
      ensures |store.elements| == |old(store.elements)|
      ensures forall i :: 0 <= i < |store.elements| ==>
        store.elements[i] == if old(store.elements)[i].id == id then old(store.elements)[i].(position := position)
                             else old(store.elements)[i]
    {
      store.UpdateElementPosition(id, position);
    }

    /** The darken toggle. */
    method SetDarkenForLightBg(on: bool)
      modifies this
      ensures darkenForLightBgActive == on
      ensures params == old(params) && exportDialog == old(exportDialog) && toast == old(toast)
    {
      darkenForLightBgActive := on;
    }
  }
}
