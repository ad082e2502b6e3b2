# Liquid-glass editor core in Dafny

This project models the style engine of the liquid-glass editor. Users place buttons, cards
and panels on a canvas and tune their glass look with sliders. The model covers these parts:

- **Element store** (module `ElementRegistry`, class `ElementStore`). An ordered list of
  elements and the selected id. It has operations to add, move, restyle, raise, remove and
  clear elements.
- **Style projection** (module `StyleProjection`). `hexToRgbArray` and the projection of a raw
  style record onto CSS custom properties, a background colour and a layered `box-shadow`.
- **Conceptual mapper** (module `Conceptual`). The linear maps between the six slider values
  and the raw fields they drive, together with the readings the editor uses to move the
  sliders.
- **Theme catalog** (module `Constants`). The default style record, the nine presets and the
  initial parameters.
- **Exporters** (module `Export`). The component snippet, the CSS stylesheet and the
  design-tool JSON document. Each is kept as a structured value rather than text.
- **Interaction rules** (module `Interaction`):
  - the elastic stretch and its clamp;
  - the grid placement and default content of new elements;
  - the darken-for-light-background override;
  - export file names.
- **Editor handlers** (module `Studio`, class `Editor`). The page state and the handlers behind
  the sliders, the theme buttons, the add buttons, the drag surface, the darken toggle and
  the export buttons.

Modelling conventions:
- JavaScript numbers are `real`.
- `x || d` on a number is `Types.OrElse`: zero reads as the fallback.
- An optional field is `Opt`, and `None` stands for `undefined`.
- A style's `themeId` is `Preset(id)`, `Customized` (`null`) or `Unset` (`undefined`).
- Generated text keeps its numbers abstract, as `Number` pieces.
- The store's invariant `Valid()` says that ids are non-empty and distinct and that every
  preset link names a catalog theme. Every store method that requires it also preserves it.

Behaviour of the code worth noting:

- The initial slider values (`INITIAL_CONCEPTUAL_SLIDER_VALUES`) read a zero blur and a zero
  border width with the fallbacks 16 and 1.0, while the editor uses 20 and 1.2. They agree on the
  default record only because none of its mapped fields is zero (`FallbacksDisagreeOnZeroBlur`).
- The round trip between slider values and raw fields is exact except at zero. There
  JavaScript's `||` substitutes the fallback (`RawConceptualRawRoundTrip`).
- An element created without a theme argument keeps `themeId` undefined (`Unset`).
  `addElement` does not fall back to a default theme (`NewElementWithoutPreset`).
- The three exporters do not agree on every input:
  - the design-tool JSON slices the border colour at fixed positions that assume a leading
    `#`;
  - the stylesheet's secondary-shadow gate is looser than the projection's.

  Both are stated as lemmas about the exporters as written.

Two defects in the source are recorded under Findings:
- The darken toggle does not reach a selected element's export. The model keeps the target
  as written (`ExportTargetAsWritten`), and the export handler uses the corrected target.
- The component snippet escapes only backticks. `GenerateFramer` keeps that escape, as the
  source does. `GenerateFramerEscaped` is the corrected generator, which also escapes
  backslashes and `$` and writes a carriage return as `\r` (`EscapeTemplate`). The defect cannot be reached from the editor:
  every content the editor creates is plain markup (`EditorContentExportsWhole`).

## Model

| member | source | states |
|---|---|---|
| ElementRegistry.NextZIndexIsMaxPlusOne | store/draggableElementStore.ts:28-32 | the next z-index is 1 when no other element is left; otherwise it is above every remaining element and exactly one above some element |
| ElementRegistry.NextZIndexAboveOthers | store/draggableElementStore.ts:28-32 | excluding a non-empty id, the next z-index is above every other element's |
| ElementRegistry.Without | store/draggableElementStore.ts:103 | the filtered list holds exactly the elements whose id differs, and is no longer than the input |
| ElementRegistry.WithoutKeepsDistinct | store/draggableElementStore.ts:103 | filtering keeps ids distinct |
| ElementRegistry.WithoutRemovesOne | store/draggableElementStore.ts:102-112 | with distinct ids, filtering out a present id removes exactly one element |
| ElementRegistry.WithoutAbsent | store/draggableElementStore.ts:102-112 | filtering out an id that no element has leaves the list unchanged |
| ElementRegistry.FindElement | store/draggableElementStore.ts:123 | a found element is in the list and has the id; nothing is found exactly when no element has it |
| ElementRegistry.FindElementIsFirst | store/draggableElementStore.ts:123 | `find` returns the first element with the id |
| ElementRegistry.LastIdOrNone | store/draggableElementStore.ts:106 | after a removal the new selection is the last remaining element's id, or none exactly when the list is empty |
| ElementRegistry.NewElement | store/draggableElementStore.ts:38-59 | the new element has the given id, type, content and z-index; its position is the one passed, or else `(random·200 + 50, random·100 + 50)` from the two draws |
| ElementRegistry.NewElementTakesPreset | store/draggableElementStore.ts:40-55 | a theme id naming a catalog preset gives the element that preset's styles and a link to it |
| ElementRegistry.NewElementWithoutPreset | store/draggableElementStore.ts:40-55 | any other theme argument gives the passed styles or, without them, the defaults; the link is marked customised exactly when `null` was passed and unset otherwise |
| ElementRegistry.RestyledFind | store/draggableElementStore.ts:63-85 | after a restyle, looking up the id finds the element with the new styles and link; every other id finds what it found before |
| ElementRegistry.ElementStore.constructor | store/draggableElementStore.ts:36-37 | the store starts empty with nothing selected, and valid |
| ElementRegistry.ElementStore.AddElement | store/draggableElementStore.ts:38-59 | appends the built element with z-index max+1 (1 when empty), which is above every existing element; selects it and returns its id; an element placed at random lands in [50,250)×[50,150); validity is kept |
| ElementRegistry.ElementStore.UpdateElementPosition | store/draggableElementStore.ts:60-62 | only the element with the id moves; nothing else changes |
| ElementRegistry.ElementStore.UpdateElementStyles | store/draggableElementStore.ts:63-85 | the element gets the new styles; its link becomes the preset when the new id names a catalog theme and `null` otherwise; the other elements and the selection are unchanged; validity is kept |
| ElementRegistry.ElementStore.UpdateAllElementStyles | store/draggableElementStore.ts:86-92 | every element gets the patch merged into its styles and its link cleared to `null` |
| ElementRegistry.ElementStore.BringToFront | store/draggableElementStore.ts:93-101 | an unknown id changes nothing; otherwise the element alone gets the next z-index, is strictly above every other element and becomes selected |
| ElementRegistry.ElementStore.RemoveElement | store/draggableElementStore.ts:102-112 | the element is filtered out and the length drops by one when it was present; a removed selection moves to the last remaining element or to none; validity is kept |
| ElementRegistry.ElementStore.SetSelectedElementId | store/draggableElementStore.ts:113 | sets the selection and leaves the elements alone |
| ElementRegistry.ElementStore.DeleteSelectedElement | store/draggableElementStore.ts:114-121 | without a truthy selection nothing changes; otherwise the selected element is removed and the last remaining element (or none) is selected |
| ElementRegistry.ElementStore.ClearAllElements | store/draggableElementStore.ts:122 | no elements and no selection |
| ElementRegistry.ElementStore.GetElement | store/draggableElementStore.ts:123 | returns the first element with the id, or none exactly when no element has it |
| StyleProjection.HexToRgbArray | store/draggableElementStore.ts:126-134 | the result is three bytes; anything other than six hex digits (with or without `#`) gives white, and so does the empty string |
| StyleProjection.HexRoundTrip | store/draggableElementStore.ts:126-134 | parsing the `#rrggbb` spelling of a colour, or the same spelling without `#`, gives the colour back |
| StyleProjection.HexBodyLower | store/draggableElementStore.ts:128 | lower-casing a colour commutes with stripping its `#` |
| StyleProjection.HexCaseInsensitive | store/draggableElementStore.ts:128 | for every string, lower-casing it changes neither whether it is accepted as a colour nor the channels it parses to |
| StyleProjection.OtherColourFormsFallBackToWhite | store/draggableElementStore.ts:127-133 | three-digit, eight-digit, `rgba(...)` and double-`#` spellings all give white |
| StyleProjection.RankIsPosition | store/draggableElementStore.ts:136-199 | the key ranks enumerate the projection's keys in the source's order |
| StyleProjection.VariableNamesStartWithDashes | store/draggableElementStore.ts:136-199 | a key name starts with `--` exactly when it is a custom property |
| StyleProjection.LookupFindsKey | store/draggableElementStore.ts:136-199 | a lookup finds a value exactly when some entry has the key, and the value is stored under it |
| StyleProjection.ProjectionIsEntries | store/draggableElementStore.ts:136-199 | the style object sets exactly the keys the entry table sets, each with its value |
| StyleProjection.ProjectionKeysOrdered | store/draggableElementStore.ts:136-199 | each key is set at most once, in the source's order |
| StyleProjection.BaseKeysAlwaysSet | store/draggableElementStore.ts:140-183 | the base variables and both composites are always set; the secondary variables are set only behind the gate, and the spread only when present |
| StyleProjection.ProjectionBackground | store/draggableElementStore.ts:169-173 | the background is the tint when it is non-empty, else white at the glass opacity |
| StyleProjection.ProjectionShadowLayers | store/draggableElementStore.ts:176-196 | the shadow has three layers (primary, secondary, inset) exactly when the secondary gate holds, otherwise two |
| StyleProjection.PartialSecondaryIsAbsent | store/draggableElementStore.ts:176-183 | a secondary colour and opacity without an offset or a blur set no secondary variable and leave two shadow layers |
| StyleProjection.ProjectionBaseFields | store/draggableElementStore.ts:140-160 | pixel fields carry a `px` suffix; opacities stay numbers |
| StyleProjection.ProjectionColourFields | store/draggableElementStore.ts:140-160 | a hex border colour becomes its parsed triplet; a missing inset highlight becomes white |
| Conceptual.MapConceptualToRawStyles | App.tsx:271-285 | elasticity yields an empty patch and every other key a single-field patch |
| Conceptual.PatchSetsOnlyItsField | App.tsx:271-285 | for each key, the patched record is the old record with exactly that key's raw field set to the mapped value (elasticity leaves the record as it was) |
| Conceptual.RawConceptualRawRoundTrip | App.tsx:271-285 | raw → slider → raw returns a non-zero value unchanged; a zero comes back as the fallback, which is then stable |
| Conceptual.ConceptualRawConceptualRoundTrip | App.tsx:271-285 | slider → raw → slider returns the slider's value (except a zero on a key with a fallback), and every other reading is unchanged |
| Conceptual.SliderRangesMapToRawRanges | App.tsx:271-285 | slider values inside their ranges map to raw values inside the raw ranges |
| Conceptual.InitialConceptualIsReadingOfDefault | constants.ts:280-287 | the initial slider values are the reading of the default styles under either set of fallbacks, with their concrete values |
| Conceptual.FallbacksDisagreeOnZeroBlur | constants.ts:280-287 | on a zero blur and a zero border width the two fallback sets give different roughness and thickness readings |
| Constants.FindThemeIn | constants.ts:55 | a found preset is in the list and has the id; nothing is found exactly when no preset has it |
| Constants.FindThemeSucceedsOnCatalogIds | constants.ts:55-278 | a catalog lookup succeeds exactly for the nine catalog ids, and finds the preset asked for |
| Constants.CatalogOrder | constants.ts:55-278 | nine presets in catalog order, with distinct ids |
| Constants.FindThemeOfCatalogMember | constants.ts:55-278 | every preset is found by its own id |
| Constants.PresetsKeepDefaultBorderWidth | constants.ts:21-278 | every preset keeps border width 1 and has a non-empty id |
| Constants.SecondaryShadowPresets | constants.ts:21-278 | the default and seven presets have no secondary shadow; prismatic and trueLiquid define all five fields |
| Constants.TintedPresets | constants.ts:21-278 | exactly mercury, frost, organic, mirror and void set a background tint |
| Constants.InitialParamsFromTrueLiquid | constants.ts:290-300 | the initial parameters take trueLiquid's styles and id, with concrete slider values |
| Export.Take | utils/exportUtils.ts:127 | `substring(0, n)` is the prefix of length min(n, length) |
| Export.Capitalize | utils/exportUtils.ts:22 | capitalising keeps the length and every character after the first |
| Export.ComponentNames | utils/exportUtils.ts:22 | the component names are LiquidButton, LiquidCard and LiquidPanel |
| Export.EscapedBackticksArePreceded | utils/exportUtils.ts:43 | every backtick of the escaped string follows a backslash (which may itself be escaped, see Findings) |
| Export.EscapeBackticksReadsBackPlainText | utils/exportUtils.ts:43 | markup with no backslash, no `$` and no carriage return reads back unchanged from the template literal built by the source's escape |
| Export.EscapeBackticksMisreads | utils/exportUtils.ts:43 | a backslash before a backtick closes the template early, `${x}` reads as a substitution, and a carriage return reads back as a line feed |
| Export.EscapeTemplateReadsBack | utils/exportUtils.ts:43 | with backslash, backtick and `$` escaped and a carriage return written `\r`, every text reads back whole and unchanged under JavaScript's template-literal reading, which turns a raw carriage return into a line feed |
| Export.KeepCustomPropertiesLookup | utils/exportUtils.ts:17-20 | the filter keeps every custom property with its value and drops the composites |
| Export.FramerStyleMatchesProjection | utils/exportUtils.ts:5-20 | the component's style sets every custom property of the projection, with the same value, and nothing else |
| Export.ChildrenHtmlPlain | utils/exportUtils.ts:25-37 | the fixed markup around the content holds no backslash, `$` or carriage return, so children markup built from plain fields is plain |
| Export.FramerChildrenRoundTrip | utils/exportUtils.ts:25-43 | when the children markup holds no backslash, no `$` and no carriage return, the pasted inner HTML reads back, under JavaScript's template-literal reading, to exactly that markup |
| Export.FramerChildrenMisread | utils/exportUtils.ts:43 | a button whose text is a backslash before a backtick gives a component whose template literal closes early; text `${x}` gives a substitution |
| Export.EscapesAgreeOnPlainMarkup | utils/exportUtils.ts:43 | on markup with no backslash, `$` or carriage return, the corrected escape and the source's escape produce the same text |
| Export.EscapedFramerChildrenRoundTrip | utils/exportUtils.ts:25-43 | the corrected component reads back to the children markup for every content, carriage returns included; it differs from the source's only in the escaped markup, and not at all on plain markup |
| Export.EmptyContentFallback | utils/exportUtils.ts:25-41 | a card or panel with no icon, title or body gets the empty-label paragraph; with no icon, the content probe is the non-empty "undefined" |
| Export.CssRulesScoped | utils/exportUtils.ts:125-228 | four rules, each scoped under the element's selector |
| Export.SelectorIdentifiesTypeAndIdPrefix | utils/exportUtils.ts:127 | two elements share a selector exactly when their types and first six id characters agree |
| Export.CssPadding | utils/exportUtils.ts:175 | the main rule pads a button `12px 24px` and anything else `24px` |
| Export.CssVariablesAgreeWithProjection | utils/exportUtils.ts:130-163 | each CSS variable has the projection's value exactly when the two do not read a colour differently |
| Export.CssSecondaryGateIsLooser | utils/exportUtils.ts:190-197 | a secondary colour and opacity without an offset pass the CSS gate but not the projection's, and print "undefined" |
| Export.CssGateContainsProjectionGate | utils/exportUtils.ts:190-197 | the projection's gate implies the CSS gate; without the CSS gate the shadow has exactly the primary and inset layers |
| Export.ParsePair | utils/exportUtils.ts:256-258 | `parseInt` of two hex digits is the projection's pair value |
| Export.FigmaStrokeMatchesProjection | utils/exportUtils.ts:253-261 | for a `#rrggbb` border colour the stroke is the projection's triplet divided by 255 |
| Export.FigmaMisreadsColoursWithoutHash | utils/exportUtils.ts:253-261 | a colour without `#` is misread (`FFFFFF` has a blue channel of 15/255, where the projection reads white); `#FFF` has a NaN blue |
| Export.ExportersAgree | utils/exportUtils.ts:230-269 | the JSON node carries the raw opacity, blur, border width, radius and border opacity, the same numbers the projection writes |
| Interaction.Clamp | App.tsx:116-117 | the result lies in the range and is the input when the input already does |
| Interaction.ElasticScale | App.tsx:99-120 | the scale always lies in [0.85, 1.15] and is 1 when elasticity is not positive |
| Interaction.ClampInactiveInsideElement | App.tsx:99-120 | inside the element and with elasticity in (0, 100], the clamp never applies: the scale is the unclamped stretch, within 8% of 1, and above 1 exactly when the pointer is past the centre |
| Interaction.PullInUnitRange | App.tsx:107-108 | inside the element the pull lies in [-1, 1] and is positive exactly past the centre |
| Interaction.GridPositionsDistinct | App.tsx:429-431 | different element counts give different grid positions, with x in [50, 210] |
| Interaction.DefaultContent | App.tsx:420-424 | a button gets a text, others a title; every type gets an icon; only a card gets a body |
| Interaction.DarkenOverrideChangesThreeFields | App.tsx:70-81 | the override changes only the tint and the two text colours, is idempotent, and leaves the record unchanged exactly when those already have the dark values |
| Interaction.DarkenedProjection | App.tsx:70-83 | darkened styles project to the dark background and white text and titles; every other entry is unchanged |
| Interaction.RenderedStyles | App.tsx:70-81 | the selected element is drawn with exactly the override of its styles while the toggle is on; every other element, and every element while it is off, is drawn with its stored styles |
| Interaction.ExportFilenameParts | App.tsx:475-490 | the file name is `liquid-glass-`, the type name and the extension, and the extension identifies the file type |
| Interaction.ExportFilenamesDistinct | App.tsx:475-490 | two exports share a file name exactly when type and file type agree |
| Studio.ShownStyles | App.tsx:551-567 | with no truthy selection the sliders describe the defaults; otherwise they describe the selected element's styles when it exists |
| Studio.ElasticityKeepsSync | App.tsx:361-372 | moving the elasticity slider keeps the sliders the reading of the shown styles |
| Studio.SelectedChangeKeepsSync | App.tsx:361-395 | moving a mapped slider on the selected element keeps the sliders the reading of its new styles, except for a zero on a key with a fallback |
| Studio.DefaultsChangeKeepsSync | App.tsx:361-395 | the same for the defaults when nothing is selected |
| Studio.ThemeSlidersReadThemeStyles | App.tsx:287-320 | the sliders a theme installs are the reading of the styles it installs, with the elasticity kept, also for "no theme" |
| Studio.LinkedThemeId | App.tsx:551-567 | the theme id shown for a selected element is its link's id exactly when the link is a non-empty preset, and null otherwise |
| Studio.MountedElements | App.tsx:322-359 | the mount effect's two `addElement` calls build the welcome card (z 1) and the action button (z 2) with trueLiquid's styles and link |
| Studio.ExportAsWrittenIgnoresDarken | App.tsx:436-471 | as written, with the toggle on, a selected element is exported with styles other than those it is drawn with |
| Studio.ExportMatchesRendering | App.tsx:436-471 | the corrected export of a selected element carries the styles it is drawn with, and otherwise is the element |
| Studio.DefaultExportUnchanged | App.tsx:452-471 | with nothing selected, the corrected and as-written exports agree: the default panel with the (darkened) defaults and the selected theme as its link |
| Studio.ExportDialogConsistent | App.tsx:474-491 | the dialog records the target and file type, names the file after both, and shows a component exactly for `tsx` |
| Studio.EditorContentExportsWhole | App.tsx:341-356 | the add buttons' default content, the welcome card, the action button and the default export panel are plain, so their exported component reads back whole |
| Studio.Generate | App.tsx:478-490 | each file type selects its own generator |
| Studio.Editor.constructor | constants.ts:290-311 | the page starts with an empty store, the initial parameters, the toggle off, no dialog and no toast |
| Studio.Editor.Mount | App.tsx:322-359 | installs trueLiquid's styles and their reading. An empty store gets exactly the welcome card and the action button, with the card selected and the sliders in sync; a non-empty store is untouched |
| Studio.Editor.AddWelcomeElements | App.tsx:341-356 | on an empty store: exactly the welcome card at (50, 50) and the action button at (350, 70) one z-index above it, both with the given styles and theme, and the card selected; the store stays valid |
| Studio.Editor.AddWelcomeCard | App.tsx:342-348 | on an empty store: exactly the welcome card, built by `addElement` with z-index 1 |
| Studio.Editor.AddActionButton | App.tsx:349-355 | appends the action button one z-index above the single existing card |
| Studio.Editor.HandleConceptualStyleChange | App.tsx:361-395 | elasticity moves only its slider. Another key patches the selected element (clearing its link) or the defaults, moves the slider and clears the selected theme. A dangling selection changes nothing. The sliders stay in sync |
| Studio.Editor.HandleBorderParamChange | App.tsx:399-415 | sets one raw field on the selected element (clearing its link) or on the defaults; the sliders do not move |
| Studio.Editor.ApplyUiTheme | App.tsx:287-320 | installs the preset's styles (or the defaults) on the selection, linked to the preset, or as the defaults; sets the sliders to their reading, the theme id and the toast; the sliders end in sync |
| Studio.Editor.HandleAddElement | App.tsx:420-434 | adds an element of the type with its default content at the next grid slot, with the default styles and selected theme, above every other element, and selects it |
| Studio.Editor.HandleExport | App.tsx:436-492 | opens the dialog for the selected element (or the default panel), with the darken toggle applied to either |
| Studio.Editor.SelectElement | App.tsx:551-567 | selects the id; an existing element's link and the reading of its styles (keeping elasticity) become the parameters; the sliders end in sync |
| Studio.Editor.HandleDragStart | App.tsx:65-68 | the id becomes selected; a known element's link and style reading go to the sliders, it alone takes `NextZIndex` and ends strictly above every other element, and every other element, position and style is unchanged; an unknown id changes no element and no slider; darken toggle, dialog and toast are unchanged |
| Studio.Editor.HandleDrag | App.tsx:61-63 | only the dragged element moves |
| Studio.Editor.SetDarkenForLightBg | App.tsx:239 | sets the toggle and nothing else |

## Left out

- The three unmapped glass parameters (index of refraction, roughness, thickness) and the
  parameters that only drive the WebGL background: they never reach an element's styles.
- Rendering: the DOM, WebGL, pointer events and setting CSS properties on nodes. The model
  keeps the values these consume, such as the scale from `ElasticScale`, not the act of
  setting them.
- Generated text is modelled as structure (`FramerComponent`, `Rule` lists, `FigmaDocument`).
  Left out of it are:
  - the template's fixed text, indentation and line breaks;
  - JavaScript's number-to-string conversion (numbers stay `Number` pieces);
  - `JSON.stringify`.
- Clipboard copy, file download, the toast's timeout and any debouncing are left out. They
  are I/O and timers.
- `uuidv4` and `Math.random` become parameters. `AddElement` takes the new id (assumed fresh
  and non-empty, as a UUID is) and the two random draws. `HandleAddElement` and `Mount` pass
  fixed positions, so their draws are 0.
- NaN is not modelled in `||` or in the slider arithmetic.
- `parseInt`'s skipping of leading whitespace is not modelled. The border colour is sliced at
  fixed positions, so only a colour that starts with whitespace would differ.
- The "Liquid Element" branch of the component's inner HTML cannot be reached for the three
  element types. It is not modelled.
- `styleChanges` in `updateElementStyles` is a partial record in the source and a full record
  in the model. Every caller in the editor passes a full record.
- `Studio.Editor.HandleExport`: the dialog records the export target and file type. The
  generated content is `ExportDialog.Content()`, not a stored string. The method uses the
  corrected target described under Findings.
- `Studio.Editor.HandleConceptualStyleChange`: sync is promised only when the new value is not
  a zero on a key whose reading has a fallback. In that case the source's sliders show the
  zero while the reading shows the fallback.
- Template-literal reading covers `\\`, `` \` ``, `\$`, `\r`, `${`, a closing backtick and
  the reading of a raw carriage return (alone or before a line feed) as a line feed. Any other
  escape sequence, a backslash before a line break included, is read as `OtherEscape` and not
  decoded further. The corrected escape never produces one.
- `ElementRegistry.ElementStore.AddElement` requires a fresh, non-empty id. The source relies
  on the UUID generator for that, and the store invariant needs it.

## Findings

| source | as written | input that shows it | evidently intended | confidence | as-written member | corrected member |
|---|---|---|---|---|---|---|
| App.tsx:443-471 | `stylesToExport` is darkened for a selected element, but `elementToExport` falls back to the synthetic panel only when nothing is selected and otherwise is the stored element, so the darkened styles reach only the default panel | darken toggle on, a selected element whose tint is not `rgba(20, 20, 30, 0.25)` | the comment at line 443 says the toggle applies to any export: the selected element is exported with the darkened styles it is drawn with | not executed | Studio.ExportAsWrittenIgnoresDarken | Studio.ExportMatchesRendering |
| utils/exportUtils.ts:43 | the inner HTML is pasted into a template literal with only backticks escaped | content containing a backslash before a backtick (`` \` ``), `${x}`, or a carriage return (read back as a line feed). The defect is latent: the editor's own content never holds a backslash, `$` or carriage return (App.tsx:344, 351, 422-424, 465; `EditorContentExportsWhole`), so only other callers of the exported function can hit it | escape backslashes, backticks and `$`, and write a carriage return as `\r`, so the markup reads back whole | not executed | Export.FramerChildrenMisread | Export.EscapedFramerChildrenRoundTrip |
