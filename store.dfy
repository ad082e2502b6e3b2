/** The element registry: an ordered list of draggable elements and the id of the selected
    one, with the operations that add, move, restyle, reorder and remove elements. */
module ElementRegistry {
  import opened Types
  import opened Constants

  // ---------------------------------------------------------------------------
  // Pure helpers on element lists

  /** `elements.filter(el => el.id !== id)`. */
  function Without(els: seq<Element>, id: string): (r: seq<Element>)
    ensures forall e :: e in r <==> e in els && e.id != id
    ensures |r| <= |els|
  {
    if els == [] then []
    else if els[0].id == id then Without(els[1..], id)
    else [els[0]] + Without(els[1..], id)
  }

  /** The largest z-index of a non-empty list. */
  function MaxZ(els: seq<Element>): (m: int)
    requires els != []
    ensures forall e :: e in els ==> e.zIndex <= m
    ensures exists e :: e in els && e.zIndex == m
  {
    if |els| == 1 then els[0].zIndex
    else
      var rest := MaxZ(els[1..]);
      assert forall e :: e in els[1..] ==> e in els;
      if els[0].zIndex >= rest then els[0].zIndex else rest
  }

  /** `getNextZIndex(elements, excludeId)`; the exclusion applies only to a truthy id. */
  function NextZIndex(els: seq<Element>, excludeId: Opt<string>): int {
    var f := if Truthy(excludeId) then Without(els, excludeId.value) else els;
    if f == [] then 1 else MaxZ(f) + 1
  }

  /** The next z-index is one above the largest z-index of the elements other than the excluded
      one, or 1 when there are none: above all of them, and tight. */
  lemma NextZIndexIsMaxPlusOne(els: seq<Element>, excludeId: Opt<string>)
    ensures var f := if Truthy(excludeId) then Without(els, excludeId.value) else els;
      && (f == [] ==> NextZIndex(els, excludeId) == 1)
      && (forall e :: e in f ==> e.zIndex < NextZIndex(els, excludeId))
      && (f != [] ==> exists e :: e in f && NextZIndex(els, excludeId) == e.zIndex + 1)
  {
    var f := if Truthy(excludeId) then Without(els, excludeId.value) else els;
    if f != [] {
      var m := MaxZ(f);
      assert exists e :: e in f && e.zIndex == m;
      var e :| e in f && e.zIndex == m;
      assert NextZIndex(els, excludeId) == e.zIndex + 1;
    }
  }

  /** Excluding a non-empty id, the next z-index is above every other element's. */
  lemma NextZIndexAboveOthers(els: seq<Element>, id: string)
    requires id != ""
    ensures forall i :: 0 <= i < |els| && els[i].id != id ==> els[i].zIndex < NextZIndex(els, Some(id))
  {
    NextZIndexIsMaxPlusOne(els, Some(id));
    forall i | 0 <= i < |els| && els[i].id != id ensures els[i].zIndex < NextZIndex(els, Some(id)) {
      assert els[i] in Without(els, id);
    }
  }

  /** `elements.find(el => el.id === id)`: an element with the id, the first one
      (`FindElementIsFirst`), or none. */
  function FindElement(els: seq<Element>, id: string): (r: Opt<Element>)
    ensures r.Some? ==> r.value in els && r.value.id == id
    ensures r.None? <==> forall e :: e in els ==> e.id != id
  {
    if els == [] then None
    else if els[0].id == id then Some(els[0])
    else
      var rest := FindElement(els[1..], id);
      assert forall e :: e in els ==> e == els[0] || e in els[1..];
      rest
  }

  /** `find` returns the first element with the id. */
  lemma {:induction false} FindElementIsFirst(els: seq<Element>, id: string, i: nat)
    requires i < |els| && els[i].id == id
    requires forall j :: 0 <= j < i ==> els[j].id != id
    ensures FindElement(els, id) == Some(els[i])
  {
    if i > 0 {
      assert els[0].id != id;
      FindElementIsFirst(els[1..], id, i - 1);
    }
  }

  predicate DistinctIds(els: seq<Element>) {
    forall i, j :: 0 <= i < j < |els| ==> els[i].id != els[j].id
  }

  lemma DistinctTail(els: seq<Element>)
    requires els != [] && DistinctIds(els)
    ensures DistinctIds(els[1..])
    ensures forall e :: e in els[1..] ==> e.id != els[0].id
  {
    var rest := els[1..];
    forall i, j | 0 <= i < j < |rest| ensures rest[i].id != rest[j].id {
      assert rest[i] == els[i + 1] && rest[j] == els[j + 1];
    }
    forall e | e in rest ensures e.id != els[0].id {
      var k :| 0 <= k < |rest| && rest[k] == e;
      assert els[k + 1] == e;
    }
  }

  /** Filtering keeps ids distinct. */
  lemma {:induction false} WithoutKeepsDistinct(els: seq<Element>, id: string)
    requires DistinctIds(els)
    ensures DistinctIds(Without(els, id))
  {
    if els != [] {
      DistinctTail(els);
      var rest := Without(els[1..], id);
      WithoutKeepsDistinct(els[1..], id);
      if els[0].id != id {
        var r := [els[0]] + rest;
        forall i, j | 0 <= i < j < |r| ensures r[i].id != r[j].id {
          if i == 0 {
            assert r[j] == rest[j - 1] && r[j] in rest;
          } else {
            assert r[i] == rest[i - 1] && r[j] == rest[j - 1];
          }
        }
      }
    }
  }

  /** With distinct ids, filtering out a present id removes exactly one element. */
  lemma {:induction false} WithoutRemovesOne(els: seq<Element>, id: string)
    requires DistinctIds(els)
    requires exists e :: e in els && e.id == id
    ensures |Without(els, id)| == |els| - 1
  {
    DistinctTail(els);
    if els[0].id == id {
      WithoutAbsent(els[1..], id);
    } else {
      var e :| e in els && e.id == id;
      assert e in els[1..];
      WithoutRemovesOne(els[1..], id);
    }
  }

  /** Filtering out an absent id changes nothing. */
  lemma {:induction false} WithoutAbsent(els: seq<Element>, id: string)
    requires forall e :: e in els ==> e.id != id
    ensures Without(els, id) == els
  {
    if els != [] {
      assert els[0] in els;
      assert forall e :: e in els[1..] ==> e in els;
      WithoutAbsent(els[1..], id);
      assert els == [els[0]] + els[1..];
    }
  }

  /** The id left selected after a removal: the last remaining element's, or none. */
  function LastIdOrNone(els: seq<Element>): (r: Opt<string>)
    ensures r.Some? <==> els != []
    ensures r.Some? ==> r.value == els[|els| - 1].id
  {
    if els == [] then None else Some(els[|els| - 1].id)
  }

  /** Every preset link names a theme of the catalog. */
  predicate LinksResolve(els: seq<Element>) {
    forall i :: 0 <= i < |els| && els[i].themeId.Preset? ==> els[i].themeId.id in ThemeIds
  }

  /** The element `addElement` builds. A theme id naming a catalog preset gives the preset's
      styles and links the element to it. Any other argument keeps `initialRawStyles` (or the
      defaults) and leaves the link `null` when `null` was passed, `undefined` otherwise. The
      position is the given one or `random() * 200 + 50`, `random() * 100 + 50`. */
  function NewElement(id: string, kind: ElementKind, content: ElementContent, initialPosition: Opt<Position>,
                      initialRawStyles: Opt<RawStyles>, themeId: ThemeArg, rx: real, ry: real,
                      zIndex: int): (e: Element)
    ensures e.id == id && e.kind == kind && e.content == content && e.zIndex == zIndex
    ensures initialPosition.Some? ==> e.position == initialPosition.value
    ensures initialPosition.None? ==> e.position == Position(rx * 200.0 + 50.0, ry * 100.0 + 50.0)
  {
    var preset := if themeId.Named? && themeId.id != "" then FindTheme(themeId.id) else None;
    Element(
      id, kind, content,
      if initialPosition.Some? then initialPosition.value else Position(rx * 200.0 + 50.0, ry * 100.0 + 50.0),
      zIndex,
      if preset.Some? then preset.value.styleParams
      else if initialRawStyles.Some? then initialRawStyles.value else DefaultRawStyles,
      if preset.Some? then Preset(preset.value.id) else if themeId.NullTheme? then Customized else Unset)
  }

  /** A theme id naming a catalog preset gives the element that preset's styles and links it
      to the preset, whatever styles were passed. */
  lemma NewElementTakesPreset(id: string, kind: ElementKind, content: ElementContent, initialPosition: Opt<Position>,
                              initialRawStyles: Opt<RawStyles>, t: Theme, rx: real, ry: real, zIndex: int)
    requires t in Themes
    ensures var e := NewElement(id, kind, content, initialPosition, initialRawStyles, Named(t.id), rx, ry, zIndex);
      e.rawStyleParams == t.styleParams && e.themeId == Preset(t.id)
  {
    FindThemeOfCatalogMember(t);
    PresetsKeepDefaultBorderWidth();
  }

  /** Any other theme argument (`null`, omitted, empty or unknown) keeps the passed styles, or
      the defaults, and links the element to nothing: `null` when `null` was passed and
      `undefined` otherwise. */
  lemma NewElementWithoutPreset(id: string, kind: ElementKind, content: ElementContent, initialPosition: Opt<Position>,
                                initialRawStyles: Opt<RawStyles>, themeId: ThemeArg, rx: real, ry: real, zIndex: int)
    requires !(themeId.Named? && themeId.id in ThemeIds)
    ensures var e := NewElement(id, kind, content, initialPosition, initialRawStyles, themeId, rx, ry, zIndex);
      && e.rawStyleParams == (if initialRawStyles.Some? then initialRawStyles.value else DefaultRawStyles)
      && (e.themeId.Customized? <==> themeId.NullTheme?)
      && (e.themeId.Unset? <==> !themeId.NullTheme?)
  {
    if themeId.Named? {
      FindThemeSucceedsOnCatalogIds(themeId.id);
    }
  }

  /** `updateElementStyles` applies a full theme only when the new id is given and names a preset. */
  function AppliedPreset(newThemeId: ThemeArg): Opt<Theme> {
    if newThemeId.Named? then FindTheme(newThemeId.id) else None
  }

  /** `elements.map(el => el.id === id ? { ...el, rawStyleParams: styles, themeId: link } : el)`. */
  function Restyled(els: seq<Element>, id: string, styles: RawStyles, link: ThemeLink): seq<Element> {
    seq(|els|, i requires 0 <= i < |els| =>
      if els[i].id != id then els[i] else els[i].(rawStyleParams := styles, themeId := link))
  }

  /** Restyling is seen by lookups: the element with that id now carries the new styles and
      link, and every other id finds what it found before. */
  lemma {:induction false} RestyledFind(els: seq<Element>, id: string, styles: RawStyles, link: ThemeLink, other: string)
    ensures FindElement(Restyled(els, id, styles, link), id)
         == if FindElement(els, id).Some? then Some(FindElement(els, id).value.(rawStyleParams := styles, themeId := link)) else None
    ensures other != id ==> FindElement(Restyled(els, id, styles, link), other) == FindElement(els, other)
  {
    if els != [] {
      var r := Restyled(els, id, styles, link);
      assert r[1..] == Restyled(els[1..], id, styles, link);
      RestyledFind(els[1..], id, styles, link, other);
    }
  }

  // ---------------------------------------------------------------------------
  // The store

  class ElementStore {
    var elements: seq<Element>
    var selectedElementId: Opt<string>

    /** Ids are non-empty and distinct, and every preset link resolves in the catalog. */
    ghost predicate Valid()
      reads this
    {
      && DistinctIds(elements)
      && (forall i :: 0 <= i < |elements| ==> elements[i].id != "")
      && LinksResolve(elements)
    }

    /** The store starts with no elements and nothing selected. */
    constructor ()
      ensures Valid()
      ensures elements == [] && selectedElementId == None
    {
      elements := [];
      selectedElementId := None;
    }

    /** `addElement`: appends the new element above every existing one, selects it and returns
        its id. `newId` stands for the generated UUID and `rx`, `ry` for the two random draws. */
    method AddElement(kind: ElementKind, content: ElementContent, initialPosition: Opt<Position>,
                      initialRawStyles: Opt<RawStyles>, themeId: ThemeArg,
                      newId: string, rx: real, ry: real) returns (id: string)
      requires Valid()
      requires newId != "" && forall e :: e in elements ==> e.id != newId
      requires 0.0 <= rx < 1.0 && 0.0 <= ry < 1.0
      modifies this
      ensures Valid()
      ensures id == newId && selectedElementId == Some(newId)
      ensures elements == old(elements) + [NewElement(newId, kind, content, initialPosition, initialRawStyles,
                                                       themeId, rx, ry, NextZIndex(old(elements), None))]
      ensures forall e :: e in old(elements) ==> e.zIndex < elements[|elements| - 1].zIndex
      ensures initialPosition.None? ==>
        var p := elements[|elements| - 1].position; 50.0 <= p.x < 250.0 && 50.0 <= p.y < 150.0
    {
      var z := NextZIndex(elements, None);
      NextZIndexIsMaxPlusOne(elements, None);
      var e := NewElement(newId, kind, content, initialPosition, initialRawStyles, themeId, rx, ry, z);
      if themeId.Named? {
        FindThemeSucceedsOnCatalogIds(themeId.id);
      }
      elements := elements + [e];
      selectedElementId := Some(newId);
      id := newId;
    }

    /** `updateElementPosition`: moves the element with that id; nothing else changes. */
    method UpdateElementPosition(id: string, position: Position)
      requires Valid()
      modifies this
      ensures Valid() && selectedElementId == old(selectedElementId)
      ensures |elements| == |old(elements)|
      ensures forall i :: 0 <= i < |elements| ==>
        elements[i] == if old(elements)[i].id == id then old(elements)[i].(position := position) else old(elements)[i]
    {
      elements := seq(|elements|, i requires 0 <= i < |elements| reads this =>
        if elements[i].id == id then elements[i].(position := position) else elements[i]);
    }

    /** `updateElementStyles`: replaces the element's styles; its link becomes the new preset when
        the id names one, and is cleared to "customised" otherwise. */
    method UpdateElementStyles(id: string, styleChanges: RawStyles, newThemeId: ThemeArg)
      requires Valid()
      modifies this
      ensures Valid() && selectedElementId == old(selectedElementId)
      ensures elements == Restyled(old(elements), id, styleChanges,
                                   if AppliedPreset(newThemeId).Some? then Preset(newThemeId.id) else Customized)
    {
      var link := if AppliedPreset(newThemeId).Some? then Preset(newThemeId.id) else Customized;
      if newThemeId.Named? {
        FindThemeSucceedsOnCatalogIds(newThemeId.id);
      }
      elements := Restyled(elements, id, styleChanges, link);
    }

    /** `updateAllElementStyles`: merges the patch into every element and clears every link. */
    method UpdateAllElementStyles(styleChangesForAll: StylePatch)
      requires Valid()
      modifies this
      ensures Valid() && selectedElementId == old(selectedElementId)
      ensures |elements| == |old(elements)|
      ensures forall i :: 0 <= i < |elements| ==>
        elements[i] == old(elements)[i].(rawStyleParams := Merge(old(elements)[i].rawStyleParams, styleChangesForAll),
                                         themeId := Customized)
    {
      elements := seq(|elements|, i requires 0 <= i < |elements| reads this =>
        elements[i].(rawStyleParams := Merge(elements[i].rawStyleParams, styleChangesForAll), themeId := Customized));
    }

    /** `bringToFront`: lifts the element above every other one and selects it; an unknown id
        changes nothing. */
    method BringToFront(id: string)
      requires Valid()
      modifies this
      ensures Valid()
      ensures FindElement(old(elements), id).None? ==> elements == old(elements) && selectedElementId == old(selectedElementId)
      ensures FindElement(old(elements), id).Some? ==>
        && selectedElementId == Some(id)
        && |elements| == |old(elements)|
        && (forall i :: 0 <= i < |elements| ==>
              elements[i] == if old(elements)[i].id == id
                             then old(elements)[i].(zIndex := NextZIndex(old(elements), Some(id)))
                             else old(elements)[i])
        && (forall i, j :: 0 <= i < |elements| && 0 <= j < |elements| && elements[i].id == id && elements[j].id != id
              ==> elements[j].zIndex < elements[i].zIndex)
    {
      if FindElement(elements, id).None? {
        return;
      }
      var z := NextZIndex(elements, Some(id));
      assert id != "" by {
        var e := FindElement(elements, id).value;
        var k :| 0 <= k < |elements| && elements[k] == e;
      }
      NextZIndexAboveOthers(elements, id);
      elements := seq(|elements|, i requires 0 <= i < |elements| reads this =>
        if elements[i].id == id then elements[i].(zIndex := z) else elements[i]);
      selectedElementId := Some(id);
    }

    /** `removeElement`: drops the element; if it was selected, the last remaining element (or
        nothing) becomes selected. */
    method RemoveElement(id: string)
      requires Valid()
      modifies this
      ensures Valid()
      ensures elements == Without(old(elements), id)
      ensures selectedElementId == if old(selectedElementId) == Some(id) then LastIdOrNone(elements) else old(selectedElementId)
      ensures FindElement(old(elements), id).Some? ==> |elements| == |old(elements)| - 1
    {
      WithoutKeepsDistinct(elements, id);
      if FindElement(elements, id).Some? {
        WithoutRemovesOne(elements, id);
      }
      var remaining := Without(elements, id);
      if selectedElementId == Some(id) {
        selectedElementId := LastIdOrNone(remaining);
      }
      elements := remaining;
      forall i | 0 <= i < |elements| ensures elements[i].id != "" && (elements[i].themeId.Preset? ==> elements[i].themeId.id in ThemeIds) {
        assert elements[i] in old(elements);
      }
    }

    /** `setSelectedElementId`. */
    method SetSelectedElementId(id: Opt<string>)
      modifies this
      ensures selectedElementId == id && elements == old(elements)
    {
      selectedElementId := id;
    }

    /** `deleteSelectedElement`: with a truthy selection, drops that element and selects the last
        remaining one (or nothing); otherwise changes nothing. */
    method DeleteSelectedElement()
      requires Valid()
      modifies this
      ensures Valid()
      ensures !Truthy(old(selectedElementId)) ==> elements == old(elements) && selectedElementId == old(selectedElementId)
      ensures Truthy(old(selectedElementId)) ==>
        && elements == Without(old(elements), old(selectedElementId).value)
        && selectedElementId == LastIdOrNone(elements)
    {
      if !Truthy(selectedElementId) {
        return;
      }
      var id := selectedElementId.value;
      WithoutKeepsDistinct(elements, id);
      elements := Without(elements, id);
      selectedElementId := LastIdOrNone(elements);
      forall i | 0 <= i < |elements| ensures elements[i].id != "" && (elements[i].themeId.Preset? ==> elements[i].themeId.id in ThemeIds) {
        assert elements[i] in old(elements);
      }
    }

    /** `clearAllElements`. */
    method ClearAllElements()
      modifies this
      ensures Valid()
      ensures elements == [] && selectedElementId == None
    {
      elements := [];
      selectedElementId := None;
    }

    /** `getElement`: the first element with that id, if any. */
    method GetElement(id: string) returns (r: Opt<Element>)
      ensures r.Some? ==> r.value in elements && r.value.id == id
      ensures r.None? <==> forall e :: e in elements ==> e.id != id
      ensures forall i :: 0 <= i < |elements| && elements[i].id == id && (forall j :: 0 <= j < i ==> elements[j].id != id)
                ==> r == Some(elements[i])
    {
      r := FindElement(elements, id);
      forall i | 0 <= i < |elements| && elements[i].id == id && (forall j :: 0 <= j < i ==> elements[j].id != id)
        ensures r == Some(elements[i])
      {
        FindElementIsFirst(elements, id, i);
      }
    }
  }
}
