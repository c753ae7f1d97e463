/**
 * Turning a live board into a template (src/miro/create-template-from-board.ts).
 *
 * Every placed item of the board is read together with its per-type
 * details, its board id and its parent's board id are replaced by synthetic
 * `{{ID:n}}` ids from the shared generator, placeholder frames give up the
 * JSON hidden in their title, and three normalisations make the item
 * acceptable to the create endpoints again.
 */
module TemplateExport {
  import opened Wrappers
  import opened Strings
  import opened TemplateTypes
  import opened IdMapping

  /** An item as the board listing returns it. */
  datatype BoardItem = BoardItem(
    id: string,
    itemType: string,
    data: map<string, string>,
    geometry: Option<Geometry>,
    position: Option<Position>)

  /** What the per-type detail request contributes: the style and the parent's board id. */
  datatype Details = Details(style: Option<Style>, parentId: Option<string>)

  /** `loadDetails`: the nine known kinds are fetched, any other kind has no details. */
  function LoadDetails(item: BoardItem, fetch: BoardItem -> Details): (r: Option<Details>)
    ensures r.Some? <==> item.itemType in ItemTypes
    ensures r.Some? ==> r.value == fetch(item)
  {
    if item.itemType in ItemTypes then Some(fetch(item)) else None
  }

  /** `details?.parent?.id`. */
  function ParentOf(item: BoardItem, fetch: BoardItem -> Details): Option<string>
  {
    match LoadDetails(item, fetch)
    case None => None
    case Some(d) => d.parentId
  }

  /** `details?.style`. */
  function StyleOf(item: BoardItem, fetch: BoardItem -> Details): Option<Style>
  {
    match LoadDetails(item, fetch)
    case None => None
    case Some(d) => d.style
  }

  // ---------------------------------------------------------------------
  // Normalisations
  // ---------------------------------------------------------------------

  /** A frame whose `data.type` is the value `'unknown'` the create endpoint refuses. */
  predicate FrameTypeUnknown(item: TemplateItem)
  {
    item.itemType == "frame" && Lookup(item.data, "type") == Some("unknown")
  }

  /** `fixInvalidFrameType`: drops a frame's `data.type` when it is `'unknown'`; nothing else changes. */
  function FixInvalidFrameType(item: TemplateItem): (r: TemplateItem)
    ensures !FrameTypeUnknown(r)
    ensures FrameTypeUnknown(item) ==> "type" !in r.data
    ensures r.(data := item.data) == item
    ensures forall k :: k != "type" ==> Lookup(r.data, k) == Lookup(item.data, k)
    ensures !FrameTypeUnknown(item) ==> r == item
  {
    if FrameTypeUnknown(item) then item.(data := item.data - {"type"}) else item
  }

  /** A style whose non-empty `color` equals its `fillColor`. */
  predicate ColorClash(style: Option<Style>)
  {
    style.Some? && Truthy(Lookup(style.value, "color"))
    && Lookup(style.value, "color") == Lookup(style.value, "fillColor")
  }

  /** `fixInvalidColor`: drops `style.fillColor` when it repeats a non-empty `style.color`. */
  function FixInvalidColor(item: TemplateItem): (r: TemplateItem)
    ensures !ColorClash(r.style)
    ensures r.(style := item.style) == item
    ensures r.style.Some? <==> item.style.Some?
    ensures ColorClash(item.style) ==> "fillColor" !in r.style.value
    ensures r.style.Some? ==> forall k :: k != "fillColor" ==> Lookup(r.style.value, k) == Lookup(item.style.value, k)
    ensures !ColorClash(item.style) ==> r == item
  {
    if ColorClash(item.style) then item.(style := Some(item.style.value - {"fillColor"})) else item
  }

  /** A square or rectangular sticky note that carries both a non-zero width and a non-zero height. */
  predicate OverDetermined(itemType: string, data: map<string, string>, geometry: Option<Geometry>)
  {
    itemType == "sticky_note"
    && (Lookup(data, "shape") == Some("square") || Lookup(data, "shape") == Some("rectangle"))
    && geometry.Some? && NonZero(geometry.value.height) && NonZero(geometry.value.width)
  }

  /** The template item is such a sticky note. */
  predicate FixedAspectOverDetermined(item: TemplateItem)
  {
    OverDetermined(item.itemType, item.data, item.geometry)
  }

  /** `fixRemoveDimensionsFromItemWithFixedAspectRatio`: such a sticky note keeps its width only. */
  function FixRemoveDimensionsFromItemWithFixedAspectRatio(item: TemplateItem): (r: TemplateItem)
    ensures !FixedAspectOverDetermined(r)
    ensures r.(geometry := item.geometry) == item
    ensures r.geometry.Some? <==> item.geometry.Some?
    ensures r.geometry.Some? ==> r.geometry.value.width == item.geometry.value.width
    ensures FixedAspectOverDetermined(item) ==> r.geometry.value.height.None?
    ensures !FixedAspectOverDetermined(item) ==> r == item
  {
    if FixedAspectOverDetermined(item) then
      item.(geometry := Some(item.geometry.value.(height := None)))
    else item
  }

  /**
   * `fixItem`: the frame-type fix, then the colour fix, then the dimension
   * fix. Each removes only the field at fault, so an item without any of the
   * three defects comes back unchanged.
   */
  function FixItem(item: TemplateItem): (r: TemplateItem)
    ensures !FrameTypeUnknown(r) && !ColorClash(r.style) && !FixedAspectOverDetermined(r)
    ensures r.(data := item.data, style := item.style, geometry := item.geometry) == item
    ensures forall k :: k != "type" ==> Lookup(r.data, k) == Lookup(item.data, k)
    ensures Lookup(r.data, "type") == if FrameTypeUnknown(item) then None else Lookup(item.data, "type")
    ensures r.style.Some? <==> item.style.Some?
    ensures r.style.Some? ==> forall k :: k != "fillColor" ==> Lookup(r.style.value, k) == Lookup(item.style.value, k)
    ensures r.style.Some? ==>
      Lookup(r.style.value, "fillColor") == if ColorClash(item.style) then None else Lookup(item.style.value, "fillColor")
    ensures r.geometry.Some? <==> item.geometry.Some?
    ensures r.geometry.Some? ==>
      && r.geometry.value.width == item.geometry.value.width
      && r.geometry.value.height == if FixedAspectOverDetermined(item) then None else item.geometry.value.height
    ensures !FrameTypeUnknown(item) && !ColorClash(item.style) && !FixedAspectOverDetermined(item) ==> r == item
  {
    FixRemoveDimensionsFromItemWithFixedAspectRatio(FixInvalidColor(FixInvalidFrameType(item)))
  }

  /** Normalising twice is normalising once. */
  lemma FixItemIdempotent(item: TemplateItem)
    ensures FixItem(FixItem(item)) == FixItem(item)
  {
    var r := FixItem(item);
    assert FixInvalidFrameType(r) == r;
    assert FixInvalidColor(r) == r;
  }

  // ---------------------------------------------------------------------
  // Placeholder extraction
  // ---------------------------------------------------------------------

  /** The text a frame title carries to mark the frame as a placeholder area. */
  const MarkerPlaceholder := "!PLACEHOLDER!"

  /** A frame whose title contains the placeholder marker. */
  predicate HasPlaceholderMarker(item: TemplateItem)
  {
    item.itemType == "frame" && "title" in item.data && Contains(item.data["title"], MarkerPlaceholder)
  }

  // `s[i..j+1]` is what the title regex `/[^{]*({.*})[^}]*/` captures:
  // `i` is the first `{` of `s` and `j` a `}` after it with no `}` further on.
  ghost predicate JsonSpan(s: string, i: nat, j: nat)
  {
    i < j < |s| && s[i] == '{' && s[j] == '}'
    && (forall k :: 0 <= k < i ==> s[k] != '{')
    && (forall k :: j < k < |s| ==> s[k] != '}')
  }

  // `title.replace(/[^{]*({.*})[^}]*/, '$1')` on a single-line title: the
  // text from the first `{` to the last `}` when one follows it, otherwise the
  // title unchanged.
  function StripNonJson(s: string): (r: string)
    ensures r == s || exists i: nat, j: nat :: JsonSpan(s, i, j) && r == s[i..j + 1]
  {
    var first := IndexOf(s, '{');
    var last := LastIndexOf(s, '}');
    if first.Some? && last.Some? && first.value < last.value then
      assert JsonSpan(s, first.value, last.value);
      s[first.value..last.value + 1]
    else s
  }

  /** Whenever the title has such a span, the span is what is kept: the capture is unique. */
  lemma StripNonJsonSpan(s: string, i: nat, j: nat)
    requires JsonSpan(s, i, j)
    ensures StripNonJson(s) == s[i..j + 1]
  {
    var first := IndexOf(s, '{');
    var last := LastIndexOf(s, '}');
    assert first.Some? && first.value == i;
    assert last.Some? && last.value == j;
  }

  /** The HTML entity for a double quote that the board stores in titles. */
  const QuoteEntity := "&#34;"

  /** `replace(/&#34;/g, '"')`. */
  function DecodeQuotes(s: string): string
  {
    ReplaceAll(s, QuoteEntity, "\"")
  }

  /** After decoding, no `&#34;` is left and none was introduced. */
  lemma DecodeQuotesComplete(s: string)
    ensures !Contains(DecodeQuotes(s), QuoteEntity)
    ensures forall w :: |w| > 0 && Disjoint("\"", w) && Contains(DecodeQuotes(s), w) ==> Contains(s, w)
  {
    ReplaceAllRemovesEvery(s, QuoteEntity, "\"");
    forall w | |w| > 0 && Disjoint("\"", w) && Contains(DecodeQuotes(s), w)
      ensures Contains(s, w)
    {
      ReplaceAllCreatesNone(s, QuoteEntity, "\"", w);
    }
  }

  /** The text `JSON.parse` receives for a marked frame's title. */
  function PlaceholderJson(title: string): string
  {
    DecodeQuotes(StripNonJson(title))
  }

  /**
   * `extractPlaceholder` with `JSON.parse` as `parse` (`None` when it throws):
   * a marked frame gets the parsed placeholder when parsing succeeds, loses
   * its title and its truthy fill colour in every case; any other item is
   * returned as it is.
   */
  function ExtractPlaceholder(item: TemplateItem, parse: string -> Option<Placeholder>): (r: TemplateItem)
    ensures !HasPlaceholderMarker(item) ==> r == item
    ensures HasPlaceholderMarker(item) ==>
      && Lookup(r.data, "title") == Some("")
      && (forall k :: k != "title" ==> Lookup(r.data, k) == Lookup(item.data, k))
      && r.placeholder == (if parse(PlaceholderJson(item.data["title"])).Some?
                           then parse(PlaceholderJson(item.data["title"])) else item.placeholder)
      && (r.style.Some? <==> item.style.Some?)
      && (r.style.Some? ==>
            && !Truthy(Lookup(r.style.value, "fillColor"))
            && (Truthy(Lookup(item.style.value, "fillColor")) ==> "fillColor" !in r.style.value)
            && (!Truthy(Lookup(item.style.value, "fillColor")) ==> r.style == item.style)
            && forall k :: k != "fillColor" ==> Lookup(r.style.value, k) == Lookup(item.style.value, k))
    ensures r.(data := item.data, style := item.style, placeholder := item.placeholder) == item
  {
    if HasPlaceholderMarker(item) then
      var parsed := parse(PlaceholderJson(item.data["title"]));
      var style :=
        if item.style.Some? && Truthy(Lookup(item.style.value, "fillColor"))
        then Some(item.style.value - {"fillColor"}) else item.style;
      item.(placeholder := if parsed.Some? then parsed else item.placeholder,
            data := item.data["title" := ""],
            style := style)
    else item
  }

  // ---------------------------------------------------------------------
  // The export loop
  // ---------------------------------------------------------------------

  /** `parentId ? { id: idGenerator.map(parentId) } : undefined`. */
  function MapParent(g: GeneratorState, parentId: Option<string>): (GeneratorState, Option<string>)
  {
    if Truthy(parentId) then var (g', p) := MapId(g, parentId.value); (g', Some(p)) else (g, None)
  }

  /** A board item that is a frame whose title holds the placeholder marker. */
  predicate MarkedFrame(b: BoardItem)
  {
    b.itemType == "frame" && "title" in b.data && Contains(b.data["title"], MarkerPlaceholder)
  }

  /**
   * The payload of template item `t` is the one exported for board item `b`:
   * the data is `b`'s except for a marked frame's title (emptied) and a frame
   * `type` of `'unknown'` (removed); the geometry keeps its width and loses
   * its height only on a fixed-aspect sticky note; the fetched style keeps
   * every key, except that `fillColor` is removed when it is truthy on a
   * marked frame or repeats the colour; the placeholder is what `parse` makes of a
   * marked frame's title and absent otherwise; and none of the three defects
   * `fixItem` repairs is left.
   */
  ghost predicate CarriesPayload(b: BoardItem, t: TemplateItem, fetch: BoardItem -> Details,
                                 parse: string -> Option<Placeholder>)
  {
    var style := StyleOf(b, fetch);
    && (forall k :: k != "title" && k != "type" ==> Lookup(t.data, k) == Lookup(b.data, k))
    && Lookup(t.data, "title") == (if MarkedFrame(b) then Some("") else Lookup(b.data, "title"))
    && Lookup(t.data, "type") ==
         (if b.itemType == "frame" && Lookup(b.data, "type") == Some("unknown") then None else Lookup(b.data, "type"))
    && (t.geometry.Some? <==> b.geometry.Some?)
    && (t.geometry.Some? ==>
          && t.geometry.value.width == b.geometry.value.width
          && t.geometry.value.height ==
               (if OverDetermined(b.itemType, b.data, b.geometry) then None else b.geometry.value.height))
    && (t.style.Some? <==> style.Some?)
    && (t.style.Some? ==> forall k :: k != "fillColor" ==> Lookup(t.style.value, k) == Lookup(style.value, k))
    && (t.style.Some? && MarkedFrame(b) ==> !Truthy(Lookup(t.style.value, "fillColor")))
    && (t.style.Some? ==>
          Lookup(t.style.value, "fillColor") ==
            (if (MarkedFrame(b) && Truthy(Lookup(style.value, "fillColor"))) || ColorClash(style)
             then None else Lookup(style.value, "fillColor")))
    && t.placeholder == (if MarkedFrame(b) then parse(PlaceholderJson(b.data["title"])) else None)
    && !FrameTypeUnknown(t) && !ColorClash(t.style) && !FixedAspectOverDetermined(t)
  }

  /** `fixItem(extractPlaceholder(filteredItem))` for the item assembled from `b` and its mapped ids. */
  function AssembleItem(b: BoardItem, id: string, parent: Option<string>, fetch: BoardItem -> Details,
                        parse: string -> Option<Placeholder>): (t: TemplateItem)
    ensures t.id == id && t.itemType == b.itemType && t.position == b.position && t.parent == parent
    ensures t.placeholder.Some? ==> t.itemType == "frame"
    ensures CarriesPayload(b, t, fetch, parse)
  {
    var filtered := TemplateItem(id, b.itemType, b.data, b.geometry, b.position, parent, StyleOf(b, fetch), None);
    FixItem(ExtractPlaceholder(filtered, parse))
  }

  /** One iteration of the loop body for a placed item: map the id, then the parent's id, then extract and fix. */
  function ExportOne(g: GeneratorState, b: BoardItem, fetch: BoardItem -> Details,
                     parse: string -> Option<Placeholder>): (GeneratorState, TemplateItem)
  {
    var (g1, id) := MapId(g, b.id);
    var (g2, parent) := MapParent(g1, ParentOf(b, fetch));
    (g2, AssembleItem(b, id, parent, fetch, parse))
  }

  /** The whole loop over the listing: unplaced items are skipped, the others exported in order. */
  function ExportItems(g: GeneratorState, items: seq<BoardItem>, fetch: BoardItem -> Details,
                       parse: string -> Option<Placeholder>): (GeneratorState, seq<TemplateItem>)
    decreases |items|
  {
    if items == [] then (g, [])
    else
      var (g1, out) := ExportItems(g, items[..|items| - 1], fetch, parse);
      var last := items[|items| - 1];
      if last.position.None? then (g1, out)
      else
        var (g2, t) := ExportOne(g1, last, fetch, parse);
        (g2, out + [t])
  }

  /** `createTemplateFromBoard` with the listing, the detail fetch and `JSON.parse` as parameters. */
  method CreateTemplateFromBoard(gen: IdGenerator, items: seq<BoardItem>, templateId: string,
                                 fetch: BoardItem -> Details, parse: string -> Option<Placeholder>)
    returns (template: Template)
    requires gen.Valid()
    modifies gen
    ensures gen.Valid()
    ensures (gen.State(), template.items) == ExportItems(old(gen.State()), items, fetch, parse)
    ensures template.name == "TEMPLATE " + templateId && template.templateId == templateId
  {
    var templateItems: seq<TemplateItem> := [];
    for i := 0 to |items|
      invariant gen.Valid()
      invariant (gen.State(), templateItems) == ExportItems(old(gen.State()), items[..i], fetch, parse)
    {
      assert items[..i + 1][..i] == items[..i];
      var item := items[i];
      if item.position.None? {
        continue;
      }
      var details := LoadDetails(item, fetch);
      var parentId := if details.Some? then details.value.parentId else None;
      var id := gen.Map(item.id);
      var parent: Option<string> := None;
      if Truthy(parentId) {
        var p := gen.Map(parentId.value);
        parent := Some(p);
      }
      var style := if details.Some? then details.value.style else None;
      var filteredItem := TemplateItem(id, item.itemType, item.data, item.geometry, item.position,
                                       parent, style, None);
      assert filteredItem.style == StyleOf(item, fetch);
      templateItems := templateItems + [FixItem(ExtractPlaceholder(filteredItem, parse))];
    }
    assert items[..|items|] == items;
    template := Template("TEMPLATE " + templateId, templateId, templateItems);
  }

  // ---------------------------------------------------------------------
  // What the export promises
  // ---------------------------------------------------------------------

  /** The items that have a position, in listing order. */
  function Placed(items: seq<BoardItem>): (r: seq<BoardItem>)
    ensures |r| <= |items|
    ensures forall b :: b in r ==> b in items && b.position.Some?
  {
    if items == [] then []
    else
      var last := items[|items| - 1];
      Placed(items[..|items| - 1]) + (if last.position.Some? then [last] else [])
  }

  /** Every listed item with a position is kept. */
  lemma {:induction false} PlacedKeepsPositioned(items: seq<BoardItem>)
    ensures forall b :: b in items && b.position.Some? ==> b in Placed(items)
    decreases |items|
  {
    if items != [] {
      var init, last := items[..|items| - 1], items[|items| - 1];
      PlacedKeepsPositioned(init);
      assert items == init + [last];
    }
  }

  /** One more listed item is kept at the end exactly when it has a position. */
  lemma PlacedSnoc(items: seq<BoardItem>, last: BoardItem)
    ensures Placed(items + [last]) == Placed(items) + (if last.position.Some? then [last] else [])
  {
    assert (items + [last])[..|items|] == items;
  }

  /** Filtering distributes over concatenation, so the kept items stay in listing order. */
  lemma {:induction false} PlacedAppend(a: seq<BoardItem>, b: seq<BoardItem>)
    ensures Placed(a + b) == Placed(a) + Placed(b)
    decreases |b|
  {
    if b == [] {
      assert a + b == a;
    } else {
      var init, last := b[..|b| - 1], b[|b| - 1];
      var kept := if last.position.Some? then [last] else [];
      PlacedAppend(a, init);
      SplitLast(b);
      AppendAssociates(a, init, [last]);
      PlacedSnoc(a + init, last);
      PlacedSnoc(init, last);
      AppendAssociates(Placed(a), Placed(init), kept);
    }
  }

  /** Every key of `m` is kept with its value in `m'`. */
  ghost predicate Extends(m: map<string, string>, m': map<string, string>)
  {
    forall k :: k in m ==> k in m' && m'[k] == m[k]
  }

  /**
   * The template item `t` stands for the board item `b` under the final
   * generator mapping `m`: its id is `b`'s mapped id, kind and position are
   * `b`'s, it has a parent exactly when `b`'s details name a non-empty parent
   * id and then it is that id's mapping, only frames carry a placeholder, and
   * its payload is the one exported for `b`.
   */
  ghost predicate Corresponds(m: map<string, string>, b: BoardItem, t: TemplateItem, fetch: BoardItem -> Details,
                              parse: string -> Option<Placeholder>)
  {
    && b.id in m && t.id == m[b.id]
    && t.itemType == b.itemType && t.position == b.position
    && (t.parent.Some? <==> Truthy(ParentOf(b, fetch)))
    && (Truthy(ParentOf(b, fetch)) ==> ParentOf(b, fetch).value in m && t.parent == Some(m[ParentOf(b, fetch).value]))
    && (t.placeholder.Some? ==> t.itemType == "frame")
    && CarriesPayload(b, t, fetch, parse)
  }

  /** A correspondence survives the mapping growing. */
  lemma CorrespondsExtends(m: map<string, string>, m': map<string, string>, b: BoardItem, t: TemplateItem,
                           fetch: BoardItem -> Details, parse: string -> Option<Placeholder>)
    requires Corresponds(m, b, t, fetch, parse) && Extends(m, m')
    ensures Corresponds(m', b, t, fetch, parse)
  {
  }

  /** Mapping the parent id keeps the generator invariant and resolves a truthy parent id. */
  lemma MapParentStep(g: GeneratorState, parentId: Option<string>)
    requires GeneratorInv(g)
    ensures var (g', p) := MapParent(g, parentId);
      && GeneratorInv(g') && Extends(g.idMapping, g'.idMapping)
      && (p.Some? <==> Truthy(parentId))
      && (Truthy(parentId) ==> parentId.value in g'.idMapping && p == Some(g'.idMapping[parentId.value]))
  {
    if Truthy(parentId) {
      MapIdStep(g, parentId.value);
    }
  }

  /** One exported item corresponds to its board item, and the generator only grows. */
  lemma ExportOneFaithful(g: GeneratorState, b: BoardItem, fetch: BoardItem -> Details,
                          parse: string -> Option<Placeholder>)
    requires GeneratorInv(g)
    ensures var (g', t) := ExportOne(g, b, fetch, parse);
      GeneratorInv(g') && Extends(g.idMapping, g'.idMapping) && Corresponds(g'.idMapping, b, t, fetch, parse)
  {
    MapIdStep(g, b.id);
    var (g1, id) := MapId(g, b.id);
    MapParentStep(g1, ParentOf(b, fetch));
  }

  /**
   * The exported items are the placed board items, one each, in order; each
   * corresponds to its board item under the final mapping, the mapping keeps
   * every id it had, and the generator invariant holds throughout.
   */
  lemma {:induction false} ExportItemsFaithful(g: GeneratorState, items: seq<BoardItem>, fetch: BoardItem -> Details,
                                               parse: string -> Option<Placeholder>)
    requires GeneratorInv(g)
    ensures var (g', out) := ExportItems(g, items, fetch, parse);
      && GeneratorInv(g') && Extends(g.idMapping, g'.idMapping)
      && |out| == |Placed(items)|
      && forall i :: 0 <= i < |out| ==> Corresponds(g'.idMapping, Placed(items)[i], out[i], fetch, parse)
    decreases |items|
  {
    if items != [] {
      var init := items[..|items| - 1];
      var last := items[|items| - 1];
      ExportItemsFaithful(g, init, fetch, parse);
      var (g1, out) := ExportItems(g, init, fetch, parse);
      if last.position.Some? {
        ExportOneFaithful(g1, last, fetch, parse);
        var (g2, t) := ExportOne(g1, last, fetch, parse);
        var placed := Placed(items);
        assert placed == Placed(init) + [last];
        forall i | 0 <= i < |out| + 1
          ensures Corresponds(g2.idMapping, placed[i], (out + [t])[i], fetch, parse)
        {
          if i < |out| {
            assert placed[i] == Placed(init)[i];
            CorrespondsExtends(g1.idMapping, g2.idMapping, placed[i], out[i], fetch, parse);
          }
        }
      } else {
        assert Placed(items) == Placed(init) + [];
      }
    }
  }

  /** Two exported items share an id exactly when they come from the same board id. */
  lemma ExportIdsFaithful(g: GeneratorState, items: seq<BoardItem>, fetch: BoardItem -> Details,
                          parse: string -> Option<Placeholder>, i: nat, j: nat)
    requires GeneratorInv(g)
    requires i < |Placed(items)| && j < |Placed(items)|
    ensures var out := ExportItems(g, items, fetch, parse).1;
      && i < |out| && j < |out|
      && (out[i].id == out[j].id <==> Placed(items)[i].id == Placed(items)[j].id)
  {
    ExportItemsFaithful(g, items, fetch, parse);
  }

  /**
   * Parent links survive the export: when the parent named by a board item's
   * details is itself exported, the template item's parent is that item's
   * synthetic id.
   */
  lemma ParentLinksPreserved(g: GeneratorState, items: seq<BoardItem>, fetch: BoardItem -> Details,
                             parse: string -> Option<Placeholder>, i: nat, j: nat)
    requires GeneratorInv(g)
    requires i < |Placed(items)| && j < |Placed(items)|
    requires Truthy(ParentOf(Placed(items)[i], fetch)) && ParentOf(Placed(items)[i], fetch).value == Placed(items)[j].id
    ensures var out := ExportItems(g, items, fetch, parse).1;
      i < |out| && j < |out| && out[i].parent == Some(out[j].id)
  {
    ExportItemsFaithful(g, items, fetch, parse);
  }

  /**
   * The generator is shared by every export of a process: a second export
   * that meets a board id the first one mapped gives it the same synthetic id.
   */
  lemma LaterExportReusesIds(g: GeneratorState, first: seq<BoardItem>, second: seq<BoardItem>,
                             fetch: BoardItem -> Details, parse: string -> Option<Placeholder>, i: nat)
    requires GeneratorInv(g)
    requires i < |Placed(second)|
    requires Placed(second)[i].id in ExportItems(g, first, fetch, parse).0.idMapping
    ensures var g1 := ExportItems(g, first, fetch, parse).0;
      var out := ExportItems(g1, second, fetch, parse).1;
      i < |out| && out[i].id == g1.idMapping[Placed(second)[i].id]
  {
    ExportItemsFaithful(g, first, fetch, parse);
    ExportItemsFaithful(ExportItems(g, first, fetch, parse).0, second, fetch, parse);
  }
}
