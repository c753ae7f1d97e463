/**
 * Turning a template into a new board (src/miro/create-board-from-template.ts).
 *
 * A board is created under the template's name cut to 60 characters. The
 * items are then created in two passes (first the items without a parent,
 * then those with one), each item's parent id being translated through the
 * id mapper from the template id to the id of the item created for it.
 * Finally every created placeholder frame is filled with sticky notes laid
 * out by the sticky layout engine.
 *
 * The remote board service is a `Board` object that records the requests it
 * receives and answers them through a response function fixed when it is
 * created: the id of the created item, or `None` when the request is rejected.
 */
module TemplateImport {
  import opened Wrappers
  import opened Strings
  import opened TemplateTypes
  import opened IdMapping
  import opened StickyLayout

  /** Largest side of a generated sticky note, in pixels. */
  const MaxStickySizePx := 100
  /** Gap between two generated sticky notes, in pixels. */
  const StickySeparationPx := 5
  /** Longest board name the board service accepts. */
  const MaxBoardNameLength := 60

  /** `name.substr(0, 60)`. */
  function BoardName(name: string): (r: string)
    ensures |r| == Min(MaxBoardNameLength, |name|)
    ensures r == name[..|r|]
    ensures |name| <= MaxBoardNameLength ==> r == name
  {
    name[..Min(MaxBoardNameLength, |name|)]
  }

  // ---------------------------------------------------------------------
  // Requests and the board
  // ---------------------------------------------------------------------

  /**
   * What `createItem` sends for a template item: everything but `id`, `type`
   * and `placeholder`. `parent` is `None` when there is no parent object,
   * `Some(None)` for `{id: undefined}` and `Some(Some(x))` for `{id: x}`.
   */
  datatype CreateRequest = CreateRequest(
    data: map<string, string>,
    geometry: Option<Geometry>,
    position: Option<Position>,
    parent: Option<Option<string>>,
    style: Option<Style>)

  /** A generated sticky note: content, style, width, parent frame and position in it. */
  datatype StickyRequest = StickyRequest(
    content: string,
    style: Style,
    width: int,
    parent: Option<string>,
    position: Option<Position>)

  /** One request the board receives. */
  datatype BoardCall =
    | ItemCall(kind: string, request: CreateRequest)
    | StickyCall(sticky: StickyRequest)

  /** The created board: its ids, its name, and the requests it has received. */
  class Board {
    const id: string
    const viewLink: Option<string>
    const name: string
    const respond: (nat, BoardCall) -> Option<string>
    var calls: seq<BoardCall>

    constructor (id: string, viewLink: Option<string>, name: string, respond: (nat, BoardCall) -> Option<string>)
      ensures this.id == id && this.viewLink == viewLink && this.name == name && this.respond == respond
      ensures calls == []
    {
      this.id := id;
      this.viewLink := viewLink;
      this.name := name;
      this.respond := respond;
      calls := [];
    }

    /** Sends one request; the answer is the created item's id, or `None` when it is rejected. */
    method Send(call: BoardCall) returns (createdId: Option<string>)
      modifies this
      ensures calls == old(calls) + [call]
      ensures createdId == respond(|old(calls)|, call)
    {
      createdId := respond(|calls|, call);
      calls := calls + [call];
    }
  }

  /** The response `createBoardFromTemplate` resolves to. */
  datatype CreateBoardResponse = CreateBoardResponse(boardId: string, viewLink: Option<string>)

  /** The request for `item` with its parent id translated through `mapping`. */
  function ToCreateRequest(item: TemplateItem, mapping: map<string, string>): (r: CreateRequest)
    ensures r.data == item.data && r.geometry == item.geometry && r.position == item.position && r.style == item.style
    ensures r.parent.None? <==> item.parent.None?
    ensures item.parent == Some("") ==> r.parent == Some(Some(""))
    ensures item.parent.Some? && item.parent.value != "" ==>
      r.parent == Some(if item.parent.value in mapping then Some(mapping[item.parent.value]) else None)
  {
    var parent :=
      if item.parent.Some? && item.parent.value != "" then Some(Lookup(mapping, item.parent.value))
      else if item.parent.Some? then Some(item.parent)
      else None;
    CreateRequest(item.data, item.geometry, item.position, parent, item.style)
  }

  /** The error `createItem` throws for a kind it has no endpoint for. */
  function UnsupportedType(kind: string): string
  {
    "Unsupported item type " + kind
  }

  /** The outcome of `createItem` for the `index`-th request of the board. */
  function CreateOutcome(kind: string, request: CreateRequest, index: nat,
                         respond: (nat, BoardCall) -> Option<string>): (r: Result<string>)
    ensures kind !in ItemTypes ==> r == Failure(UnsupportedType(kind))
    ensures kind in ItemTypes ==> (r.Success? <==> respond(index, ItemCall(kind, request)).Some?)
    ensures kind in ItemTypes && respond(index, ItemCall(kind, request)).Some? ==>
      r == Success(respond(index, ItemCall(kind, request)).value)
    ensures kind in ItemTypes && respond(index, ItemCall(kind, request)).None? ==>
      r == Failure("Request rejected by the board")
  {
    if kind !in ItemTypes then Failure(UnsupportedType(kind))
    else match respond(index, ItemCall(kind, request))
      case None => Failure("Request rejected by the board")
      case Some(createdId) => Success(createdId)
  }

  /** `createItem`: one of the nine endpoints by kind, or the unsupported-type error without a request. */
  method CreateItem(board: Board, kind: string, request: CreateRequest) returns (created: Result<string>)
    modifies board
    ensures created == CreateOutcome(kind, request, |old(board.calls)|, board.respond)
    ensures board.calls == old(board.calls) + (if kind in ItemTypes then [ItemCall(kind, request)] else [])
  {
    if kind !in ItemTypes {
      return Failure(UnsupportedType(kind));
    }
    var createdId := board.Send(ItemCall(kind, request));
    if createdId.None? {
      return Failure("Request rejected by the board");
    }
    created := Success(createdId.value);
  }

  // ---------------------------------------------------------------------
  // Creating the items
  // ---------------------------------------------------------------------

  /** The mapper's contents, the placeholder frames created so far and the requests sent so far. */
  datatype ImportState = ImportState(mapping: map<string, string>, queue: seq<TemplateItem>, calls: seq<BoardCall>)

  /**
   * `handleItem`: send the item's request; when it is created, record its
   * new id under its template id and queue it if it carries a placeholder;
   * when it fails, only the request is left behind.
   */
  function HandleItemSpec(s: ImportState, item: TemplateItem, respond: (nat, BoardCall) -> Option<string>): (r: ImportState)
    ensures r.queue == s.queue || (r.queue == s.queue + [item] && item.placeholder.Some? && item.id in r.mapping)
    ensures r.calls == s.calls + (if item.itemType in ItemTypes then [ItemCall(item.itemType, ToCreateRequest(item, s.mapping))] else [])
    ensures var outcome := CreateOutcome(item.itemType, ToCreateRequest(item, s.mapping), |s.calls|, respond);
      && (outcome.Failure? ==> r.mapping == s.mapping && r.queue == s.queue)
      && (outcome.Success? ==> r.mapping == s.mapping[item.id := outcome.value]
                               && (r.queue != s.queue <==> item.placeholder.Some?))
  {
    var request := ToCreateRequest(item, s.mapping);
    var calls := s.calls + (if item.itemType in ItemTypes then [ItemCall(item.itemType, request)] else []);
    match CreateOutcome(item.itemType, request, |s.calls|, respond)
    case Failure(_) => s.(calls := calls)
    case Success(createdId) =>
      ImportState(s.mapping[item.id := createdId],
                  if item.placeholder.Some? then s.queue + [item] else s.queue,
                  calls)
  }

  /** `handleItem` over a list, one item after the other. */
  function HandleAll(s: ImportState, items: seq<TemplateItem>, respond: (nat, BoardCall) -> Option<string>): ImportState
    decreases |items|
  {
    if items == [] then s
    else HandleItemSpec(HandleAll(s, items[..|items| - 1], respond), items[|items| - 1], respond)
  }

  /** `handleItem` as it runs against the mapper and the board. */
  method HandleItem(mapper: IdMapper, board: Board, item: TemplateItem, queue: seq<TemplateItem>)
    returns (queue': seq<TemplateItem>)
    modifies mapper, board
    ensures ImportState(mapper.idMapping, queue', board.calls)
         == HandleItemSpec(ImportState(old(mapper.idMapping), queue, old(board.calls)), item, board.respond)
  {
    var parent: Option<Option<string>> := if item.parent.Some? then Some(item.parent) else None;
    if item.parent.Some? && item.parent.value != "" {
      var mappedParentId := mapper.Get(item.parent.value);
      parent := Some(mappedParentId);
    }
    var request := CreateRequest(item.data, item.geometry, item.position, parent, item.style);
    var created := CreateItem(board, item.itemType, request);
    queue' := queue;
    if created.Success? {
      mapper.Set(item.id, created.value);
      if item.placeholder.Some? {
        queue' := queue' + [item];
      }
    }
  }

  /** `eachLimit(items, …, handleItem)`, the items taken one at a time in list order. */
  method HandleEach(mapper: IdMapper, board: Board, items: seq<TemplateItem>, queue: seq<TemplateItem>)
    returns (queue': seq<TemplateItem>)
    modifies mapper, board
    ensures ImportState(mapper.idMapping, queue', board.calls)
         == HandleAll(ImportState(old(mapper.idMapping), queue, old(board.calls)), items, board.respond)
  {
    queue' := queue;
    for i := 0 to |items|
      invariant ImportState(mapper.idMapping, queue', board.calls)
             == HandleAll(ImportState(old(mapper.idMapping), queue, old(board.calls)), items[..i], board.respond)
    {
      assert items[..i + 1][..i] == items[..i];
      queue' := HandleItem(mapper, board, items[i], queue');
    }
    assert items[..|items|] == items;
  }

  /** `items.filter(item => !item.parent)`. */
  function WithoutParent(items: seq<TemplateItem>): (r: seq<TemplateItem>)
    ensures forall t :: t in r <==> t in items && t.parent.None?
    decreases |items|
  {
    if items == [] then []
    else WithoutParent(items[..|items| - 1]) + (if items[|items| - 1].parent.None? then [items[|items| - 1]] else [])
  }

  /** `items.filter(item => item.parent)`. */
  function WithParent(items: seq<TemplateItem>): (r: seq<TemplateItem>)
    ensures forall t :: t in r <==> t in items && t.parent.Some?
    decreases |items|
  {
    if items == [] then []
    else WithParent(items[..|items| - 1]) + (if items[|items| - 1].parent.Some? then [items[|items| - 1]] else [])
  }

  /** The first pass's filter distributes over concatenation, so it keeps the template's order. */
  lemma {:induction false} WithoutParentAppend(a: seq<TemplateItem>, b: seq<TemplateItem>)
    ensures WithoutParent(a + b) == WithoutParent(a) + WithoutParent(b)
    decreases |b|
  {
    if b == [] {
      assert a + b == a;
    } else {
      var init, last := b[..|b| - 1], b[|b| - 1];
      var kept := if last.parent.None? then [last] else [];
      WithoutParentAppend(a, init);
      calc {
        WithoutParent(a + b);
        { assert (a + b)[..|a + b| - 1] == a + init && (a + b)[|a + b| - 1] == last; }
        WithoutParent(a + init) + kept;
        WithoutParent(a) + WithoutParent(init) + kept;
        WithoutParent(a) + (WithoutParent(init) + kept);
        WithoutParent(a) + WithoutParent(b);
      }
    }
  }

  /** The second pass's filter distributes over concatenation, so it keeps the template's order. */
  lemma {:induction false} WithParentAppend(a: seq<TemplateItem>, b: seq<TemplateItem>)
    ensures WithParent(a + b) == WithParent(a) + WithParent(b)
    decreases |b|
  {
    if b == [] {
      assert a + b == a;
    } else {
      var init, last := b[..|b| - 1], b[|b| - 1];
      var kept := if last.parent.Some? then [last] else [];
      WithParentAppend(a, init);
      calc {
        WithParent(a + b);
        { assert (a + b)[..|a + b| - 1] == a + init && (a + b)[|a + b| - 1] == last; }
        WithParent(a + init) + kept;
        WithParent(a) + WithParent(init) + kept;
        WithParent(a) + (WithParent(init) + kept);
        WithParent(a) + WithParent(b);
      }
    }
  }

  /** The two passes together handle every item exactly once. */
  lemma {:induction false} PassesPartition(items: seq<TemplateItem>)
    ensures multiset(WithoutParent(items)) + multiset(WithParent(items)) == multiset(items)
    decreases |items|
  {
    if items != [] {
      var init := items[..|items| - 1];
      PassesPartition(init);
      assert items == init + [items[|items| - 1]];
    }
  }

  /** Running the two passes is handling their concatenation. */
  lemma {:induction false} HandleAllAppend(s: ImportState, a: seq<TemplateItem>, b: seq<TemplateItem>,
                                           respond: (nat, BoardCall) -> Option<string>)
    ensures HandleAll(HandleAll(s, a, respond), b, respond) == HandleAll(s, a + b, respond)
    decreases |b|
  {
    if b == [] {
      assert a + b == a;
    } else {
      var init := b[..|b| - 1];
      HandleAllAppend(s, a, init, respond);
      assert (a + b)[..|a + b| - 1] == a + init;
    }
  }

  /** The item kinds of the create requests sent, in order. */
  function ItemCallKinds(calls: seq<BoardCall>): seq<string>
    decreases |calls|
  {
    if calls == [] then []
    else
      var last := calls[|calls| - 1];
      ItemCallKinds(calls[..|calls| - 1]) + (if last.ItemCall? then [last.kind] else [])
  }

  /** The kinds of the items that have a create endpoint, in order. */
  function SupportedKinds(items: seq<TemplateItem>): seq<string>
    decreases |items|
  {
    if items == [] then []
    else
      var last := items[|items| - 1];
      SupportedKinds(items[..|items| - 1]) + (if last.itemType in ItemTypes then [last.itemType] else [])
  }

  lemma ItemCallKindsAppend(calls: seq<BoardCall>, more: seq<BoardCall>)
    requires |more| <= 1
    ensures ItemCallKinds(calls + more) == ItemCallKinds(calls) + ItemCallKinds(more)
  {
    if more != [] {
      assert (calls + more)[..|calls + more| - 1] == calls;
      assert more[..0] == [];
    } else {
      assert calls + more == calls;
    }
  }

  /**
   * Items are sent in list order: one create request per item of a supported
   * kind, none for the others, so the stacking order of the board follows the
   * order of the template.
   */
  lemma {:induction false} RequestsFollowItems(s: ImportState, items: seq<TemplateItem>,
                                               respond: (nat, BoardCall) -> Option<string>)
    ensures ItemCallKinds(HandleAll(s, items, respond).calls) == ItemCallKinds(s.calls) + SupportedKinds(items)
    decreases |items|
  {
    if items != [] {
      var init := items[..|items| - 1];
      var item := items[|items| - 1];
      RequestsFollowItems(s, init, respond);
      var s1 := HandleAll(s, init, respond);
      var request := ToCreateRequest(item, s1.mapping);
      var more := if item.itemType in ItemTypes then [ItemCall(item.itemType, request)] else [];
      assert HandleAll(s, items, respond).calls == s1.calls + more;
      ItemCallKindsAppend(s1.calls, more);
      if more != [] {
        assert more[..0] == [];
        assert ItemCallKinds(more) == [item.itemType];
      }
    }
  }

  /** Every queued placeholder frame has a placeholder and a recorded board id. */
  ghost predicate QueueResolved(s: ImportState)
  {
    forall t :: t in s.queue ==> t.placeholder.Some? && t.id in s.mapping
  }

  /** The mapper never forgets a template id, and queued frames stay resolvable. */
  lemma {:induction false} HandleAllKeeps(s: ImportState, items: seq<TemplateItem>,
                                          respond: (nat, BoardCall) -> Option<string>)
    requires QueueResolved(s)
    ensures s.mapping.Keys <= HandleAll(s, items, respond).mapping.Keys
    ensures QueueResolved(HandleAll(s, items, respond))
    ensures forall t :: t in HandleAll(s, items, respond).queue ==> t in s.queue || t in items
    decreases |items|
  {
    if items != [] {
      var init := items[..|items| - 1];
      HandleAllKeeps(s, init, respond);
      var s1 := HandleAll(s, init, respond);
      var s2 := HandleItemSpec(s1, items[|items| - 1], respond);
      assert forall t :: t in init ==> t in items;
      assert forall t :: t in s1.queue ==> t in s2.queue;
    }
  }

  // ---------------------------------------------------------------------
  // Filling the placeholders
  // ---------------------------------------------------------------------

  /** `{textAlign: 'center', textAlignVertical: 'middle', ...placeholder?.style}`. */
  function StickyStyle(placeholder: Option<Placeholder>): (r: Style)
    ensures placeholder.Some? && placeholder.value.style.Some? ==>
      forall k :: k in placeholder.value.style.value ==> k in r && r[k] == placeholder.value.style.value[k]
    ensures "textAlign" in r && "textAlignVertical" in r
    ensures (placeholder.None? || placeholder.value.style.None? || "textAlign" !in placeholder.value.style.value)
      ==> r["textAlign"] == "center"
    ensures (placeholder.None? || placeholder.value.style.None? || "textAlignVertical" !in placeholder.value.style.value)
      ==> r["textAlignVertical"] == "middle"
    ensures r.Keys == {"textAlign", "textAlignVertical"}
      + (if placeholder.Some? && placeholder.value.style.Some? then placeholder.value.style.value.Keys else {})
  {
    var defaults := map["textAlign" := "center", "textAlignVertical" := "middle"];
    if placeholder.Some? && placeholder.value.style.Some? then defaults + placeholder.value.style.value else defaults
  }

  /** A frame that can hold stickies: a geometry with a non-zero width and a non-zero height. */
  predicate HasArea(item: TemplateItem)
  {
    item.geometry.Some? && NonZero(item.geometry.value.width) && NonZero(item.geometry.value.height)
  }

  /** The layout request for `n` stickies in `item`'s area. */
  function AreaParams(item: TemplateItem, n: nat): LayoutParams
    requires HasArea(item)
  {
    LayoutParams(item.geometry.value.width.value, item.geometry.value.height.value,
                 MaxStickySizePx, n, StickySeparationPx)
  }

  /** The error thrown for a placeholder frame without usable dimensions. */
  const NoGeometryError := "Can't place stickies in area without geometry"

  /** The requests built from a layout's size and positions. */
  function StickyRequestsAt(parentId: Option<string>, item: TemplateItem, datas: seq<string>,
                            size: int, positions: seq<Position>): (r: seq<StickyRequest>)
    ensures |r| == |datas|
  {
    seq(|datas|, i requires 0 <= i < |datas| =>
      StickyRequest(datas[i], StickyStyle(item.placeholder), size, parentId,
                    if i < |positions| then Some(positions[i]) else None))
  }

  /**
   * `toStickyNoteRequests`: the layout for the frame's area, then one request
   * per datum; an error without an area.
   */
  function StickyNoteRequests(parentId: Option<string>, item: TemplateItem, datas: seq<string>): (r: Result<seq<StickyRequest>>)
    ensures r.Failure? <==> !HasArea(item)
    ensures r.Failure? ==> r.error == NoGeometryError
  {
    if !HasArea(item) then Failure(NoGeometryError)
    else
      var p := AreaParams(item, |datas|);
      var l := LayoutOf(p);
      Success(StickyRequestsAt(parentId, item, datas, l.stickySize, PositionsOf(p, l)))
  }

  /**
   * With an area, the `i`-th request carries the `i`-th datum as content,
   * the placeholder style over the defaults, the layout's sticky size, the
   * frame as parent and the layout's `i`-th position.
   */
  lemma StickyRequestsDescribed(parentId: Option<string>, item: TemplateItem, datas: seq<string>)
    requires HasArea(item)
    ensures var r := StickyNoteRequests(parentId, item, datas);
      && r.Success? && |r.value| == |datas|
      && var p := AreaParams(item, |datas|);
         var positions := PositionsOf(p, LayoutOf(p));
         forall i :: 0 <= i < |datas| ==>
           && r.value[i].content == datas[i] && r.value[i].parent == parentId
           && r.value[i].style == StickyStyle(item.placeholder)
           && r.value[i].width == LayoutOf(p).stickySize
           && r.value[i].position == (if i < |positions| then Some(positions[i]) else None)
  {
  }

  /** Position of a sticky inside its frame's area; the frame's own width and height bound it. */
  ghost predicate InsideFrame(item: TemplateItem, size: int, pos: Position)
    requires HasArea(item)
  {
    InsideArea(AreaParams(item, 0), size, pos)
  }

  /**
   * When the layout finds a positive size, every sticky gets a position and
   * every sticky lies wholly inside the frame.
   */
  lemma StickiesInsideFrame(parentId: Option<string>, item: TemplateItem, datas: seq<string>)
    requires HasArea(item)
    requires LayoutOf(AreaParams(item, |datas|)).stickySize > 0
    ensures var r := StickyNoteRequests(parentId, item, datas);
      r.Success? && forall i :: 0 <= i < |datas| ==>
        r.value[i].position.Some?
        && InsideFrame(item, r.value[i].width, r.value[i].position.value)
  {
    var p := AreaParams(item, |datas|);
    var l := LayoutOf(p);
    var ps := PositionsOf(p, l);
    LayoutHoldsAll(p);
    PositionsInsideArea(p);
    StickyRequestsDescribed(parentId, item, datas);
    var r := StickyNoteRequests(parentId, item, datas);
    forall i | 0 <= i < |datas|
      ensures r.value[i].position.Some? && InsideFrame(item, r.value[i].width, r.value[i].position.value)
    {
      assert ps[i] in ps;
      assert r.value[i].position == Some(ps[i]);
    }
  }

  /** `toStickyNoteRequests` as it runs: the layout engine's method, then one request per datum. */
  method ToStickyNoteRequests(parentId: Option<string>, item: TemplateItem, datas: seq<string>)
    returns (r: Result<seq<StickyRequest>>)
    ensures r == StickyNoteRequests(parentId, item, datas)
  {
    if !HasArea(item) {
      return Failure(NoGeometryError);
    }
    var stickySize, positions := GetStickyPositions(AreaParams(item, |datas|));
    r := Success(StickyRequestsAt(parentId, item, datas, stickySize, positions));
  }

  /** The requests sent for a list of stickies, in order. */
  function StickyCalls(requests: seq<StickyRequest>): (r: seq<BoardCall>)
    ensures |r| == |requests| && forall i :: 0 <= i < |r| ==> r[i] == StickyCall(requests[i])
  {
    seq(|requests|, i requires 0 <= i < |requests| => StickyCall(requests[i]))
  }

  /** `getPlaceholderData({query, limit})`, reduced to the contents it returns. */
  type PlaceholderSource = (string, int) -> seq<string>

  /** The stickies for one queued frame: its data fetched, its board id looked up, the requests built. */
  function FrameRequests(mapping: map<string, string>, item: TemplateItem, getData: PlaceholderSource)
    : Result<seq<StickyRequest>>
    requires item.placeholder.Some?
  {
    StickyNoteRequests(Lookup(mapping, item.id), item,
                       getData(item.placeholder.value.query, item.placeholder.value.limit))
  }

  /** Every queued item carries a placeholder. */
  predicate AllPlaceholders(queue: seq<TemplateItem>)
  {
    forall t :: t in queue ==> t.placeholder.Some?
  }

  /** The request lists of the queued frames, each built as the fill loop builds it. */
  function FrameResults(mapping: map<string, string>, queue: seq<TemplateItem>, getData: PlaceholderSource)
    : (r: seq<Result<seq<StickyRequest>>>)
    requires AllPlaceholders(queue)
    ensures |r| == |queue|
  {
    seq(|queue|, i requires 0 <= i < |queue| => assert queue[i] in queue; FrameRequests(mapping, queue[i], getData))
  }

  /** The `i`-th entry is built from the `i`-th queued frame. */
  lemma FrameResultsAt(mapping: map<string, string>, queue: seq<TemplateItem>, getData: PlaceholderSource, i: nat)
    requires AllPlaceholders(queue) && i < |queue|
    ensures queue[i].placeholder.Some?
    ensures FrameResults(mapping, queue, getData)[i] == FrameRequests(mapping, queue[i], getData)
  {
    assert queue[i] in queue;
  }

  /**
   * The fill pass over the first `n` frames' request lists, in queue order:
   * each list is sent (its failures ignored); the first frame whose requests
   * could not be built ends the pass with its error.
   */
  function FillSpec(results: seq<Result<seq<StickyRequest>>>, n: nat): (Option<string>, seq<BoardCall>)
    requires n <= |results|
    decreases n
  {
    if n == 0 then (None, [])
    else
      var before := FillSpec(results, n - 1);
      if before.0.Some? then before
      else if results[n - 1].Failure? then (Some(results[n - 1].error), before.1)
      else (None, before.1 + StickyCalls(results[n - 1].value))
  }

  /** The fill pass fails exactly when some frame's requests fail, and then with that frame's error. */
  lemma {:induction false} FillFailsIffSomeFails(results: seq<Result<seq<StickyRequest>>>, n: nat)
    requires n <= |results|
    ensures FillSpec(results, n).0.Some? <==> exists i :: 0 <= i < n && results[i].Failure?
    ensures FillSpec(results, n).0.Some? ==> exists i :: 0 <= i < n && results[i].Failure? && FillSpec(results, n).0 == Some(results[i].error)
    decreases n
  {
    if n > 0 {
      FillFailsIffSomeFails(results, n - 1);
    }
  }

  /** The fill pass of an import fails exactly when some queued frame has no area, and then with the geometry error. */
  lemma FillFailsIffNoArea(mapping: map<string, string>, queue: seq<TemplateItem>, getData: PlaceholderSource)
    requires AllPlaceholders(queue)
    ensures var r := FillSpec(FrameResults(mapping, queue, getData), |queue|).0;
      && (r.Some? <==> exists i :: 0 <= i < |queue| && !HasArea(queue[i]))
      && (r.Some? ==> r == Some(NoGeometryError))
  {
    var results := FrameResults(mapping, queue, getData);
    FillFailsIffSomeFails(results, |queue|);
    forall i | 0 <= i < |queue|
      ensures results[i].Failure? <==> !HasArea(queue[i])
      ensures results[i].Failure? ==> results[i].error == NoGeometryError
    {
      FrameResultsAt(mapping, queue, getData, i);
    }
  }

  /** A frame whose requests were built, reached while the pass still runs, appends its stickies. */
  lemma FillSpecStep(results: seq<Result<seq<StickyRequest>>>, n: nat)
    requires n < |results| && FillSpec(results, n).0.None? && results[n].Success?
    ensures FillSpec(results, n + 1) == (None, FillSpec(results, n).1 + StickyCalls(results[n].value))
  {
  }

  /** A frame whose requests could not be built, reached while the pass still runs, ends it with that error. */
  lemma FillSpecFailStep(results: seq<Result<seq<StickyRequest>>>, n: nat)
    requires n < |results| && FillSpec(results, n).0.None? && results[n].Failure?
    ensures FillSpec(results, n + 1) == (Some(results[n].error), FillSpec(results, n).1)
  {
  }

  /** Once the fill pass has failed, later frames send nothing. */
  lemma {:induction false} FillSpecStopsAtFailure(results: seq<Result<seq<StickyRequest>>>, i: nat, n: nat)
    requires i <= n <= |results|
    requires FillSpec(results, i).0.Some?
    ensures FillSpec(results, n) == FillSpec(results, i)
    decreases n
  {
    if n > i {
      FillSpecStopsAtFailure(results, i, n - 1);
    }
  }

  /** `eachLimit(requests, …, createStickyNoteItem)`, one request at a time, failures ignored. */
  method SendStickies(board: Board, requests: seq<StickyRequest>)
    modifies board
    ensures board.calls == old(board.calls) + StickyCalls(requests)
  {
    for j := 0 to |requests|
      invariant board.calls == old(board.calls) + StickyCalls(requests[..j])
    {
      assert StickyCalls(requests[..j + 1]) == StickyCalls(requests[..j]) + [StickyCall(requests[j])];
      var _ := board.Send(StickyCall(requests[j]));
    }
    assert requests[..|requests|] == requests;
  }

  /** The body of the fill loop up to the requests, for the `i`-th queued frame, against the mapper. */
  method LoadQueuedFrame(mapper: IdMapper, queue: seq<TemplateItem>, i: nat, getData: PlaceholderSource)
    returns (requests: Result<seq<StickyRequest>>)
    requires AllPlaceholders(queue) && i < |queue|
    ensures requests == FrameResults(mapper.idMapping, queue, getData)[i]
  {
    FrameResultsAt(mapper.idMapping, queue, getData, i);
    var item := queue[i];
    var datas := getData(item.placeholder.value.query, item.placeholder.value.limit);
    var itemMiroId := mapper.Get(item.id);
    requests := ToStickyNoteRequests(itemMiroId, item, datas);
  }

  /**
   * One iteration of the fill loop: the `i`-th frame's requests are built
   * and, when that succeeds, sent; a failure to build them is returned.
   */
  method FillFrame(mapper: IdMapper, board: Board, queue: seq<TemplateItem>, i: nat, getData: PlaceholderSource)
    returns (failure: Option<string>)
    requires AllPlaceholders(queue) && i < |queue|
    modifies board
    ensures var r := FrameResults(mapper.idMapping, queue, getData)[i];
      && failure == (if r.Failure? then Some(r.error) else None)
      && (r.Failure? ==> board.calls == old(board.calls))
      && (r.Success? ==> board.calls == old(board.calls) + StickyCalls(r.value))
  {
    var requests := LoadQueuedFrame(mapper, queue, i, getData);
    if requests.Failure? {
      return Some(requests.error);
    }
    SendStickies(board, requests.value);
    failure := None;
  }

  /** The fill pass as it runs: queue order, then request order within a frame. */
  method FillPlaceholders(mapper: IdMapper, board: Board, queue: seq<TemplateItem>, getData: PlaceholderSource)
    returns (failure: Option<string>)
    requires AllPlaceholders(queue)
    modifies board
    ensures var results := FrameResults(mapper.idMapping, queue, getData);
      (failure, board.calls) == (FillSpec(results, |queue|).0, old(board.calls) + FillSpec(results, |queue|).1)
  {
    ghost var results := FrameResults(mapper.idMapping, queue, getData);
    for i := 0 to |queue|
      invariant FillSpec(results, i).0.None?
      invariant board.calls == old(board.calls) + FillSpec(results, i).1
    {
      var frameFailure := FillFrame(mapper, board, queue, i, getData);
      assert frameFailure == (if results[i].Failure? then Some(results[i].error) else None);
      if frameFailure.Some? {
        FillSpecFailStep(results, i);
        FillSpecStopsAtFailure(results, i + 1, |queue|);
        return frameFailure;
      }
      FillSpecStep(results, i);
      AppendAssociates(old(board.calls), FillSpec(results, i).1, StickyCalls(results[i].value));
    }
    failure := None;
  }

  // ---------------------------------------------------------------------
  // The whole import
  // ---------------------------------------------------------------------

  /** The state after both creation passes: parentless items first, then the others. */
  function CreationSpec(mapping: map<string, string>, items: seq<TemplateItem>,
                        respond: (nat, BoardCall) -> Option<string>): ImportState
  {
    HandleAll(HandleAll(ImportState(mapping, [], []), WithoutParent(items), respond), WithParent(items), respond)
  }

  /** Queued frames all carry placeholders and recorded board ids, and come from the template. */
  lemma CreationQueueResolved(mapping: map<string, string>, items: seq<TemplateItem>,
                              respond: (nat, BoardCall) -> Option<string>)
    ensures QueueResolved(CreationSpec(mapping, items, respond))
    ensures forall t :: t in CreationSpec(mapping, items, respond).queue ==> t in items
    ensures ItemCallKinds(CreationSpec(mapping, items, respond).calls)
         == SupportedKinds(WithoutParent(items) + WithParent(items))
  {
    var s0 := ImportState(mapping, [], []);
    HandleAllKeeps(s0, WithoutParent(items), respond);
    var s1 := HandleAll(s0, WithoutParent(items), respond);
    HandleAllKeeps(s1, WithParent(items), respond);
    HandleAllAppend(s0, WithoutParent(items), WithParent(items), respond);
    RequestsFollowItems(s0, WithoutParent(items) + WithParent(items), respond);
  }

  /**
   * `createBoardFromTemplate` with the shared id mapper, the ids the board
   * service assigns to the new board, its response function and the
   * placeholder data source as parameters.
   */
  method CreateBoardFromTemplate(mapper: IdMapper, template: Template, boardId: string, viewLink: Option<string>,
                                 respond: (nat, BoardCall) -> Option<string>, getData: PlaceholderSource)
    returns (response: Result<CreateBoardResponse>, board: Board)
    modifies mapper
    ensures fresh(board) && board.id == boardId && board.name == BoardName(template.name)
    ensures var s := CreationSpec(old(mapper.idMapping), template.items, respond);
      && mapper.idMapping == s.mapping
      && QueueResolved(s)
      && var (failure, stickies) := FillSpec(FrameResults(s.mapping, s.queue, getData), |s.queue|);
      && board.calls == s.calls + stickies
      && response == (if failure.Some? then Failure(failure.value) else Success(CreateBoardResponse(boardId, viewLink)))
  {
    board := new Board(boardId, viewLink, BoardName(template.name), respond);
    var itemsWithPlaceholder: seq<TemplateItem> := [];
    var itemsWithoutParents := WithoutParent(template.items);
    var itemsWithParent := WithParent(template.items);
    itemsWithPlaceholder := HandleEach(mapper, board, itemsWithoutParents, itemsWithPlaceholder);
    itemsWithPlaceholder := HandleEach(mapper, board, itemsWithParent, itemsWithPlaceholder);
    CreationQueueResolved(old(mapper.idMapping), template.items, respond);
    var failure := FillPlaceholders(mapper, board, itemsWithPlaceholder, getData);
    if failure.Some? {
      return Failure(failure.value), board;
    }
    response := Success(CreateBoardResponse(board.id, board.viewLink));
  }
}
