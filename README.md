# miro-templating in Dafny

This project models the template pipeline of `miro-templating`:

- **Export.** A live Miro board is turned into a template. Board ids are replaced by synthetic `{{ID:n}}` ids, and placeholder frames give up the JSON hidden in their titles. Three normalisations make each item acceptable to the create endpoints again.
- **Import.** A template is replayed into a new board in two passes: first the items without a parent, then those with one. Parent ids are translated through an id mapper. Every created placeholder frame is then filled with sticky notes, laid out by the sticky-area layout engine.
- **Text substitution.** `${KEY}` markers in a text are replaced from a payload.

The project has one module per file:

| file | module | models |
|---|---|---|
| `wrappers.dfy` | `Wrappers` | `Option`, `Result`, `Min` |
| `strings.dfy` | `Strings` | literal search and global replacement on strings, first/last index of a character, decimal printing |
| `template_types.dfy` | `TemplateTypes` | `Template`, `TemplateItem`, `Placeholder` and JavaScript truthiness |
| `sticky_layout.dfy` | `StickyLayout` | the first-fit grid search and the centred row-major positions |
| `id_mapping.dfy` | `IdMapping` | the memoising id generator and the id mapper, as classes |
| `placeholders.dfy` | `Placeholders` | `replacePlaceholders` as a left fold over the payload |
| `template_export.dfy` | `TemplateExport` | the fix-ups, placeholder extraction and the export loop |
| `template_import.dfy` | `TemplateImport` | request building, the two creation passes, sticky generation and the fill pass |

Each piece follows the form of its source.

- **Loops.** Loops become methods with loop invariants, and each method is proved equal to a specification function. This covers:
  - the layout search and the position emission;
  - the export loop;
  - the two creation passes;
  - the fill loop.
- **Mutable state.** The id generator, the id mapper and the created board are classes whose methods update their fields.
- **Pure code.** The item fix-ups, placeholder extraction, request building and text substitution are functions.
- **Abstract parameters.** The remote service and the other things the model cannot see are parameters:
  - the board listing is an input sequence;
  - `loadDetails` is a function from board item to details;
  - `JSON.parse` is a partial function returning `Option<Placeholder>`;
  - the created board answers each request through a response function of the request's index and content;
  - `getPlaceholderData` is a function from query and limit to contents.

## Behaviour notes

The model keeps these behaviours of the code:

- **Layout example.** For a 210 × 210 area with four stickies of at most 100 and separation 5, the stickies are centred at 52.5 and 157.5 on each axis. The grid extent is 205, so the margin is 2.5.
- **Order of export steps.** `extractPlaceholder` runs first, and `fixItem` runs on its result.
- **Failed placeholder parse.** A marked frame loses its title and its truthy fill colour even when its JSON does not parse.
- **Unmapped parent.** A parent id that the mapper does not know is sent as `{id: undefined}`. The request is not skipped.
- **Mapper updates.** `set` overwrites an earlier entry; the mapper is not write-once.
- **Missing geometry.** In the fill pass, a placeholder frame without a non-zero width and height throws outside any `try`. The whole import then fails, with the stickies of earlier frames already sent.
- **Shared state.** The generator and the mapper are module-level singletons. The model passes them in as objects, so their state carries over from one export or import to the next.

## Model

| member | source | states |
|---|---|---|
| `StickyLayout.SeparationOffset` | src/miro/sticky-layout.ts:6-8 | definition: `separation * (ceil(N / 2) - 1)`; `StartSize` states how it shrinks both dimensions |
| `StickyLayout.CenterMargin` | src/miro/sticky-layout.ts:17-22 | definition: half of what the grid leaves free; `CoordinateWithin` states the bound it gives |
| `StickyLayout.Coordinate` | src/miro/sticky-layout.ts:24-31 | definition: margin, plus `index` steps of size and separation, plus half a size; `CoordinateWithin` states that it stays inside the area |
| `StickyLayout.CeilDiv` | src/miro/sticky-layout.ts:53 | `ceil(a / b)` is the least `r` with `r * b >= a` |
| `StickyLayout.StartSize` | src/miro/sticky-layout.ts:36-49 | the start size is the minimum of the maximum size and both dimensions shrunk by `separation * (ceil(N/2) - 1)`: below or equal to each, and equal to one |
| `StickyLayout.RowSearch` | src/miro/sticky-layout.ts:52-60 | the inner loop returns the first row count in `rows..N` whose grid fits, or none when no row count fits |
| `StickyLayout.SizeSearch` | src/miro/sticky-layout.ts:51-62 | the outer loop's result is first-fit from the start size: no larger size fits any row count, and at the chosen size no smaller row count fits; `cols = ceil(N / rows)`, both fit inequalities hold, and nothing fitting gives `(0, 0, 0)` |
| `StickyLayout.LayoutOf` | src/miro/sticky-layout.ts:33-63 | `calculateLayout`'s result is the first fit from `StartSize` |
| `StickyLayout.FirstFitUnique` | src/miro/sticky-layout.ts:51-62 | the first-fit conditions determine the layout uniquely |
| `StickyLayout.CalculateLayout` | src/miro/sticky-layout.ts:33-63 | the nested loops with early return compute the first-fit layout, equal to `LayoutOf` |
| `StickyLayout.PositionsOf` | src/miro/sticky-layout.ts:82-105 | `min(N, rows * cols)` positions are emitted (none when `cols` is 0) |
| `StickyLayout.CellPosition` | src/miro/sticky-layout.ts:82-99 | the `i`-th position is in column `i mod cols` and row `i div cols`, at `margin + index * (size + sep) + size / 2` on each axis |
| `StickyLayout.CalculatePositions` | src/miro/sticky-layout.ts:65-106 | the nested loops with their two `break`s emit exactly the row-major grid cells of `PositionsOf` |
| `StickyLayout.GetStickyPositions` | src/miro/sticky-layout.ts:119-127 | returns the first-fit sticky size and its positions |
| `StickyLayout.LayoutHoldsAll` | src/miro/sticky-layout.ts:53-58 | with a positive size, `rows * cols >= N` and exactly `N` positions are emitted |
| `StickyLayout.DegenerateLayout` | src/miro/sticky-layout.ts:51-62 | with no stickies or a non-positive start size the layout is `(0, 0, 0)` with no positions, and nothing fails |
| `StickyLayout.CoordinateWithin` | src/miro/sticky-layout.ts:17-31 | under the fit condition a centre lies within `[size/2, total - size/2]` |
| `StickyLayout.PositionsInsideArea` | src/miro/sticky-layout.ts:72-99 | with a non-negative separation every emitted centre lies within `[size/2, area - size/2]` on both axes |
| `StickyLayout.FourStickiesExample` | src/miro/sticky-layout.ts:119-126 | area 210 × 210, maximum 100, separation 5, four stickies: size 100 in a 2 × 2 grid at (52.5, 52.5), (157.5, 52.5), (52.5, 157.5), (157.5, 157.5) |
| `Strings.DecimalStringInjective` | src/utils/id-mapping.ts:14 | different counter values print differently |
| `IdMapping.TemplateIdInjective` | src/utils/id-mapping.ts:14 | different counter values give different `{{ID:n}}` ids |
| `IdMapping.MapId` | src/utils/id-mapping.ts:11-18 | definition of one `map` call on the generator's memo map and counter; `MapIdStep` states its effect |
| `IdMapping.MapIds` | src/utils/id-mapping.ts:5-20 | `map` called on each id in turn from a given state: one result per id; `MapIdsNumbered` and `MapIdsFirstEncounter` state the results |
| `IdMapping.MapIdStep` | src/utils/id-mapping.ts:11-18 | one call to `map`: a seen id gets its stored value and nothing changes; a new id gets `{{ID:nextId}}`, the counter advances by one and the map only gains that entry; values stay distinct and below the counter |
| `IdMapping.FirstEncounters` | src/utils/id-mapping.ts:11-18 | the distinct ids of a sequence in first-encounter order |
| `IdMapping.MapIdsNumbered` | src/utils/id-mapping.ts:5-20 | after mapping a sequence on a fresh generator, the counter equals the number of distinct ids and the `j`-th distinct id holds `{{ID:j}}` |
| `IdMapping.MapIdsFirstEncounter` | src/utils/id-mapping.ts:5-20 | on a fresh generator the `i`-th result is `{{ID:j}}`, where `j` is the first-encounter rank of the `i`-th id |
| `IdMapping.MapIdsInjective` | src/utils/id-mapping.ts:8-17 | two results are equal exactly when the two board ids are equal |
| `IdMapping.GeneratorExample` | src/utils/__tests__/id-mapping.spec.ts:5-15 | `id-1`, `id-2`, `id-1` map to `{{ID:0}}`, `{{ID:1}}`, `{{ID:0}}` |
| `IdMapping.IdGenerator.Map` | src/utils/id-mapping.ts:11-18 | the method updates the generator object as `MapId` does and keeps the invariant |
| `IdMapping.IdMapper.Set` | src/utils/id-mapping.ts:27-29 | records `templateId -> miroId`, overwriting, with every other key unchanged |
| `IdMapping.IdMapper.Get` | src/utils/id-mapping.ts:30-32 | returns the recorded id, and `undefined` for a key never set |
| `Strings.ReplaceAllRemovesEvery` | src/templating/placeholders.ts:12 | after a global replacement by a value that shares no character with the pattern, no occurrence of the pattern is left |
| `Strings.ReplaceAllCreatesNone` | src/templating/placeholders.ts:12 | a global replacement creates no occurrence of a text that shares no character with the value |
| `Strings.ReplaceAllAbsent` | src/templating/placeholders.ts:12 | a text without the pattern is returned unchanged |
| `Strings.ReplaceAll` | src/templating/placeholders.ts:12 | definition of a global literal replacement, scanning left to right without overlaps; `ReplaceAllRemovesEvery`, `ReplaceAllCreatesNone` and `ReplaceAllAbsent` state its effect |
| `Placeholders.ApplyEntry` | src/templating/placeholders.ts:12 | definition of one reduce step: a truthy value replaces every `${KEY}`, a falsy one leaves the text |
| `Placeholders.ApplyEntries` | src/templating/placeholders.ts:11-13 | definition of the reduce over the entries in payload order; `ApplyEntriesAppend`, `FalsyEntriesIgnored` and `EveryMarkerReplaced` state its properties |
| `Placeholders.ReplacePlaceholders` | src/templating/placeholders.ts:5-15 | an `undefined` or empty text is returned unchanged; any other text becomes the result of applying the payload's entries to it in order (`ApplyEntries`, whose laws are the lemmas below) |
| `Placeholders.ApplyEntriesAppend` | src/templating/placeholders.ts:11-13 | the reduce is a left fold: applying `a + b` is applying `a`, then `b` to its result |
| `Placeholders.FalsyEntriesIgnored` | src/templating/placeholders.ts:12 | entries with an `undefined` or empty value have no effect |
| `Placeholders.TruthyEntries` | src/templating/placeholders.ts:12 | an entry is kept exactly when it is an entry with a truthy value |
| `Placeholders.TruthyEntriesAppend` | src/templating/placeholders.ts:11-13 | the truthy entries of `a + b` are those of `a` followed by those of `b`, so payload order is kept |
| `Placeholders.NoMarkersUnchanged` | src/templating/placeholders.ts:11-14 | a text containing no `${KEY}` for any key is returned unchanged |
| `Placeholders.AbsentStaysAbsent` | src/templating/placeholders.ts:11-14 | substitution creates no occurrence of a text that no value shares a character with |
| `Placeholders.EveryMarkerReplaced` | src/templating/placeholders.ts:11-14 | when no value shares a character with any marker, no `${KEY}` of a truthy entry is left |
| `Placeholders.GreetingExample` | test/templating/placeholders.spec.ts:12 | `'Hi ${USER}'` with `{USER: 'Joe'}` gives `'Hi Joe'` |
| `TemplateExport.LoadDetails` | src/miro/create-template-from-board.ts:79-112 | details exist exactly for the nine supported kinds and are then the fetched ones |
| `TemplateExport.FixInvalidFrameType` | src/miro/create-template-from-board.ts:37-46 | no frame is left with type `'unknown'`: such a frame loses its `data.type` key; only `data.type` can change and only for such a frame |
| `TemplateExport.FixInvalidColor` | src/miro/create-template-from-board.ts:29-35 | no style is left whose truthy `color` equals its `fillColor`: on a clash the `fillColor` key is removed; only `fillColor` can change and only on a clash |
| `TemplateExport.FixRemoveDimensionsFromItemWithFixedAspectRatio` | src/miro/create-template-from-board.ts:15-27 | a square or rectangular sticky note with a non-zero width and height loses its height (it becomes `undefined`); the width is kept and other items are unchanged |
| `TemplateExport.FixItem` | src/miro/create-template-from-board.ts:48-52 | after the three fixes none of the three defects remains; only an unknown frame `type`, a clashing `fillColor` and a fixed-aspect sticky note's height are removed, every other data key, style key and the width are kept, and an item without the defects is returned unchanged |
| `TemplateExport.FixItemIdempotent` | src/miro/create-template-from-board.ts:48-52 | applying `fixItem` a second time changes nothing |
| `TemplateExport.StripNonJson` | src/miro/create-template-from-board.ts:59 | the title is unchanged, or it becomes a span from its first `{` to a `}` with no `}` after it |
| `TemplateExport.StripNonJsonSpan` | src/miro/create-template-from-board.ts:59 | whenever such a span exists, it is the text kept |
| `TemplateExport.DecodeQuotes` | src/miro/create-template-from-board.ts:60 | definition: every `&#34;` becomes `"`; `DecodeQuotesComplete` states the result |
| `TemplateExport.PlaceholderJson` | src/miro/create-template-from-board.ts:59-60 | definition: the strip, then the quote decoding, giving the text `JSON.parse` receives |
| `TemplateExport.DecodeQuotesComplete` | src/miro/create-template-from-board.ts:60 | after decoding, no `&#34;` remains and no other quote-free text appears |
| `TemplateExport.ExtractPlaceholder` | src/miro/create-template-from-board.ts:54-77 | only frames whose title contains `!PLACEHOLDER!` change: their title becomes `''`, a truthy `fillColor` key is removed and any other style is kept, and the placeholder is set exactly when parsing succeeds |
| `TemplateExport.AssembleItem` | src/miro/create-template-from-board.ts:138-148 | the assembled and fixed item keeps the mapped id, kind, position and parent; its data is the board item's except for a marked frame's emptied title and a removed unknown frame `type`; it keeps the geometry's width, and its height unless it is a square or rectangular sticky note with both dimensions; it keeps the fetched style's keys, except that `fillColor` is removed when it is truthy on a marked frame or repeats the colour; its placeholder is the parsed title of a marked frame and absent otherwise; none of the three defects remains |
| `TemplateExport.CreateTemplateFromBoard` | src/miro/create-template-from-board.ts:116-160 | the loop computes `ExportItems` from the generator's prior state; the name is `"TEMPLATE " + templateId` |
| `TemplateExport.Placed` | src/miro/create-template-from-board.ts:130-133 | the items kept are items of the listing with a position |
| `TemplateExport.PlacedKeepsPositioned` | src/miro/create-template-from-board.ts:130-133 | every item of the listing with a position is kept |
| `TemplateExport.PlacedAppend` | src/miro/create-template-from-board.ts:129-133 | the placed items of `a + b` are those of `a` followed by those of `b`, so listing order is kept |
| `TemplateExport.MapParent` | src/miro/create-template-from-board.ts:137-144 | definition: a truthy parent id is mapped through the generator, otherwise none; `MapParentStep` states its effect |
| `TemplateExport.ExportOne` | src/miro/create-template-from-board.ts:135-148 | definition of one loop iteration for a placed item; `ExportOneFaithful` states its effect |
| `TemplateExport.ExportItems` | src/miro/create-template-from-board.ts:129-149 | definition of the loop over the listing, skipping unplaced items; `ExportItemsFaithful` states its result |
| `TemplateExport.MapParentStep` | src/miro/create-template-from-board.ts:137-144 | a parent is mapped exactly when the details name a truthy parent id, and then to that id's mapping |
| `TemplateExport.ExportOneFaithful` | src/miro/create-template-from-board.ts:135-148 | one exported item corresponds to its board item under the grown mapping, in ids, parent and payload |
| `TemplateExport.ExportItemsFaithful` | src/miro/create-template-from-board.ts:128-149 | unplaced items are dropped and each placed item gives one template item, in order, with its mapped id, kind, position, parent and exported payload (data, geometry, style, placeholder); the mapping only grows and its invariant holds |
| `TemplateExport.ExportIdsFaithful` | src/miro/create-template-from-board.ts:139 | two exported items share an id exactly when they come from the same board id |
| `TemplateExport.ParentLinksPreserved` | src/miro/create-template-from-board.ts:144 | when an item's parent is itself exported, the item's parent is that item's synthetic id |
| `TemplateExport.LaterExportReusesIds` | src/miro/create-template-from-board.ts:114 | the shared generator gives a board id the same synthetic id in a later export |
| `TemplateImport.BoardName` | src/miro/create-board-from-template.ts:129-132 | the board name is the first 60 characters of the template name, or all of a shorter name |
| `TemplateImport.Board.Send` | src/miro/create-board-from-template.ts:49-77 | a request is recorded and answered by the board's response function |
| `TemplateImport.ToCreateRequest` | src/miro/create-board-from-template.ts:141-147 | the request carries the item's data, geometry, position and style, without id or placeholder; a non-empty parent id is replaced by its mapping or `undefined` |
| `TemplateImport.CreateOutcome` | src/miro/create-board-from-template.ts:49-77 | exactly the nine kinds reach an endpoint; any other kind fails with `Unsupported item type`; a supported kind succeeds with the id the board returns and otherwise fails as rejected |
| `TemplateImport.CreateItem` | src/miro/create-board-from-template.ts:49-77 | sends one request for a supported kind and none for another, with the outcome of `CreateOutcome` |
| `TemplateImport.HandleItemSpec` | src/miro/create-board-from-template.ts:140-163 | the create request sent is the item's request with its parent rewritten through the mapper, for a supported kind, and nothing otherwise; on success the mapper becomes the old mapper with the item's id set to the created id, and a placeholder item is queued; on failure neither happens |
| `TemplateImport.HandleItem` | src/miro/create-board-from-template.ts:140-163 | the method updates the mapper and the board as `HandleItemSpec` does |
| `TemplateImport.HandleAll` | src/miro/create-board-from-template.ts:167-172 | definition of `handleItem` applied to a list one item after the other; `HandleAllAppend`, `RequestsFollowItems` and `HandleAllKeeps` state its properties |
| `TemplateImport.HandleEach` | src/miro/create-board-from-template.ts:167-172 | one pass handles its items one after the other, as `HandleAll` |
| `TemplateImport.WithoutParent` | src/miro/create-board-from-template.ts:165 | the first pass holds exactly the template items without a parent |
| `TemplateImport.WithParent` | src/miro/create-board-from-template.ts:166 | the second pass holds exactly the template items with a parent |
| `TemplateImport.WithoutParentAppend` | src/miro/create-board-from-template.ts:165 | the parentless items of `a + b` are those of `a` followed by those of `b`, so the first pass keeps template order |
| `TemplateImport.WithParentAppend` | src/miro/create-board-from-template.ts:166 | the items with a parent of `a + b` are those of `a` followed by those of `b`, so the second pass keeps template order |
| `TemplateImport.PassesPartition` | src/miro/create-board-from-template.ts:165-166 | every item falls in exactly one pass: the two passes' multisets add up to the template's |
| `TemplateImport.HandleAllAppend` | src/miro/create-board-from-template.ts:167-172 | the second pass continues from the first, as one pass over their concatenation |
| `TemplateImport.RequestsFollowItems` | src/miro/create-board-from-template.ts:138-172 | create requests are sent in list order, one per item of a supported kind |
| `TemplateImport.HandleAllKeeps` | src/miro/create-board-from-template.ts:150-155 | the mapper never loses a key, and queued items keep a placeholder and a recorded id |
| `TemplateImport.StickyStyle` | src/miro/create-board-from-template.ts:101-105 | sticky style defaults to `textAlign: center` and `textAlignVertical: middle`, placeholder style keys override them, and no other key appears |
| `TemplateImport.StickyNoteRequests` | src/miro/create-board-from-template.ts:84-86 | fails exactly without a non-zero width and height, and then with the geometry error |
| `TemplateImport.StickyRequestsDescribed` | src/miro/create-board-from-template.ts:88-115 | with an area, one request per datum, in order, with its content, the frame as parent, the style, `width = stickySize` and `position = positions[index]` |
| `TemplateImport.StickiesInsideFrame` | src/miro/create-board-from-template.ts:88-113 | with a positive sticky size every sticky gets a position and lies within the frame |
| `TemplateImport.ToStickyNoteRequests` | src/miro/create-board-from-template.ts:79-115 | the method, built on `GetStickyPositions`, returns `StickyNoteRequests` |
| `TemplateImport.StickyCalls` | src/miro/create-board-from-template.ts:186-192 | one sticky request is sent per built request, in order |
| `TemplateImport.FrameResults` | src/miro/create-board-from-template.ts:177-185 | one request list per queued frame |
| `TemplateImport.FrameResultsAt` | src/miro/create-board-from-template.ts:178-185 | the `i`-th request list is built from the `i`-th queued frame's fetched data and its mapped board id |
| `TemplateImport.FillSpec` | src/miro/create-board-from-template.ts:177-195 | definition of the fill pass over the frames' request lists; `FillFailsIffSomeFails`, `FillFailsIffNoArea` and `FillSpecStopsAtFailure` state its properties |
| `TemplateImport.FillFailsIffSomeFails` | src/miro/create-board-from-template.ts:177-195 | the fill pass fails exactly when the requests of some frame could not be built, and then with that frame's error |
| `TemplateImport.FillFailsIffNoArea` | src/miro/create-board-from-template.ts:177-195 | the fill pass fails exactly when some queued frame lacks a non-zero width or height, and then with the geometry error |
| `TemplateImport.FillSpecStopsAtFailure` | src/miro/create-board-from-template.ts:184 | after the uncaught throw, later frames send nothing |
| `TemplateImport.SendStickies` | src/miro/create-board-from-template.ts:186-192 | every request is sent, in order, and failures are ignored |
| `TemplateImport.LoadQueuedFrame` | src/miro/create-board-from-template.ts:178-185 | the requests loaded for the `i`-th queued frame are that frame's entry of `FrameResults` |
| `TemplateImport.FillFrame` | src/miro/create-board-from-template.ts:177-192 | one iteration of the loop: the frame's requests are built and, when that succeeds, all sent; a frame without an area yields its error and sends nothing |
| `TemplateImport.FillPlaceholders` | src/miro/create-board-from-template.ts:176-195 | the loop sends, in queue order, every sticky that `FillSpec` sends and stops with its failure at the first frame without an area |
| `TemplateImport.CreationSpec` | src/miro/create-board-from-template.ts:165-172 | definition: the pass over the parentless items, then the pass over the others; `CreationQueueResolved` states its result |
| `TemplateImport.CreationQueueResolved` | src/miro/create-board-from-template.ts:165-172 | after both passes every queued item has a placeholder and a recorded id and comes from the template; requests follow parentless items first, then the others |
| `TemplateImport.CreateBoardFromTemplate` | src/miro/create-board-from-template.ts:122-203 | names the board, updates the mapper as the two passes do, sends their requests and then the fill pass's, and resolves to the board's id and view link unless the fill pass fails |

## Left out

- **Concurrency.** `eachLimit` runs up to three item creations, and up to ten sticky creations, at once. The model runs them one at a time in list order, which is one schedule the code admits. Interleavings, and a parent created concurrently with its child, are not modelled.
- **Logging.** `console` output, including the sticky count of the fill pass, is not modelled.
- **Remote failures.** `api.getBoard`, `getAllItems`, the detail fetch, `api.createBoard` and `getPlaceholderData` are assumed to succeed. Their rejections propagate unchanged in the code.
- **Create failures.** A failed item or sticky creation is modelled by the board's response function.
- **JSON.parse.** It is an abstract function that returns a placeholder or nothing. Results that are valid JSON but not a placeholder object are not distinguished.
- **Regex corner cases:**
  - the title regex's `.` not matching line breaks (titles are taken to be single-line);
  - keys containing regular-expression metacharacters (keys are taken to be plain identifiers);
  - `$` patterns in replacement values.
- **In-place updates.** The fix-ups and `extractPlaceholder` update the item object in place, and the item's `data` is the listing item's own object. The model works on values. The listing item is not used again after it is copied, so no aliasing is observable.
- **Types:**
  - item `data` and `style` are maps from strings to strings; nested or numeric values are not modelled;
  - geometry widths and heights are integers, so the layout's size loop steps through integers only;
  - `NaN` and other non-integer numbers are not modelled.
- `IdMapping.MapIdsInjective`: the counter is an unbounded integer. In the code `nextId` is a JavaScript number: from 2^53 on `nextId++` no longer changes it, so two board ids would get the same `{{ID:…}}`, and from 10^21 on the template literal prints it in exponent notation. Injectivity is proved for the unbounded counter only, which covers every export of fewer than 2^53 distinct ids.
- `TemplateImport.BoardName`: the name's length is counted in Unicode characters, while `substr(0, 60)` counts UTF-16 code units. A name with characters outside the Basic Multilingual Plane is cut later in the model than in the code, and a cut inside a surrogate pair, which leaves a lone surrogate in the code, cannot be represented.
- `TemplateExport.FixRemoveDimensionsFromItemWithFixedAspectRatio`: item `data` is always present in the model. A sticky note listed without `data` makes the code throw on `data.shape`, so that whole export rejects; the model has no such error path.
- **Other WidgetItem fields.** Fields other than id, type, data, geometry, position, parent, style and placeholder are not modelled. The placeholder's fixed `type: 'sticky_note'` is not modelled either.
- `Placeholders.EveryMarkerReplaced`: proved only when no value shares a character with any marker. Without that condition a value could contain another key's marker, and the later entry would then replace it too.
- **Out of scope.** The HTTP connector, the legacy widget manager, the command-line tools and the markdown helper are not part of this model.
