# Markup labeling extension — verified model

The extension runs inside a Feishu (Lark) Base table. Each record holds a question
sheet as JSON: an image URL and a list of questions. Each question has an optional
answer location `[x1, y1, x2, y2]` in image pixels and a skip flag. The extension
draws the image on a canvas with one red highlight rectangle and one numbered label
per located question. The user picks a question, draws or moves its rectangle, and
the new location goes back into the sheet. The sheet is then written to the record's
`输出json` field together with a status (`标注中` while editing, `已标注` when
confirmed). The user also walks the table's records with previous and next buttons.

The model covers this loop in eight modules:

- `Geometry` holds the two coordinate spaces: image pixels and canvas units anchored at the image element. It also holds the drawing transform `ToCanvas` and the read-back transform `ReadBack`, with its clamping.
- `Scene` holds the sheet, the canvas elements, URL proxying, label texts, the answered-location test and the scene builder.
- `Interaction` covers recolouring and label re-synchronisation after a click in the side list, and the skip-flag toggle.
- `Differ` reads the canvas back into the sheet after a pointer release. It covers both the viewing-mode loop (a method proved against `ApplyMoves`/`AnyMoved`) and the adoption of a freshly drawn rectangle.
- `Canvas.Annotator` is a class holding the editor component's state: scene, drawing mode, tool, selection and the last image URL. It has the component's three handlers.
- `App.RowNavigator` is a class holding the navigator's state: shown sheets, field data, record ids, position and table. It covers selection events, previous/next and write-back.
- `HostData.GetStructuredData` resolves a cell request into a (table, field, record) triple or a failure result.
- `Common` holds `Option`, `find` and `filter`.

All host calls are parameters:

- The record's fields, record-id lists, the current selection and cell values are inputs to the members that use them.
- The image's natural size and its fetched content are inputs too.
- Writes come back as a list.
- JSON decoding and encoding are the navigator's `parse` and `stringify` functions.

Canvas coordinates are `real` (see "## Left out" for what that leaves unmodelled).

## Model

| member | source | states |
|---|---|---|
| Scene.ProxiedUrl | src/components/ExcalidrawComponent.tsx:36-44 | a URL starting with the S3 bucket prefix has that prefix replaced by `/s3-proxy`; any other URL is returned unchanged |
| Scene.ProxiedUrlIdempotent | src/components/ExcalidrawComponent.tsx:36-44 | proxying an already proxied URL changes nothing, so the URL compared with the last loaded one is stable |
| Scene.Decimal | src/components/ExcalidrawComponent.tsx:182 | the numeral in a label text is a non-empty string of decimal digits |
| Scene.DecimalRoundTrip | src/components/ExcalidrawComponent.tsx:182 | the numeral printed for `n` denotes `n`, so label `题目{i+1}` names question i+1 |
| Scene.HasValidAnswerLocation | src/components/ExcalidrawComponent.tsx:28-30 | a question counts as answered exactly when its location has four numbers and not all of them are zero |
| Scene.QuestionElementsSpec | src/components/ExcalidrawComponent.tsx:136-211 | the builder emits, for each question with a non-empty location and for no other, its highlight (red rectangle at the anchor-shifted region) and its label (`题目{i+1}` centred 25 above), in question order, highlight before label |
| Scene.HighlightIff | src/components/ExcalidrawComponent.tsx:137-153 | the built elements contain `highlight-i` exactly when question i has a location, and that rectangle is the region shifted by the image corner |
| Scene.IndexOfId | src/components/ExcalidrawComponent.tsx:91 | finds the first element carrying an id, or reports that no element carries it |
| Scene.Anchor | src/components/ExcalidrawComponent.tsx:91-117 | the anchor is exactly the scene's first `background-image` element if there is one, otherwise a new transparent image element of the image's natural size centred in the app's viewport |
| Scene.BuildSceneShape | src/components/ExcalidrawComponent.tsx:213-214 | the installed scene is the anchor followed by the question elements; an existing background element is kept as it was |
| Scene.ZeroLocationStillDrawn | src/components/ExcalidrawComponent.tsx:28-30 | for any question index i, an all-zero location is reported as unanswered yet still drawn as a red zero-size rectangle `highlight-i` at the image corner |
| Scene.ExistingBackgroundKept | src/components/ExcalidrawComponent.tsx:91 | an existing `background-image` element is reused with its position and size whatever the size of the image now shown, so a new image takes over the old one's place; only its file id, which is not modelled, changes |
| Scene.RebuildIsStable | src/components/ExcalidrawComponent.tsx:91-214 | building again from the scene just built, with any viewport or image size, gives the same scene, because the existing anchor is reused |
| Geometry.ReadBack | src/components/ExcalidrawComponent.tsx:371-374 | a read-back region starts at or after the image's top-left corner and ends within the image's size; its corners are in order exactly when its start lies within the image and the box's extent is non-negative |
| Geometry.RoundTrip | src/components/ExcalidrawComponent.tsx:140-144 | drawing a region lying inside the image and reading it back gives the region again |
| Geometry.ReadBackInside | src/components/ExcalidrawComponent.tsx:389-392 | a box lying inside the image reads back as its offset from the image corner, unclamped |
| Geometry.ReadBackStable | src/components/ExcalidrawComponent.tsx:389-392 | a box with non-negative extent whose start is not past the image's right or bottom edge reads back into a region lying in the image, and drawing and reading it again gives the same region |
| Geometry.ReadBackIdempotent | src/components/ExcalidrawComponent.tsx:389-392 | for every box, including one dragged past the image's edge or with corners out of order, drawing the read-back region and reading it again gives the same region |
| Interaction.Recolour | src/components/ExcalidrawComponent.tsx:309-318 | picking question i paints `highlight-i` and `text-i` blue and every other highlight and label red; ids, kinds, boxes and texts are kept and other elements are untouched |
| Interaction.ResyncLabels | src/components/ExcalidrawComponent.tsx:321-334 | each label whose highlight exists moves to the point centred above the first such highlight and keeps its size; every other element is unchanged |
| Interaction.IndexOfIdSameIds | src/components/ExcalidrawComponent.tsx:324 | scenes with the same ids in the same places find the same element for any id |
| Interaction.ResyncIdempotent | src/components/ExcalidrawComponent.tsx:321-334 | moving the labels twice is the same as moving them once |
| Interaction.ResyncRecolourCommute | src/components/ExcalidrawComponent.tsx:309-334 | recolouring and moving labels commute |
| Interaction.ResyncBuiltScene | src/components/ExcalidrawComponent.tsx:175-179 | in a freshly built scene every label already sits where re-synchronisation would put it |
| Interaction.ToggleFilter | src/components/ExcalidrawComponent.tsx:226-234 | flipping question i's skip flag reports the sheets with only that flag flipped, as an edit (level 1); nothing is reported without a sheet or without question i |
| Interaction.ToggleTwice | src/components/ExcalidrawComponent.tsx:226-234 | toggling the same question twice gives back the original sheets |
| Differ.ApplyMoves | src/components/ExcalidrawComponent.tsx:385-402 | the differ keeps the number of questions and every question's text and skip flag |
| Differ.ReadBackHighlights | src/components/ExcalidrawComponent.tsx:385-402 | the viewing-mode loop throws exactly when some highlight names a question the sheet lacks; otherwise it yields the moved questions and whether anything moved |
| Differ.UntouchedWithoutHighlight | src/components/ExcalidrawComponent.tsx:385-402 | a question without a highlight rectangle keeps its stored location |
| Differ.LastHighlightWins | src/components/ExcalidrawComponent.tsx:396-399 | a question takes the location read from the last rectangle carrying its highlight id |
| Differ.UnchangedWhenNotMoved | src/components/ExcalidrawComponent.tsx:397-407 | when the changed flag stays down, the sheet is exactly the original one |
| Differ.NothingMovesWhenAllMatch | src/components/ExcalidrawComponent.tsx:396-400 | if every highlight reads back as its stored location, nothing changes and nothing is reported |
| Differ.ChangedIffSomeMoved | src/components/ExcalidrawComponent.tsx:396-400 | with one highlight per question, the changed flag is raised exactly when some highlight reads back differently from its stored location |
| Differ.ChangedIffDiffers | src/components/ExcalidrawComponent.tsx:396-407 | with one highlight per question, the changed flag is raised exactly when the new sheet differs from the old one |
| Differ.ViewingIdempotent | src/components/ExcalidrawComponent.tsx:385-402 | with one highlight per question, running the differ again over the same scene, on its own output, leaves the sheet as it is and raises no flag; two rectangles for one question can make the second pass report again |
| Differ.BuiltSceneReadsBack | src/components/ExcalidrawComponent.tsx:136-214 | a freshly built scene whose regions lie in the image reads back as the stored locations, so releasing the pointer without moving anything reports nothing |
| Differ.Adopt | src/components/ExcalidrawComponent.tsx:365-381 | the adopted rectangle goes last with id `highlight-qi` and a blue stroke; every other element whose id differs from the drawn one's is kept, and nothing else is kept |
| Common.FilterAppend | src/components/ExcalidrawComponent.tsx:379 | filtering distributes over concatenation, so `filter` keeps the surviving elements in their original order |
| Common.FilterDropsAt | src/components/ExcalidrawComponent.tsx:379 | filtering a sequence whose only failing element is at position k yields the sequence without that element, the rest in order |
| Common.FilterMembers | src/components/ExcalidrawComponent.tsx:379 | everything `filter` keeps comes from the input, and every input element that passes is kept |
| Differ.AdoptKeepsOrder | src/components/ExcalidrawComponent.tsx:379-380 | when no other element shares the drawn rectangle's id, adoption yields the scene without it, in its original order, followed by the renamed blue rectangle |
| Canvas.Annotator.constructor | src/components/ExcalidrawComponent.tsx:23-34 | the editor starts with an empty scene, in viewing mode with the selection tool, with nothing selected and no image loaded |
| Canvas.Annotator.SetupScene | src/components/ExcalidrawComponent.tsx:81-223 | without a sheet or image size nothing changes; a new image whose content cannot be fetched abandons setup; otherwise the built scene is installed, the last URL recorded and the viewport re-centred exactly when the image changed; an existing background element is reused even for a new image |
| Canvas.Annotator.QuestionClick | src/components/ExcalidrawComponent.tsx:301-350 | the question is selected; with its highlight present, the scene is recoloured, labels are re-synchronised and the highlight is picked; otherwise drawing mode starts for it with the rectangle tool |
| Canvas.Annotator.PointerUp | src/components/ExcalidrawComponent.tsx:353-408 | in drawing mode the first non-highlight rectangle is adopted and its read-back location reported as an edit, and the mode returns to viewing; in viewing mode the moved locations are reported when something moved; a stray question index changes nothing and reports nothing |
| Canvas.FirstAnswerScenario | src/components/ExcalidrawComponent.tsx:353-383 | clicking an unanswered question and drawing a 100 by 50 rectangle at (110, 160) over an image at (10, 10) reports location [100, 150, 200, 200] |
| App.SegmentTextAppend | src/App.tsx:31-36 | the text of a concatenation of segment lists is the concatenation of their texts |
| App.SegmentTextIgnoresOtherKinds | src/App.tsx:33 | segments other than `text` and `url` contribute nothing |
| App.JoinSegments | src/App.tsx:31-36 | the loop builds exactly the text of the segment list |
| App.FirstNamed | src/App.tsx:18-19 | finds the first field with the given name, or reports that none has it |
| App.ChosenValue | src/App.tsx:18-27 | the first `输出json` field's value wins when it is not null; otherwise the first `输入json` field's value when that is not null; there is nothing to parse exactly when neither is non-null |
| App.IndexOf | src/App.tsx:69 | the first position of the id, or -1 exactly when the id is absent |
| App.RecordAt | src/App.tsx:101 | the record id at a position, defined exactly for positions inside the list |
| App.RowNavigator.constructor | src/App.tsx:9-14 | the navigator starts with no sheets, no fields, no ids, position -1 and no table |
| App.RowNavigator.ProcessJsonFields | src/App.tsx:17-45 | the sheets shown are the chosen value's text decoded, or none when there is no value or it does not decode |
| App.RowNavigator.OnRowFields | src/App.tsx:49-83 | a failed event only clears the field data; otherwise a new table refreshes the id list, a record id sets the position to its index, and the fields are loaded; the position is within [-1, length-1] afterwards when a record id came with a non-empty list, and it stays in range when it was in range and the list did not change |
| App.RowNavigator.Previous | src/App.tsx:132-155 | with a previous record whose fields are read, the position moves back one and its sheet is loaded; otherwise nothing changes; the list, table and position range are kept |
| App.RowNavigator.Next | src/App.tsx:158-181 | with a next record whose fields are read, the position moves forward one and its sheet is loaded; otherwise nothing changes; the list, table and position range are kept |
| App.RowNavigator.DataChange | src/App.tsx:91-129 | the sheets are shown and written as JSON to `输出json` of the current record, followed by status `标注中` for level 1 or `已标注` for level 2; level 2 then moves to the next record |
| App.ConfirmLastScenario | src/App.tsx:117-127 | confirming the last record writes `已标注` to it and stays on it |
| HostData.ErrorText | src/utils/get_structured_data.tsx:72-76 | a thrown error becomes its message; any other thrown value becomes the generic unknown-error message |
| HostData.Resolve | src/utils/get_structured_data.tsx:29-53 | the request resolves to the options' triple, or to the complete current selection when the flag allows it and the options lack an id; it fails exactly when the triple in use is incomplete or the selection call throws, and a throwing selection call fails with that error's message (or the generic one) |
| HostData.GetStructuredData | src/utils/get_structured_data.tsx:27-78 | succeeds exactly when resolution succeeds and the cell read returns; a success carries the read value and a complete triple |
| HostData.SelectionErrorsBecomeResults | src/utils/get_structured_data.tsx:33 | whatever the host throws while the selection is asked for becomes a failure result carrying the error's message, or the generic message for a non-error value, and no cell is read |
| HostData.ExplicitTripleBypassesSelection | src/utils/get_structured_data.tsx:32 | with all three ids given, the selection is never consulted |
| HostData.SelectionFlagDefaultsToTrue | src/utils/get_structured_data.tsx:29 | leaving the flag out is the same as setting it to true |
| HostData.IncompleteSelectionFails | src/utils/get_structured_data.tsx:35-40 | an incomplete selection fails with the "no valid cell selected" message |
| HostData.MissingParametersFail | src/utils/get_structured_data.tsx:48-53 | without the selection, an incomplete triple fails with the "missing parameters" message |
| HostData.SelectionReplacesAllIds | src/utils/get_structured_data.tsx:42-44 | a consulted selection replaces all three ids, including those the options gave |
| HostData.ReadErrorsBecomeResults | src/utils/get_structured_data.tsx:56-76 | anything thrown while the cell is read becomes a failure result, never an exception |

## Left out

- Image loading and fetching are inputs to `SetupScene`: `getImageSize` becomes an optional size and `toDataURL` becomes a possibly empty string. The drawing engine's file registration (`fileId`, `addFiles`, `resetScene`) and the `scrollToContent` call are reduced to the `scrolled` result.
- Random seeds, version nonces, timestamps, fonts, fill styles and the other visual attributes of the elements are not modelled; they carry no logic.
- `viewModeEnabled` and `selectedElementIds` are modelled only through `tool` and `picked`.
- Locations with one to three numbers are not modelled, because the source destructures them into `undefined` and draws NaN boxes. A location is either absent or empty (`Absent`) or has four numbers.
- Element ids are `background-image`, `highlight-i`, `text-i` or some other string. A string id that starts with `highlight-` or `text-` without a numeric suffix is not modelled, because `parseInt` yields NaN there.
- Only `null` and rich-text segment lists are modelled as field values; other field types never reach the JSON fields.
- Exporting to JSON/CSV, the current-data getter, the confirm button, the "writing…" guard and all rendering are not modelled. They are UI, browser downloads and I/O.
- The navigator reads the record-id list after a table change refreshes it. The source's selection callback reads the list captured before the refresh, which is an effect of React's asynchronous state updates; event handlers here run one at a time on explicit state.
- `Canvas.Annotator.PointerUp` and `Interaction.ToggleFilter` treat a question index the sheet lacks as the source's `TypeError`: nothing is reported and no state changes.
- `App.RowNavigator.DataChange`: the writes are issued without awaiting them, so their completion order and failures are not modelled. The list gives the order in which they are issued.
- `App.RowNavigator.OnRowFields`: does not promise the position stays within the list in general, because the source does not: an event for a new table without a record id replaces the list and keeps the old position, which can then lie past the new list's end.
- `App.RowNavigator.OnRowFields`: the host's selection watcher, the record listing and the cell-reading helpers other than `getStructuredData` are not modelled; their results are parameters.
- `HostData.GetStructuredData` returns the field's type together with the read value, as part of `V`. The host's table, field and type lookups are folded into the single `read` call, because any of them throwing has the same effect.
- `Geometry.RoundTrip` and `Differ.BuiltSceneReadsBack` hold over real numbers, not over the source's IEEE doubles. In doubles, an anchor x of 0.1 with x1 = 0.2 reads back as 0.20000000000000004, so releasing the pointer without moving anything can report a change. Double rounding is not modelled anywhere.
- Behaviour of the code kept as written:
  - labels have the id `text-i`;
  - selecting a record missing from the list sets the position to -1;
  - clicking a question that already has a highlight does not leave drawing mode;
  - when the image changes but the canvas still holds a `background-image` element, that element is reused with its position and size, so the new image takes over the old one's place (only its file id changes) (`Scene.ExistingBackgroundKept`).
