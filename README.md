# Virtual staging front end: a Dafny model

This project models the deterministic rules inside the front end of a virtual-staging
service. Agents upload room photos and stage them with furniture sets. Clients then review
the staged rooms on a delivery page, comment on them, download them and buy more.

The model covers these parts of the front end:

- **Staging page** (`frontend/js/staging.js`): `Staging`
  - the furniture catalogue parsed from a CSV file;
  - the furniture picker's room filter;
  - per queued image, the chosen furniture names and URLs as two aligned lists;
  - the image queue;
  - the room-type text;
  - the stage loop, which puts each new result at the front of the gallery and moves the progress bar.
- **Comparison slider** (`ComparisonSlider`): one controller for the three copies of the before/after slider.
  - The copies are in `staging.js`, `editor.js` and `ComparisonSlider.jsx`.
  - A `Variant` records where the copies differ: press behaviour, which events they listen to, and how they read the coordinate.
- **Photo editor chat** (`frontend/js/editor.js`): `Editor`
  - the choice between a comparison slider and a plain image for a message;
  - gating of blank messages;
  - the send button's enabled state;
  - the transcript.
- **Delivery page** (`frontend/src-delivery/App.jsx`): `Delivery`
  - the project id taken from the path;
  - pairing result files with originals into rooms, with the "Staged Room" fallback;
  - the download-all guards;
  - extension extraction, sanitised entry names and the zip name.
- **Purchase wizard** (`PurchaseModal.jsx`): `PurchaseModal`
  - the four-step state machine and its gates;
  - the checkout quantity and link;
  - the price and the progress bar.
- **Per-room comment box** (`PhotoSection.jsx`): `PhotoSection`.
- **Furniture import script** (`frontend/scripts/import_furniture.js`): `FurnitureImport`.

Two shared modules support the rest:

- `JsText` models the JavaScript string operations the rules are built from: `trim` with the ECMA-262 white-space set, one-character `split`, `split(/\r?\n/)`, `join`, `startsWith` and `${n}`.
- `JsArray` states what `Array.prototype.filter` keeps: the passing elements in their order.
- `Wrappers` holds `Option`.

Network answers are parameters: a server reply, whether an image fetch succeeded, or whether a database insert succeeded. Code that changes state step by step is modelled as classes and loops. Each of them is proved against a pure function, and the lemmas are about those functions.

## Model

| member | source | states |
|---|---|---|
| JsText.Trim | frontend/js/staging.js:98 | the trimmed text is empty exactly when the input is all white space; otherwise it starts and ends with a non-white character |
| JsText.TrimIsSlice | frontend/scripts/import_furniture.js:37-38 | `trim()` keeps the slice after the leading white space, and only white space follows that slice |
| JsText.TrimIdempotent | frontend/js/staging.js:402-403 | trimming twice is trimming once |
| JsText.Split | frontend/scripts/import_furniture.js:31-33 | `split(c)` gives at least one piece and no piece holds `c` |
| JsText.SplitSingle | frontend/scripts/import_furniture.js:31-33 | `split(c)` gives one piece exactly when `c` does not occur, and that piece is the whole string |
| JsText.SplitAtSeparator | frontend/js/staging.js:100-102 | when position `i` holds the first separator, the first piece is the text before `i` and the rest is the split of what follows it |
| JsText.SplitAtFirst | frontend/js/staging.js:100-102 | the first piece is the text before the first separator; the rest is the split of what follows it |
| JsText.JoinSplit | frontend/scripts/import_furniture.js:38 | splitting on `c` and joining with `d` replaces every `c` by `d` |
| JsText.JoinSplitRoundTrip | frontend/js/staging.js:102 | `s.split(c).join(c)` is `s` |
| JsText.SplitLines | frontend/scripts/import_furniture.js:26 | `split(/\r?\n/)` gives as many lines as there are `\n`-separated pieces, none holding `\n` |
| JsText.RemoveChar | frontend/scripts/import_furniture.js:38 | the global replace of `c` by '' leaves no `c`, and it changes nothing when `c` is absent |
| JsText.DecimalRoundTrip | frontend/src-delivery/components/PurchaseModal.jsx:28 | reading back the decimal form of a number gives the number |
| JsText.NatToStringInjective | frontend/src-delivery/App.jsx:46 | distinct numbers have distinct decimal forms |
| Staging.ParseCsvLine | frontend/js/staging.js:100-104 | a line gives an entry iff it holds a comma; the name is the trimmed text before the first comma and the URL the trimmed rest, later commas kept |
| Staging.CommaLines | frontend/js/staging.js:100-105 | the lines holding a comma, each as often as it occurs, in file order |
| Staging.KeepParsedCommaLines | frontend/js/staging.js:99-105 | exactly the comma lines give entries, one each, in order |
| Staging.ParseCsv | frontend/js/staging.js:97-106 | the header line is dropped, so there are at most lines − 1 entries; the k-th entry is the parse of the k-th comma line after the header |
| Staging.HeaderOnly | frontend/js/staging.js:98-99 | a one-line catalogue gives no entries |
| Staging.Prefixes | frontend/js/staging.js:276-279 | BDR, LR and DR are present exactly when Bedroom, Living Room or Dining Room, respectively, is checked |
| Staging.WithPrefix | frontend/js/staging.js:281 | `filter` by prefix: the sets whose non-empty name starts with one of the prefixes, each as often as in the catalogue, in catalogue order |
| Staging.PickerSets | frontend/js/staging.js:274-284 | shows the whole catalogue unless the checked rooms narrow it; when narrowing, shows exactly the filtered catalogue (the matching sets in catalogue order, duplicates kept), or the whole catalogue when none matches; it is empty only for an empty catalogue |
| Staging.WithoutOther | frontend/js/staging.js:401 | the checked rooms except "Other", each as often as checked, in the order of the boxes, which is the order of the room type |
| Staging.RoomType | frontend/js/staging.js:399-405 | never empty; "Living Room" when nothing is chosen; the trimmed custom room alone when no room is checked; otherwise the parts joined by ", " |
| Staging.ImagesOnly | frontend/js/staging.js:154 | the files whose MIME type starts with "image/", each as often as dropped, in the order dropped |
| Staging.FirstIndex | frontend/js/staging.js:363 | the index of the first occurrence of a name present in the list |
| Staging.RemoveAt | frontend/js/staging.js:365-366 | `splice(i, 1)`: the elements before `i` stay, the later ones shift down by one |
| Staging.Outcome | frontend/js/staging.js:434-443 | a result exactly when the server staged the image, with the server's id and URLs, the file's name, the row's room type (never empty) and its furniture names joined by ", " |
| Staging.Outcomes | frontend/js/staging.js:434-452 | one outcome per queued image, and it is a result exactly when the server staged it |
| Staging.StagedKeepsEarlier | frontend/js/staging.js:435 | staging never drops an earlier result: the earlier gallery is a suffix, with at most one new result per image in front of it |
| Staging.NewestFirst | frontend/js/staging.js:435 | the result of the last image staged heads the gallery |
| Staging.FailureAddsNothing | frontend/js/staging.js:445-452 | a rejected or failed image leaves the gallery as it was |
| Staging.ProgressWidth | frontend/js/staging.js:454-455 | the bar's width lies in (0, 100] and is full exactly after the last image |
| Staging.StageEach | frontend/js/staging.js:390-456 | the loop's gallery is every success put in front, in queue order; the bar ends at 100 |
| Staging.StagingPage.constructor | frontend/js/staging.js:42-44 | empty queue, the loaded catalogue and results |
| Staging.StagingPage.RenderQueue | frontend/js/staging.js:160-235 | redrawing empties every row's furniture choice |
| Staging.StagingPage.LoadCsv | frontend/js/staging.js:86-91 | the catalogue becomes the parsed CSV; the queue is redrawn only when it holds images |
| Staging.StagingPage.HandleFiles | frontend/js/staging.js:153-157 | the images among the dropped files join the end of the queue; nothing else but the rows changes |
| Staging.StagingPage.RemoveImage | frontend/js/staging.js:240-244 | the image leaves the queue at its index; the rest keep their order |
| Staging.StagingPage.AddFurniture | frontend/js/staging.js:327-346 | a repeated name changes nothing; otherwise the name and URL are appended to that row's lists, which stay aligned and duplicate-free |
| Staging.StagingPage.RemoveFurniture | frontend/js/staging.js:358-369 | removes the name at its first index and the URL at the same index; an absent name changes nothing; afterwards the name is absent |
| Staging.StagingPage.Stage | frontend/js/staging.js:381-463 | an empty queue does nothing; otherwise the gallery gains every success in front, newest first, the bar is full and the queue empty; the catalogue is unchanged |
| ComparisonSlider.ClampedPercent | frontend/js/staging.js:526-531 | the offset is clamped to [0, width] and scaled: 0 left of the box, 100 right of it, proportional inside |
| ComparisonSlider.ScaledPercent | frontend/src-delivery/components/ComparisonSlider.jsx:18-19 | scaling then clamping to [0, 100] stays in [0, 100] |
| ComparisonSlider.ClampOrderAgrees | frontend/src-delivery/components/ComparisonSlider.jsx:18-19 | clamping before or after scaling gives the same percentage |
| ComparisonSlider.PercentMonotone | frontend/js/staging.js:528-531 | moving the pointer right never moves the divider left |
| ComparisonSlider.Percent | frontend/js/editor.js:258-261 | every copy computes the clamped percentage |
| ComparisonSlider.Coordinate | frontend/js/editor.js:259 | the coordinate is the mouse's `clientX` or the first touch's; it is absent for an empty touch list and, in the editor copy, for a mouse at `clientX` 0 |
| ComparisonSlider.Step | frontend/js/staging.js:536-558 | moves while idle change nothing; a release keeps the position, and a mouseup (or, outside the editor, a touchend) ends the drag; a press starts a drag; the editor ignores touch presses, touch releases, touch moves and moves off its container; only the delivery copy handles clicks; moves and clicks never change whether a drag is on; a changed position is the clamped pointer; conversely a staging or editor mouse press, a heard move while dragging and a delivery click with a coordinate and a container put the divider at the clamped pointer |
| ComparisonSlider.RunInRange | frontend/src-delivery/components/ComparisonSlider.jsx:18-20 | whatever the events, the divider stays within [0, 100] |
| ComparisonSlider.IdleIgnoresMoves | frontend/src-delivery/components/ComparisonSlider.jsx:27-29 | a slider that is not dragging ignores every move |
| ComparisonSlider.DragFollowsPointer | frontend/js/staging.js:536-540 | while dragging, a mouse move puts the divider at the clamped pointer |
| ComparisonSlider.EditorIgnoresZeroClientX | frontend/js/editor.js:259 | the editor copy ignores a press at `clientX` 0, where the staging copy jumps to the left edge |
| ComparisonSlider.DragScenario | frontend/js/editor.js:265-267 | press, move and release end idle at the pointer in every copy |
| ComparisonSlider.Slider.HandleLeft | frontend/src-delivery/components/ComparisonSlider.jsx:78 | the handle's left offset is the divider position, within [0, 100] |
| ComparisonSlider.Slider.BeforeRightInset | frontend/src-delivery/components/ComparisonSlider.jsx:67 | the before layer's right inset is 100 minus the handle's left offset |
| ComparisonSlider.Slider.constructor | frontend/src-delivery/components/ComparisonSlider.jsx:5-6 | starts at 50, not dragging |
| ComparisonSlider.Slider.Press | frontend/js/staging.js:550-553 | mousedown/touchstart is the press step of the state machine |
| ComparisonSlider.Slider.Move | frontend/js/editor.js:267 | mousemove/touchmove is the move step |
| ComparisonSlider.Slider.Release | frontend/src-delivery/components/ComparisonSlider.jsx:26 | mouseup/touchend is the release step |
| ComparisonSlider.Slider.Click | frontend/src-delivery/components/ComparisonSlider.jsx:50 | a click is the click step |
| ComparisonSlider.TwoSliders | frontend/js/staging.js:520-524 | each slider has its own state: dragging one to the left edge leaves the other at 50 and idle |
| Editor.RenderMessage | frontend/js/editor.js:204-237 | a comparison exactly for an answer with an image while an original is known; a plain image for any other image; a paragraph exactly for a truthy text |
| Editor.SendDisabled | frontend/js/editor.js:155 | the send button is disabled exactly for a blank input |
| Editor.Outgoing | frontend/js/editor.js:161-162 | nothing is sent for a blank input; otherwise the trimmed input is sent |
| Editor.ReplyMessage | frontend/js/editor.js:183-189 | the answer's text and image, or "Error: " and the error's message |
| Editor.Comparisons | frontend/js/editor.js:244-246 | counts the messages with a comparison slider |
| Editor.InitSlider | frontend/js/editor.js:249-256 | a new editor slider at 50 for a comparison container, and none without one |
| Editor.Chat.constructor | frontend/js/editor.js:50-51 | an empty chat with no original |
| Editor.Chat.Append | frontend/js/editor.js:198-247 | the message is appended; a slider is added exactly for an answer with an image while an original is known |
| Editor.Chat.Input | frontend/js/editor.js:154-156 | the button is disabled exactly while the input is blank |
| Editor.Chat.Send | frontend/js/editor.js:160-196 | a blank input changes nothing; otherwise the trimmed text and the answer are appended, the existing sliders are kept and exactly one new slider, fresh and at the initial state, is added when the answer has an image and an original is known (none otherwise), the input is cleared and the button re-enabled |
| Editor.Chat.Upload | frontend/js/editor.js:114-123 | non-images are ignored; an image is shown as the user's and becomes the original |
| Editor.Session | frontend/js/editor.js:183 | after an upload, an answer with an image is shown as a comparison with the upload |
| Delivery.LastSegment | frontend/src-delivery/App.jsx:19-20 | the last segment holds no slash, and is the whole path when the path has none |
| Delivery.LastSegmentAfterSlash | frontend/src-delivery/App.jsx:19-20 | the id of `prefix/id` is `id` |
| Delivery.LastSegmentAfterTrailingSlash | frontend/src-delivery/App.jsx:19-22 | a path ending in "/" has an empty id |
| Delivery.ProjectId | frontend/src-delivery/App.jsx:19-22 | the id is the last path segment, exactly when it is not empty; else the error "No project ID found in URL" |
| Delivery.OfKind | frontend/src-delivery/App.jsx:29-30 | the files of the given type, each as often as listed, in their order |
| Delivery.Fallback | frontend/src-delivery/App.jsx:53-62 | one room per result |
| Delivery.PairedIndices | frontend/src-delivery/App.jsx:32-51 | the indices of the paired results are below k and increasing |
| Delivery.PairedIndicesExact | frontend/src-delivery/App.jsx:39-43 | the first pass pairs exactly the results that have a before URL |
| Delivery.FirstPassSources | frontend/src-delivery/App.jsx:32-51 | at most one room per result, in result order; room j comes from result src[j], with its id and URL, the name "Room src[j]+1" and a non-empty before URL |
| Delivery.FirstPassComplete | frontend/src-delivery/App.jsx:39-50 | every result gives a room when a before URL exists for each |
| Delivery.BeforeUrlSource | frontend/src-delivery/App.jsx:33-41 | the before URL is the metadata's when it names one; otherwise the original at the result's index modulo the number of originals; with neither, none |
| Delivery.ResultsGiveRooms | frontend/src-delivery/App.jsx:53-62 | a project with results shows at least one room, and never more rooms than results |
| Delivery.PairResults | frontend/src-delivery/App.jsx:32-51 | the first loop builds the first-pass rooms |
| Delivery.FallbackRooms | frontend/src-delivery/App.jsx:54-61 | the second loop builds the fallback rooms |
| Delivery.BuildRooms | frontend/src-delivery/App.jsx:28-62 | the rooms are the first pass, or the fallback when that pass gives none |
| Delivery.FetchProject | frontend/src-delivery/App.jsx:17-71 | an id error; "Project not found" for a response that is not ok; the thrown error's own message when the request, the body or its files fail; otherwise the project with its rooms |
| Delivery.Extension | frontend/src-delivery/App.jsx:109 | never empty, without '.' or '?' |
| Delivery.ExtensionOfUrl | frontend/src-delivery/App.jsx:109 | `base.ext?query` gives `ext` |
| Delivery.ExtensionOfPlainUrl | frontend/src-delivery/App.jsx:109 | `base.ext` gives `ext` |
| Delivery.ExtensionDefault | frontend/src-delivery/App.jsx:109 | an empty extension becomes "png" |
| Delivery.SanitizeIsSafe | frontend/src-delivery/App.jsx:110 | only ASCII letters, digits and '_' remain, and the JavaScript length is preserved |
| Delivery.SanitizeSafe | frontend/src-delivery/App.jsx:110 | a safe name is unchanged |
| Delivery.SanitizeIdempotent | frontend/src-delivery/App.jsx:110 | sanitising twice is sanitising once |
| Delivery.SanitizeAppend | frontend/src-delivery/App.jsx:110 | sanitising distributes over concatenation |
| Delivery.SanitizeInPlace | frontend/src-delivery/App.jsx:110 | without astral characters, letters and digits stay at their index and every other character becomes '_' |
| Delivery.SanitizeRoomName | frontend/src-delivery/App.jsx:110 | "Room n" becomes "Room_n" |
| Delivery.DefaultRoomNameSafe | frontend/src-delivery/App.jsx:110 | the default name `Room_<index>` is left as it is by the sanitiser |
| Delivery.EntryName | frontend/src-delivery/App.jsx:109-111 | the sanitised room name, or `Room_<index>` for a room without one, then "_staged." and the URL's extension; the name part is safe and non-empty |
| Delivery.EntryNameOfPairedRoom | frontend/src-delivery/App.jsx:109-111 | a paired room "Room n" with image `base.ext` is saved as `Room_n_staged.ext` |
| Delivery.ZipName | frontend/src-delivery/App.jsx:131 | the sanitised project name, or "Project" for an empty one, then "_Staged.zip"; the name part is safe and non-empty |
| Delivery.Entries | frontend/src-delivery/App.jsx:101-114 | at most one entry per room |
| Delivery.EntriesCounted | frontend/src-delivery/App.jsx:100-114 | the zip holds as many entries as images were counted |
| Delivery.FetchAll | frontend/src-delivery/App.jsx:100-121 | the fetch loop adds each fetched image under its entry name and counts it |
| Delivery.DownloadAll | frontend/src-delivery/App.jsx:80-135 | the three alerts for a missing project, no rooms and no fetched image; otherwise a zip with one entry per fetched image, never empty |
| FurnitureImport.NonBlankLines | frontend/scripts/import_furniture.js:26 | the lines that are not blank, each as often as it occurs, in file order |
| FurnitureImport.LineParts | frontend/scripts/import_furniture.js:31-34 | split on ',' when the line holds one, else on '-' |
| FurnitureImport.ParseLine | frontend/scripts/import_furniture.js:31-45 | a row exactly when the line has two parts, a non-empty trimmed id and a non-empty URL; the id is the trimmed first part, the URL the trimmed rest, which holds no comma, and the name is "Set " + id |
| FurnitureImport.CommaCleanupIsNoOp | frontend/scripts/import_furniture.js:38 | the comma removal never removes anything |
| FurnitureImport.CommaLineParts | frontend/scripts/import_furniture.js:31-38 | with a comma, the first part is the text before the first comma and the URL text the trimmed rest with later commas turned into '-' |
| FurnitureImport.CommaLine | frontend/scripts/import_furniture.js:31-45 | a comma line is imported exactly when the trimmed text before the first comma and the trimmed rest, later commas turned into '-', are both non-empty, and then with those as id and URL |
| FurnitureImport.DashLineParts | frontend/scripts/import_furniture.js:32-38 | with a dash and no comma, the first part is the text before the first dash and the URL text the trimmed rest, later dashes kept |
| FurnitureImport.DashLine | frontend/scripts/import_furniture.js:32-45 | a line with a dash and no comma is imported exactly when the trimmed text before the first dash and the trimmed text after it are both non-empty, and then with those as id and URL |
| FurnitureImport.NoSeparator | frontend/scripts/import_furniture.js:36 | a line with neither separator is skipped |
| FurnitureImport.InsertedFromLines | frontend/scripts/import_furniture.js:40-46 | at most one row per line, each the parse of a line whose insert succeeded |
| FurnitureImport.AllAcceptedInserted | frontend/scripts/import_furniture.js:40-46 | when every line parses and every insert succeeds, every line gives a row |
| FurnitureImport.InsertParsed | frontend/scripts/import_furniture.js:28-52 | the loop inserts, in line order, exactly the rows of the lines that parse and whose insert succeeds, and the count is the number of those rows, at most the number of lines |
| FurnitureImport.ImportFurniture | frontend/scripts/import_furniture.js:13-55 | a missing file is reported; otherwise the rows inserted are those of the parsed lines whose insert succeeded, and the count equals them and is at most the non-blank line count |
| PurchaseModal.Quantity | frontend/src-delivery/components/PurchaseModal.jsx:27 | at least 1, and the file count when there are files |
| PurchaseModal.CheckoutUrl | frontend/src-delivery/components/PurchaseModal.jsx:25-28 | the cart prefix with the variant id, then the quantity in decimal, which reads back as the quantity and has no leading zero (a first digit 0 means the quantity is 0) |
| PurchaseModal.Total | frontend/src-delivery/components/PurchaseModal.jsx:188 | the total shown is the price of the quantity the link orders exactly when a photo is selected |
| PurchaseModal.CheckoutChargesTotal | frontend/src-delivery/components/PurchaseModal.jsx:188-200 | at step 4 the quantity is the file count, and the total is the price of the quantity |
| PurchaseModal.ProgressWidth | frontend/src-delivery/components/PurchaseModal.jsx:75 | within (0, 100], and full exactly at step 4 |
| PurchaseModal.ProgressGrows | frontend/src-delivery/components/PurchaseModal.jsx:75 | each step widens the bar |
| PurchaseModal.StyleLabel | frontend/src-delivery/components/PurchaseModal.jsx:177 | the style when one is chosen, and "None" for an empty style |
| PurchaseModal.Wizard.constructor | frontend/src-delivery/components/PurchaseModal.jsx:6-9 | step 1, no files, empty style and comments |
| PurchaseModal.Wizard.Open | frontend/src-delivery/App.jsx:178 | the pricing call to action opens the modal and changes nothing else |
| PurchaseModal.Wizard.Close | frontend/src-delivery/components/PurchaseModal.jsx:12 | closing hides the wizard and keeps its state |
| PurchaseModal.Wizard.AddFiles | frontend/src-delivery/components/PurchaseModal.jsx:14-19 | the chosen files follow the earlier ones |
| PurchaseModal.Wizard.SelectStyle | frontend/src-delivery/components/PurchaseModal.jsx:132 | the chosen style is set |
| PurchaseModal.Wizard.SetComments | frontend/src-delivery/components/PurchaseModal.jsx:159 | the comments are set |
| PurchaseModal.Wizard.Back | frontend/src-delivery/components/PurchaseModal.jsx:22 | one step back, offered only after step 1 |
| PurchaseModal.Wizard.Primary | frontend/src-delivery/components/PurchaseModal.jsx:199-200 | Continue advances one step; at step 4 the button checks out with the link for max(1, files); the step stays within 1..4 and past step 1 there are files |
| PurchaseModal.Purchase | frontend/src-delivery/components/PurchaseModal.jsx:21-29 | two photos, a style and a comment check out with quantity 2, across a close and reopen |
| PhotoSection.CommentBox.SubmitDisabled | frontend/src-delivery/components/PhotoSection.jsx:56 | disabled exactly for a blank comment |
| PhotoSection.CommentBox.constructor | frontend/src-delivery/components/PhotoSection.jsx:6-7 | an empty input and no comments |
| PhotoSection.CommentBox.Type | frontend/src-delivery/components/PhotoSection.jsx:49 | typing sets the input and nothing else |
| PhotoSection.AfterSubmit | frontend/src-delivery/components/PhotoSection.jsx:11-12 | a blank draft changes nothing; otherwise the untrimmed draft is appended with its time |
| PhotoSection.Accepted | frontend/src-delivery/components/PhotoSection.jsx:11-12 | at most one comment per submit, none blank |
| PhotoSection.SubmitsAppendAccepted | frontend/src-delivery/components/PhotoSection.jsx:11-13 | a run of submits keeps earlier comments and appends exactly the non-blank drafts, in order |
| PhotoSection.CommentBox.Submit | frontend/src-delivery/components/PhotoSection.jsx:9-14 | the list is the submit's result and the input is cleared after a successful submit |
| PhotoSection.TwoRooms | frontend/src-delivery/components/PhotoSection.jsx:6-7 | each room's box is its own; a whitespace-only draft is not kept |

## Left out

- Network I/O is not modelled. This covers the server requests of `loadProject` and the `/api/stage` calls in staging.js, the requests in editor.js, and `fetchProject` and the image fetches in App.jsx. Each is a parameter holding its outcome.
- The delete button and the result history are not modelled. The delete button refetches and then filters the gallery. `loadProject` rebuilds `stagedResults` from stored files. Both depend on the server.
- The staging page's own "download all" (staging.js:566-583) is not modelled. It is JSZip packaging and concurrent fetches.
- The JSZip and file-saver packaging is not modelled. In App.jsx the fetches run concurrently with `Promise.all`, so the model takes them in room order.
  - Only which images arrive is modelled. The order they complete in is not.
  - Entries with the same name, which JSZip overwrites, are not modelled.
- The per-room failure alerts in download-all, the button texts and timers, and the staging failure alerts are not modelled.
- HTML rendering, class toggling, focus and scrolling are not modelled. A rendered chat message is reduced to its role, its picture choice and its paragraph.
- Re-rendering the staging gallery (`renderResults` → `initSliders`) is not modelled.
  - That re-render resets every gallery slider to 50.
  - The window listeners that `initSlider` adds to the editor accumulate with each call.
  - The only thing modelled is each slider's `dragging` flag.
- When the queue becomes empty, `renderImageQueue` hides the old rows but leaves them in the page. The model drops them, because a hidden row cannot be reached.
- Rendering the editor's history after `loadProject` is not modelled. It needs the server's answer. After an upload the model keeps the local preview URL as the original.
- The system prompt and the custom prompt are not modelled. They are kept in localStorage or in the request body, and `db.js`, `main.js` and the settings dialogs are not part of this model.
- The SQLite `INSERT OR REPLACE` is modelled only as a success or failure per line. `database.js` is not part of this model, so replacement of an existing id is not.
- JSON parsing of metadata is modelled as `Meta`. Only a string `originalUrl` or none is modelled: a non-string but truthy `originalUrl` is not.
- Floating point is not modelled. Percentages are exact reals and containers have positive width. An IEEE NaN is modelled as "no coordinate".
- Events reach the handlers one at a time. The model does not cover an event that arrives while a request is pending. For example, typing while an edit request is in flight.
- PurchaseModal.Wizard.AddFiles: the `accept="image/*"` filter is the browser's, so any file name is accepted.
- ComparisonSlider.Slider.Move: the mousemove listener of the editor copy sits on its container. The model does not track where the pointer is; the `overContainer` flag of a move stands for it, and Step ignores an editor move without it.
- Editor.Comparisons: states only a bound. The count it must match is kept by `Chat.Valid`.
