# Mars map annotation: a Dafny model

This project models the interactive core of a Mars map explorer, a Next.js /
React front end over Leaflet. It covers:

- **the main Mars page** (`MarsPage`). Three mutually exclusive drawing modes
  (label, question, measure) are toggled by buttons. Every start registers a
  leaflet-draw `CREATED` listener with `map.once`. A completed shape opens the
  label or question modal, or shows a distance readout. The page also posts
  labels to the label service (its answer is a parameter), keeps questions in
  page state, reloads labels from the label service (pairing the flat
  coordinate list back into vertices), reads the "lat, lon" search box and
  toggles the Q&A layer.
- **the viewport client** (`MapClient`): the zoom and centre readout, the tile
  under the centre (`Tiles`, an equirectangular 2:1 grid), the mouse position,
  and the Draw Area button.
- **the polygon store** (`Api`): a list of records kept under one
  `localStorage` key. Create appends, getAll filters by planet, update merges
  by id and delete filters an id out. The client-side cache over it (`Crud`)
  follows each store operation, and is left alone when the store fails.
- **the Geoman polygon manager** (`Manager`), which follows the drawing flag,
  and the one-at-a-time leaflet-draw button (`Drawer`). The manager keeps the
  drawn ring, shows a name form, saves through the cache, and redraws two
  layers per polygon.
- **the login / register page** (`Auth`): ordered validation, error-message
  precedence and per-form status routing.

## How the model relates to the code

Components and hooks whose state changes in place are classes. Their
`useState` values and refs are fields. Event handlers and effects are methods
with `modifies` clauses and a validity predicate. Pure transformations are
functions with lemmas:

- trimming, splitting on a comma and UTF-16 length follow JavaScript (`JsText`);
- flattening and re-pairing of label coordinates (`Labels`);
- search parsing (`Search`);
- the distance sum (`Distance`);
- tile indices (`Tiles`);
- the store's filters and maps (`Api`).

Leaflet is abstract throughout:

- A draw handler is the mode that started it.
- A finished shape is its kind plus its vertex list.
- A layer group is the sequence of overlays it holds.

A few pieces of Leaflet behaviour are written out because the code depends on
them:

- **Polygon distance.** `getLatLngs()` of a polygon is a list of rings, so the
  measure listener's sum over it is 0 (`MarsPage.MeasuredDistance`).
- **Polyline "ring".** `getLatLngs()[0]` of a polyline is a single point, so
  flattening it in `submitLabel` / `submitQuestion` throws before anything is
  sent.
- **Missing longitude.** `L.polygon` throws on a vertex without a longitude.
  In `loadLabels` that ends the redraw and reports "Failed to load labels".
- **Stale `once` listeners.** `cancelCurrentDrawing` never unregisters the
  `map.once(CREATED, …)` listeners. The next completed shape therefore runs
  every listener still registered. `MarsPage.StaleLabelListener` shows the
  consequence: a label drawing toggled off, followed by a measurement, also
  opens the label modal holding the measured line, and that label can never be
  saved. The Findings table records this together with a corrected cancel
  that also removes the listeners. This is why `OnShapeCreated` opens the label modal exactly when a
  label listener was pending, not when the current mode is label.

Inputs that are not code are parameters:

- Network answers are outcome datatypes.
- `parseFloat` is a partial function (`None` is NaN).
- Generated ids (`uuidv4`, `Date.now()`) are arguments.
- Whether the store can be read or written is a flag.
- Timers are event methods (`HideStatus`, `OnArrival`) or a pending-redirect
  field.

Numbers are exact reals.

Tile indices stay inside the grid for latitudes in (-90, 90] and longitudes in
[-180, 180) (`Tiles.TileX`, `Tiles.TileY`). The code does not clamp the two
edge values: longitude 180 lands one column past the grid and latitude -90 one
row below it (`Tiles.EastEdgeOnePast`, `Tiles.SouthPoleOnePast`).

## Model

| member | source | states |
|---|---|---|
| JsText.TrimStartShape | src/app/mars/page.tsx:399 | `trim`'s leading half keeps the longest suffix not starting with whitespace; everything removed is whitespace |
| JsText.TrimEndShape | src/app/mars/page.tsx:399 | the trailing half keeps the longest prefix not ending with whitespace; everything removed is whitespace |
| JsText.BlankIffAllWhitespace | src/app/mars/page.tsx:399-402 | `!s.trim()` holds exactly when every character is whitespace |
| JsText.Split | src/app/mars/page.tsx:344 | `split(",")` always yields at least one piece |
| JsText.SplitShape | src/app/mars/page.tsx:344 | a split has one more piece than there are separators, and no piece holds a separator |
| JsText.JoinSplit | src/app/mars/page.tsx:344 | joining the pieces of a split restores the string |
| JsText.SplitJoin | src/app/mars/page.tsx:344 | splitting a join of separator-free pieces restores the pieces |
| JsText.SplitNoSeparator | src/app/mars/page.tsx:344 | a string without a comma splits into itself alone |
| JsText.SplitAfterPrefix | src/app/mars/page.tsx:344 | a comma-free prefix before a comma becomes the first piece |
| JsText.SplitInTwo | src/app/mars/page.tsx:344-345 | the split is `[a, b]` iff the string is `a` + comma + `b` with no comma in either |
| JsText.Utf16Length | src/app/auth/page.tsx:62 | `length` counts UTF-16 code units: between the character count and twice it |
| Geo.ToCoords | src/components/maps/PolygonManager.tsx:47-49 | the `[lat, lng]` tuples are the vertices' coordinates, index by index |
| Tiles.TileX | src/app/mars/MarsMapClient.tsx:74-76 | a longitude in [-180, 180) gives a column inside the `2·2^zoom` columns |
| Tiles.TileY | src/app/mars/MarsMapClient.tsx:74-77 | a latitude in (-90, 90] gives a row inside the `2^zoom` rows |
| Tiles.GridDoubles | src/app/mars/MarsMapClient.tsx:74-75 | each zoom level doubles rows and columns; the columns of a level are the rows of the next |
| Tiles.TilesAreSquare | src/app/mars/MarsMapClient.tsx:74-77 | a column spans as many degrees of longitude as a row spans of latitude |
| Tiles.TileXIff | src/app/mars/MarsMapClient.tsx:76 | the column is `x` exactly when the longitude lies from column `x`'s west edge up to the next edge |
| Tiles.TileYIff | src/app/mars/MarsMapClient.tsx:77 | the row is `y` exactly when the latitude lies from row `y`'s north edge down to the next edge |
| Tiles.EastEdgeOnePast | src/app/mars/MarsMapClient.tsx:76 | longitude 180 is not clamped and maps one column past the grid |
| Tiles.SouthPoleOnePast | src/app/mars/MarsMapClient.tsx:77 | latitude -90 is not clamped and maps one row past the grid |
| Tiles.TileXMonotone | src/app/mars/MarsMapClient.tsx:76 | moving east never decreases the column |
| Tiles.TileYAntitone | src/app/mars/MarsMapClient.tsx:77 | moving north never increases the row |
| Labels.Flatten | src/app/mars/page.tsx:405-406 | `flatMap` gives the list `lat0, lng0, lat1, lng1, …` |
| Labels.Paired | src/app/mars/page.tsx:177-183 | the loading loop builds one tuple per even index |
| Labels.ToVertices | src/app/mars/page.tsx:177-187 | the tuples form vertices exactly when none lacks its longitude, and then index by index |
| Labels.PairCoordinates | src/app/mars/page.tsx:177-183 | the `for (i += 2)` push loop builds exactly the paired tuples |
| Labels.PairFlattenRoundTrip | src/app/mars/page.tsx:177-183 | re-pairing a flattened ring gives the ring back |
| Labels.FlattenPairRoundTrip | src/app/mars/page.tsx:177-183 | an even-length list pairs completely, and flattening the pairs gives the list back |
| Labels.DanglingIffOdd | src/app/mars/page.tsx:178-183 | a tuple dangles exactly when the list's length is odd |
| Labels.RenderLabels | src/app/mars/page.tsx:174-207 | the label layer holds polygon/title pairs, and every polygon drawn has at least three vertices |
| Labels.DrawLabels | src/app/mars/page.tsx:174-207 | the `forEach` over the loaded labels builds exactly the rendered layer and failure flag |
| Labels.Drawn | src/app/mars/page.tsx:185 | the labels kept are exactly those with at least three tuples |
| Labels.RenderFailsIff | src/app/mars/page.tsx:185-211 | loading fails exactly when some label with three or more tuples has a dangling one |
| Labels.RenderKeepsDrawn | src/app/mars/page.tsx:176-206 | with well-formed lists nothing fails, and each kept label yields its polygon then its title, in order |
| Search.ParseSearch | src/app/mars/page.tsx:343-345 | a query is accepted iff it has a single comma and both trimmed sides parse; it is then accepted as those two numbers |
| Search.UniqueComma | src/app/mars/page.tsx:344-345 | a comma with none on either side is the only comma |
| Search.NoSingleComma | src/app/mars/page.tsx:344-345 | a query that does not split in two has no comma standing alone |
| Search.NoCommaRejected | src/app/mars/page.tsx:372-374 | a query without a comma is invalid |
| Search.TwoNumbersAccepted | src/app/mars/page.tsx:344-348 | two numbers around one comma are accepted as latitude then longitude |
| Distance.PathLength | src/app/mars/page.tsx:325-340 | the sum of the segment lengths over consecutive points: fewer than two points measure 0, and non-negative segments give a non-negative total (its recurrence is `PathLengthSnoc`) |
| Distance.PathLengthSnoc | src/app/mars/page.tsx:328-337 | one more point adds the length of the last segment |
| Distance.CalculateDistance | src/app/mars/page.tsx:325-340 | the loop's total is the sum of the segment lengths over consecutive points |
| Distance.Reverse | src/app/mars/page.tsx:328 | the reversed path, index by index |
| Distance.PathLengthReverse | src/app/mars/page.tsx:328-338 | with a symmetric segment formula, measuring a line backwards gives the same total |
| MarsPage.MeasuredDistance | src/app/mars/page.tsx:311-315 | a line measures its path length; a polygon, whose `getLatLngs()` is a list of rings, measures 0; non-negative segments give a non-negative readout |
| MarsPage.LabelRequest | src/app/mars/page.tsx:398-414 | a request exists iff the title is not blank and the shape is a polygon; it carries the user, "Mars", the title and description, and coordinates that load back as the same ring |
| MarsPage.Posted | src/app/mars/page.tsx:474-506 | the question is stored under the id with its text, colour and ring; other entries are untouched; the counter is one more; the area joins the question layer |
| MarsPage.PostedKeepsCount | src/app/mars/page.tsx:505-506 | with fresh ids the counter stays equal to the number of stored questions |
| MarsPage.PostedReusedId | src/app/mars/page.tsx:474-506 | a reused id overwrites an entry while the counter still goes up |
| MarsPage.MarsMapPage.constructor | src/app/mars/page.tsx:58-89 | the page starts idle, with no listeners, empty forms, both swatches `#ff6b6b`, an empty search and empty layers |
| MarsPage.MarsMapPage.CancelCurrentDrawing | src/app/mars/page.tsx:218-234 | all mode flags, handler, shape, modals, readout and line are cleared; the `once` listeners stay |
| MarsPage.MarsMapPage.CancelDrawingFixed | src/app/mars/page.tsx:218-234 | the corrected cancel clears everything `cancelCurrentDrawing` clears and also the pending `CREATED` listeners |
| MarsPage.MarsMapPage.HandleModeClick | src/app/mars/page.tsx:236-310 | clicking the active mode cancels; any other click leaves only that mode, with its handler and one more listener |
| MarsPage.MarsMapPage.OnShapeCreated | src/app/mars/page.tsx:256-322 | every pending listener runs: each pending mode opens its modal or readout, keeps the shape or line and sets the distance; all flags, the handler and the listeners are cleared |
| MarsPage.MarsMapPage.RunCreatedListener | src/app/mars/page.tsx:256-322 | one listener's effect on the flags, shape, modal, line and distance |
| MarsPage.MarsMapPage.CloseLabelModal | src/app/mars/page.tsx:681 | the label modal closes and the shape stays |
| MarsPage.MarsMapPage.CloseQuestionModal | src/app/mars/page.tsx:734 | the question modal closes and the shape stays |
| MarsPage.MarsMapPage.EditForm | src/app/mars/page.tsx:77-82 | the form inputs change and nothing else does |
| MarsPage.MarsMapPage.EditSearch | src/app/mars/page.tsx:83 | the query changes and nothing else does |
| MarsPage.MarsMapPage.SubmitLabel | src/app/mars/page.tsx:398-458 | a blank title reports and sends nothing; a missing or ringless shape does nothing. Success appends the polygon and title, clears the title and description, closes the modal and drops the shape. A failure only reports |
| MarsPage.MarsMapPage.SubmitQuestion | src/app/mars/page.tsx:460-511 | blank text reports; otherwise the question is posted under the id, the text cleared, the modal closed and the shape dropped |
| MarsPage.MarsMapPage.LoadLabels | src/app/mars/page.tsx:166-212 | a readable reply replaces the labels (an absent list reads as empty) and redraws the layer; a refused polygon or an unreadable reply reports failure |
| MarsPage.MarsMapPage.HandleSearchSubmit | src/app/mars/page.tsx:342-376 | only Enter while not navigating acts; an accepted query starts the flight, clears the box and is reported; otherwise the coordinates are reported invalid |
| MarsPage.MarsMapPage.OnArrival | src/app/mars/page.tsx:352-370 | the pending point becomes a marker and navigation ends |
| MarsPage.MarsMapPage.ClearSearch | src/app/mars/page.tsx:378-381 | the markers are removed and the status reports it |
| MarsPage.MarsMapPage.ToggleForumVisibility | src/app/mars/page.tsx:385-396 | the flag flips and every question polygon is restyled to match, in order |
| MarsPage.MarsMapPage.HideStatus | src/app/mars/page.tsx:158-163 | the banner clears |
| MarsPage.StartLeavesOneMode | src/app/mars/page.tsx:241-242 | while a handler is active exactly its mode's flag is set |
| MarsPage.AtMostOneMode | src/app/mars/page.tsx:223-225 | no two mode flags are set together |
| MarsPage.StaleLabelListener | src/app/mars/page.tsx:256-262 | label on, label off, measure, a line drawn: the label modal opens holding the line, and its save sends nothing |
| MarsPage.StaleListenerRemoved | src/app/mars/page.tsx:236-322 | label on, corrected cancel, measure, a line drawn: no label modal, no kept shape, and the line's length shown |
| MarsPage.FreshMeasurement | src/app/mars/page.tsx:311-321 | a first measurement opens no modal and shows the line's length |
| MapClient.MarsMapClient.constructor | src/app/mars/MarsMapClient.tsx:14-20 | zoom 1 centred on (0, 0), no mouse position, not drawing |
| MapClient.MarsMapClient.TileCoords | src/app/mars/MarsMapClient.tsx:73-79 | the tile under the centre lies inside the grid for in-range centres, and its edges enclose the centre |
| MapClient.MarsMapClient.Mount | src/app/mars/MarsMapClient.tsx:58-63 | handlers registered, then the readout is taken once |
| MapClient.MarsMapClient.UpdateMapInfo | src/app/mars/MarsMapClient.tsx:45-48 | the readout follows the map's zoom and centre |
| MapClient.MarsMapClient.HandleMouseMove | src/app/mars/MarsMapClient.tsx:50-52 | the pointer's position is shown |
| MapClient.MarsMapClient.HandleMouseOut | src/app/mars/MarsMapClient.tsx:54-56 | the position is cleared |
| MapClient.MarsMapClient.Unmount | src/app/mars/MarsMapClient.tsx:65-70 | the handlers are gone |
| MapClient.MarsMapClient.ClickDrawButton | src/app/mars/MarsMapClient.tsx:83-85 | the button starts drawing and is inert while drawing |
| MapClient.MarsMapClient.DrawingComplete | src/app/mars/MarsMapClient.tsx:108 | drawing ends |
| Api.ByPlanet | src/lib/api.ts:82 | exactly the records on the planet |
| Api.WithoutId | src/lib/api.ts:101 | exactly the records without the id |
| Api.MergeById | src/lib/api.ts:91-93 | the records with the id are merged with the patch; the others are kept, in place |
| Api.FindById | src/lib/api.ts:95 | a found record has the id and is in the list |
| Api.FindByIdFirst | src/lib/api.ts:95 | `find` returns a record exactly when one has the id, and then the first such |
| Api.PolygonApi.constructor | src/lib/api.ts:56-60 | no stored entry, which `getStored` reads as the empty list |
| Api.PolygonApi.Create | src/lib/api.ts:72-78 | the data with its generated id (`{ ...data, id }`, line 74) is appended to the stored list, an absent entry counting as empty, and returned |
| Api.PolygonApi.GetAll | src/lib/api.ts:80-83 | the stored records on the planet, without writing |
| Api.PolygonApi.Update | src/lib/api.ts:85-96 | the list is merged by id and stored; the first record holding the id afterwards is returned |
| Api.PolygonApi.Delete | src/lib/api.ts:98-102 | the list without the id is stored |
| Api.ByPlanetAppend | src/lib/api.ts:72-83 | after an append, the planet's view grows by the record when it is on that planet |
| Api.ByPlanetConcat | src/lib/api.ts:82 | filtering by planet distributes over concatenation |
| Api.WithoutIdConcat | src/lib/api.ts:101 | dropping an id distributes over concatenation |
| Api.ByPlanetWithoutId | src/lib/api.ts:80-102 | delete commutes with the planet filter |
| Api.DeleteUnknownId | src/lib/api.ts:98-102 | deleting an unknown id changes nothing |
| Api.DeleteRemovesId | src/lib/api.ts:98-102 | after a delete no record has the id |
| Api.UpdateResult | src/lib/api.ts:85-96 | update reports a record iff one had the id and the patch keeps the id; it is the first match, merged |
| Api.ByPlanetMergeById | src/lib/api.ts:80-96 | an update that sets no planet commutes with the planet filter |
| Api.CreateAllowsDuplicateIds | src/lib/api.ts:72-78 | create never checks ids, so a reused id is held twice |
| Crud.ReplaceById | src/components/maps/usePolygonCRUD.ts:45 | the entries with the id become the updated record; the others are kept |
| Crud.PolygonCrud.constructor | src/components/maps/usePolygonCRUD.ts:7-9 | an empty cache, loading |
| Crud.PolygonCrud.FetchPolygons | src/components/maps/usePolygonCRUD.ts:11-21 | a readable store replaces the cache with the planet's records; loading ends either way |
| Crud.PolygonCrud.CreatePolygon | src/components/maps/usePolygonCRUD.ts:23-40 | the created record joins both store and cache; a failure is rethrown with both unchanged; a synced cache stays synced |
| Crud.PolygonCrud.UpdatePolygon | src/components/maps/usePolygonCRUD.ts:42-49 | the store is merged by id and saved; the cache's entries with the id become the returned record, and when no record holds the id after the merge a cache without it stays as it was; a failure changes nothing |
| Crud.PolygonCrud.DeletePolygon | src/components/maps/usePolygonCRUD.ts:51-58 | the id leaves store and cache; a failure changes nothing; a synced cache stays synced |
| Crud.UpdateKeepsSync | src/components/maps/usePolygonCRUD.ts:42-49 | with unique ids and a patch that keeps id and planet, the updated cache equals the store's planet view |
| Manager.LayersFor | src/components/maps/PolygonManager.tsx:92-111 | two layers per polygon, with consecutive fresh keys |
| Manager.LayersForShape | src/components/maps/PolygonManager.tsx:92-111 | polygon `k` gives layer `2k`, its outline, and layer `2k+1`, its name |
| Manager.RemoveLayers | src/components/maps/PolygonManager.tsx:88-89 | exactly the map's layers that were not tracked remain |
| Manager.PreviousSibling | src/components/maps/PolygonManager.tsx:133-134 | a first child has no previous sibling; an element first found at index `i ≥ 1` has the child at `i - 1`; any sibling found sits just before the element |
| Manager.PolygonManager.constructor | src/components/maps/PolygonManager.tsx:25-27 | no form, no ring, the tool off, nothing drawn |
| Manager.PolygonManager.SyncDrawing | src/components/maps/PolygonManager.tsx:30-68 | after one run of the effect, the tool is enabled and the create handler registered exactly while drawing |
| Manager.PolygonManager.HandleCreate | src/components/maps/PolygonManager.tsx:45-53 | the ring is kept as tuples, the form opens and drawing ends |
| Manager.PolygonManager.OnDrawnLayerRemoved | src/components/maps/PolygonManager.tsx:56-58 | the form closes |
| Manager.PolygonManager.HandleSaveLabel | src/components/maps/PolygonManager.tsx:70-75 | a blank name does nothing; otherwise the untrimmed name and ring are created; on success the form closes and the cache refetches; a failed create leaves the form open and skips the refetch |
| Manager.PolygonManager.ClickSaveButton | src/components/maps/PolygonManager.tsx:131-136 | the Save button saves only when its previous sibling is the name input, and otherwise changes nothing |
| Manager.PolygonManager.ClickSaveFixed | src/components/maps/PolygonManager.tsx:131-136 | reading the input before the button row, a non-blank name is stored and the form closes |
| Manager.PolygonManager.HandleCancel | src/components/maps/PolygonManager.tsx:77-81 | the form closes and drawing ends |
| Manager.PolygonManager.Render | src/components/maps/PolygonManager.tsx:84-114 | the tracked layers leave the map, and the new tracked layers are two per cached polygon, in order |
| Manager.RenderReplacesTracked | src/components/maps/PolygonManager.tsx:87-113 | after a redraw no previously tracked layer remains, and exactly `2·n` are tracked |
| Manager.SaveButtonFindsNoInput | src/components/maps/PolygonManager.tsx:130-136 | the Save button is the first child of its row, and the input precedes the row |
| Manager.SaveClickSavesNothing | src/components/maps/PolygonManager.tsx:118-136 | a ring drawn, a name typed, Save clicked: nothing is stored and the form stays |
| Manager.SaveClickFixedSaves | src/components/maps/PolygonManager.tsx:118-136 | the same steps with the intended button store the named polygon |
| Drawer.SavedLabel | src/components/maps/PolygonDrawer.tsx:92-93 | the popup's content unless empty, else "Label" |
| Drawer.PolygonDrawer.constructor | src/components/maps/PolygonDrawer.tsx:18-20 | no drawing, no control, no handler |
| Drawer.PolygonDrawer.EnableDrawing | src/components/maps/PolygonDrawer.tsx:32-100 | inert while drawing; otherwise drawing starts, the control is built at most once and added, and one handler is registered |
| Drawer.PolygonDrawer.HandleCreated | src/components/maps/PolygonDrawer.tsx:85-97 | the handler unregisters itself, hands over "<b>Label</b>" and the ring as tuples, and drawing ends |
| Drawer.PolygonDrawer.Unmount | src/components/maps/PolygonDrawer.tsx:23-30 | the control leaves the map only if it was built and added |
| Drawer.ClickClickCreate | src/components/maps/PolygonDrawer.tsx:33-34 | two clicks and one creation leave no handler and one control |
| Drawer.TwoDrawings | src/components/maps/PolygonDrawer.tsx:37-70 | a second drawing reuses the first control |
| Auth.Validate | src/app/auth/page.tsx:45-70 | a form is accepted exactly when the trimmed username and the password are non-empty and, for register, the email is non-empty and the password has at least 6 UTF-16 units; a refusal is one of the three messages (their order: `FieldsCheckedFirst`, `EmailBeforeLength`) |
| Auth.RequestFor | src/app/auth/page.tsx:73-92 | login posts to `/user/login`, register to `/user/register`, with the trimmed username, the password as typed and, for register, the email |
| Auth.Outcome | src/app/auth/page.tsx:94-137 | a submission succeeds exactly when the form validates and the service answers `ok`; every status has a message |
| Auth.ErrorMessage | src/app/auth/page.tsx:117-120 | `message`, else `detail`, else "Login failed" / "Registration failed"; never empty |
| Auth.SuccessMessage | src/app/auth/page.tsx:99-102 | the success line ends with the returned user id |
| Auth.AuthPage.constructor | src/app/auth/page.tsx:9-18 | the login tab, no status, not submitting |
| Auth.AuthPage.HandleTabChange | src/app/auth/page.tsx:25-28 | the tab switches and both status lines clear |
| Auth.AuthPage.SetStatus | src/app/auth/page.tsx:121-125 | a message goes to the submitting form's slot only |
| Auth.AuthPage.HandleSubmit | src/app/auth/page.tsx:30-138 | both slots clear, then the submitting form's slot shows the outcome and the other stays empty. A request is sent iff the form validates. Success stores the session and schedules the redirect. Submitting is false on every exit |
| Auth.BlankUsernameRejected | src/app/auth/page.tsx:40-46 | a whitespace-only username counts as missing |
| Auth.FieldsCheckedFirst | src/app/auth/page.tsx:45-53 | the fields error appears exactly when the trimmed username or the password is empty |
| Auth.LoginChecksOnlyFields | src/app/auth/page.tsx:56 | login ignores the email and the password's length |
| Auth.RegisterStricter | src/app/auth/page.tsx:45-70 | register rejects whatever login rejects, with the same message |
| Auth.EmailBeforeLength | src/app/auth/page.tsx:56-69 | a missing email is reported before the length is looked at; the length error appears exactly when the password is shorter than 6 |
| Auth.LengthBounds | src/app/auth/page.tsx:62 | six or more characters pass; one or two never do |
| Auth.InvalidIgnoresReply | src/app/auth/page.tsx:45-70 | an invalid form's status does not depend on the service |

## Findings

| source | as written | input that shows it | evidently intended | confidence | as-written member | corrected member |
|---|---|---|---|---|---|---|
| src/components/maps/PolygonManager.tsx:131-136 | the Save handler reads `value` of the button's `previousElementSibling`, but the button is the first child of its row, so that is null and the handler throws | draw a ring, type "Crater", click Save: nothing is stored and the form stays open | read the name input, which precedes the button row, and save as Enter does | high; not executed | Manager.SaveClickSavesNothing (via Manager.PolygonManager.ClickSaveButton and Manager.SaveButtonFindsNoInput) | Manager.PolygonManager.ClickSaveFixed (Manager.SaveClickFixedSaves) |
| src/app/mars/page.tsx:218-234 | `cancelCurrentDrawing` disables the handler but never removes the `map.once(CREATED, …)` listener its drawing registered, so that listener fires for the next shape of any mode | click Label, click Label again, click Measure, draw a line: the label modal opens holding the line, and its save sends nothing | cancelling a drawing also removes its `CREATED` listener, so a measurement only shows its distance | medium; not executed | MarsPage.StaleLabelListener (via MarsPage.MarsMapPage.CancelCurrentDrawing) | MarsPage.MarsMapPage.CancelDrawingFixed (MarsPage.StaleListenerRemoved) |

## Left out

- The haversine formula, `Math.PI` and the other floating-point details of `calculateDistance` are not modelled. They are abstracted as the `segment` function, a parameter; only the summation loop is modelled. `toFixed` and every HTML / popup string are left out.
- `Manager.PolygonManager.SyncDrawing`: how often the effect runs is not modelled. Its dependencies include `onDrawingComplete`, which the client passes as a new closure on every render (src/app/mars/MarsMapClient.tsx:108), and the client renders again on every mouse move, pan and zoom (src/app/mars/MarsMapClient.tsx:45-52). So during a drawing the handler is removed and re-added, and `map.pm.enableDraw` is called again, many times. Whether Geoman's re-enable discards the vertices already placed depends on Geoman's internals. The model's enable flag makes a re-enable harmless, so it does not capture that effect.
- Leaflet, leaflet-draw and Geoman internals are left out: projections, `getBounds().getCenter()`, `setStyle` colours, icons, tile layers, snapping, and Geoman disabling its own tool after a finish. A draw tool is an enable flag plus a creation event.
- `Search.ParseSearch`: infinite coordinates are not modelled. JavaScript's `parseFloat` accepts `"Infinity"` and turns an overflowing literal such as `"1e400"` into Infinity, so the page accepts `"Infinity, 0"` as a search and starts a flight. The model's `Option<real>` has no infinity and cannot express that case.
- Async interleaving is not modelled. Each handler runs to completion with its network outcome as a parameter, and a second event arriving during an `await` is not expressible.
- `MarsPage.MarsMapPage.SubmitLabel`: the reload it starts after a successful post is a separate `LoadLabels` call, not part of the method.
- `MarsPage.MarsMapPage.LoadLabels`: the URL it fetches is `/labeget-labels/user_id/…` (src/app/mars/page.tsx:169), while labels are posted under `/labels/add-labels` (src/app/mars/page.tsx:417). The load is therefore probably not answered by the label service. The reply is a parameter of the model, so which endpoint answers (or an error page) is not captured.
- The page's own map-info readout and its `mousemove` text (src/app/mars/page.tsx:134-145) are display formatting. They overlap `MapClient` and are not modelled.
- The `window.expandQuestion` stub, the question's `answers` and timestamps, and the popups are left out.
- `delay` in the store is timing only and is left out. The server-side-rendering branch `typeof window === "undefined"` is also left out.
- A stored entry that is not valid JSON is left out: `JSON.parse` would throw.
- A patch with a key present but set to `undefined` is not expressible: a patch field is either present with a value or absent.
- `Crud.PolygonCrud.UpdatePolygon`: one case is excluded by its requires. In that case the write succeeds, no record holds the id after the merge (the store never held it, or the patch gave it another id), and the cache still holds the id. The code asserts a match with `find(...)!`, and there it puts `undefined` into the cache entries that hold the id. A record has no `undefined` value in the model.
- `MapClient.MarsMapClient.UpdateMapInfo`: zoom is a natural number. Leaflet's fractional zoom is not modelled.
- The analysis button runs `clearSearch` (src/app/mars/page.tsx:576-582): there is no analysis behaviour to model (`analyseData` is empty, line 383).
- `Drawer.PolygonDrawer.EnableDrawing`: a drawing abandoned without a `CREATED` event leaves `isDrawingRef` set, so the button stays inert. Leaflet-draw's own cancel path is not modelled, so this appears only in the `EnableDrawing` contract: inert while drawing.
- `Drawer.PolygonDrawer.Unmount`: only the unmount run of the cleanup effect is modelled. Its re-run when `isControlAdded` turns true captures `false` and does nothing.
- Owner ids: `USER_ID` 102 and `"user_123"` are inputs or constants.
- Session storage is a map, and `JSON.stringify` of payloads is the request datatype.
- The redirect timer of the login page is a pending-redirect field.
