# A verified model of the drawing app's core

The app lets a signed-in user draw freehand strokes on a canvas, save the
drawing under their account, list their saved drawings on a dashboard and
pick one to reload. This project models the sequential logic behind that in
Dafny and proves properties about it:

- **Stroke capture** (`draw_new.dfy`, module `DrawNew`). The new-drawing page is a
  state machine. Its state is a tool tag, an `isDrawing` flag and an ordered list
  of lines `{tool, points}`. Mouse-down opens a line at the pointer. Mouse-move
  extends the last line, but only while drawing. Mouse-up closes the stroke.
  `Step`/`Run` specify the machine on values. The class `NewDrawing` holds the
  page's state, and its handlers update that state in place. The module also
  holds the tool → composite-mode mapping, the layer's shapes and the save
  request body.
- **Session-store slice** (`drawing_slice.dfy`, module `DrawingSlice`). This is the
  `userDrawings` slice: its initial state, its reducer `Reduce`, and the class
  `UserDrawings` whose setters each assign one field.
- **Dashboard** (`dashboard.dfy`, module `Dashboard`). This covers the mount effect:
  the redirect guard, then the fixed sequence of dispatches around the list
  request, as a trace of `Step`s. The network result is a parameter `Outcome`.
  The module also has the render priority and the record renaming done when a
  drawing is picked.
- **Save route** (`save_api.dfy`, module `SaveApi`). It routes on the HTTP method and
  on the returned id. `saveUserDrawing` appends one document to the
  `drawings` collection, which is modelled as a `seq<Doc>`.
- **List route** (`list_api.dfy`, module `ListApi`). It filters by `userId` equality,
  then projects each match into `{drawingId, userId, name, drawing}`, keeping
  store order. `MatchIndices` gives the positions of the matches. `MatchIndicesExact`
  characterises those positions without the recursion: ascending, in range, matching,
  and complete. That characterisation is what the listing lemmas are checked against.
- **Round trip** (`round_trip.dfy`, module `RoundTrip`). These are properties that cross
  components: save-then-list, isolation between users, and the trip of one
  drawing from the canvas to the dashboard's selection.

Shared values are in `documents.dfy`: documents, list records, requests, and JSON
responses with the status classes of RFC 9110, sections 15.3, 15.5 and 15.6.
`wrappers.dfy` holds `Option`, which stands for JavaScript's `null`.

Behaviours of the code that the model states outright:

- **Empty names are saved.** The name input has `required={true}` (src/pages/drawNew.js:113), but the input sits in no form, so nothing enforces it. `handleSaveDrawing` posts the field's text as it is (src/pages/drawNew.js:45-52), so `RoundTrip.CanvasToSelection` holds for the empty name too.
- **The tool can change mid-stroke.** The tool picker's `onChange` has no guard (src/pages/drawNew.js:70-72). What holds is that an open line's tag is never rewritten.
- **No `selectedDrawing` in the slice.** The slice defines only `drawings`, `loading` and `error`, with three setters (src/redux/slices/drawingSlice.js:3-25). The dashboard still imports a `setSelectedDrawing` (src/pages/dashboard.js:4).
- **Save errors are not caught.** The doc comment of `saveUserDrawing` promises `null` on error (src/pages/api/save.js:31), but nothing catches. The 500 branch of the save route is reached only by a falsy id.
- **The list route's 500 branch is unreachable** from a returned array, because every array is truthy (`ListApi.Handler` never answers 5xx).

## Model

| member | source | states |
|---|---|---|
| `DrawNew.Step` | src/pages/drawNew.js:17-41 | One event keeps "drawing implies a line exists" and keeps whole x,y pairs. It never removes a line or changes a line's tool. Points only grow at the end. No closed line changes. |
| `DrawNew.Run` | src/pages/drawNew.js:14-41 | Any sequence of events keeps "isDrawing implies at least one line". |
| `DrawNew.RunKeepsWellFormed` | src/pages/drawNew.js:14-41 | After any events, every line has an even number of points, at least 2, and drawing implies a line exists. |
| `DrawNew.RunNeverRemovesLines` | src/pages/drawNew.js:17-36 | The line count never decreases. An existing line's tool is never rewritten. Its points are only extended. |
| `DrawNew.RunKeepsFrozenLines` | src/pages/drawNew.js:23-41 | Lines closed before the events are unchanged after them. Only the open last line ever changes. |
| `DrawNew.StrokeAccumulates` | src/pages/drawNew.js:17-36 | Down at (x0,y0) then move to (x1,y1) adds exactly one line `{tool, [x0,y0,x1,y1]}`. Earlier lines are unchanged. |
| `DrawNew.MovesAfterUpChangeNothing` | src/pages/drawNew.js:23-41 | After mouse-up, any number of mouse-moves leave the lines and the flag unchanged. |
| `DrawNew.IdleMovesChangeNothing` | src/pages/drawNew.js:23-27 | Mouse-moves while not drawing change nothing. |
| `DrawNew.ToolAppliesToLaterLines` | src/pages/drawNew.js:69-72 | After choosing a tool, the next mouse-down opens a line with that tool. Existing lines are unchanged. |
| `DrawNew.CompositeOp` | src/pages/drawNew.js:98-100 | The mode is `"destination-out"` exactly when the tool is `"eraser"`, else `"source-over"`. |
| `DrawNew.Shapes` | src/pages/drawNew.js:89-102 | There is one shape per line, in order, with that line's points. Its mode is `CompositeOp` of its tool: `"destination-out"` for eraser lines, `"source-over"` for all others. |
| `DrawNew.SaveDrawingRequest` | src/pages/drawNew.js:43-52 | A POST whose body is exactly `userId`, `drawingName`, `drawingData`, unmodified and unvalidated. |
| `DrawNew.NewDrawing.constructor` | src/pages/drawNew.js:13-15 | The tool is `"pen"`, there are no lines, and the page is not drawing. |
| `DrawNew.NewDrawing.HandleMouseDown` | src/pages/drawNew.js:17-21 | Sets `isDrawing` and appends `{tool, [x, y]}`. Earlier lines and the tool are unchanged. |
| `DrawNew.NewDrawing.HandleMouseMove` | src/pages/drawNew.js:23-37 | When not drawing, nothing changes. Otherwise it appends `[x, y]` to the last line only, and the count is unchanged. |
| `DrawNew.NewDrawing.HandleMouseUp` | src/pages/drawNew.js:39-41 | Clears `isDrawing`. The lines and the tool are unchanged. |
| `DrawNew.NewDrawing.SetTool` | src/pages/drawNew.js:69-72 | Sets the tool only. No existing line is touched. |
| `DrawingSlice.Reduce` | src/redux/slices/drawingSlice.js:13-21 | The new state holds the action's payload in the field the action targets. The other two fields are unchanged. |
| `DrawingSlice.ReduceWritesOneField` | src/redux/slices/drawingSlice.js:13-21 | Each action leaves the two fields it does not target unchanged. |
| `DrawingSlice.ReduceIdempotent` | src/redux/slices/drawingSlice.js:13-21 | Applying an action twice gives the same state as applying it once. |
| `DrawingSlice.LaterActionWins` | src/redux/slices/drawingSlice.js:13-21 | Of two actions on the same field, the second determines the state. |
| `DrawingSlice.DistinctFieldsCommute` | src/redux/slices/drawingSlice.js:13-21 | Actions on different fields commute. |
| `DrawingSlice.UserDrawings.constructor` | src/redux/slices/drawingSlice.js:3-7 | The initial state is `drawings = []`, `loading = false`, `error = null`. |
| `DrawingSlice.UserDrawings.SetDrawings` | src/redux/slices/drawingSlice.js:13-15 | `drawings := payload`. `loading` and `error` are unchanged. |
| `DrawingSlice.UserDrawings.SetLoading` | src/redux/slices/drawingSlice.js:16-18 | `loading := payload`. `drawings` and `error` are unchanged. |
| `DrawingSlice.UserDrawings.SetError` | src/redux/slices/drawingSlice.js:19-21 | `error := payload`. `drawings` and `loading` are unchanged. |
| `DrawingSlice.UserDrawings.Dispatch` | src/redux/slices/drawingSlice.js:9-25 | Dispatching any of the three exported actions gives the reducer's new state. |
| `Dashboard.ListUrl` | src/pages/dashboard.js:41 | The URL is the list endpoint followed by the uid as the `userId` parameter, unencoded. |
| `Dashboard.EffectSteps` | src/pages/dashboard.js:25-54 | The trace is never empty. A step is a redirect exactly when there is no user. |
| `Dashboard.Replay` | src/pages/dashboard.js:40-52 | Steps that dispatch nothing (the redirect, the request) leave the store unchanged. |
| `Dashboard.EffectOutcome` | src/pages/dashboard.js:25-54 | With no user, the store is unchanged. When ok, `drawings := data` and `loading := false`. When not ok, `error := "Failed to fetch user data"`. When a throw happens, `error := message`. |
| `Dashboard.EffectOrder` | src/pages/dashboard.js:25-54 | With no user, the only step is a redirect to `/login`: no fetch and no dispatch. Otherwise `setLoading(true)` comes first, the one request second, and `setLoading(false)` last. |
| `Dashboard.EffectClearsLoading` | src/pages/dashboard.js:51-53 | `loading` is false after the effect, whatever the outcome. |
| `Dashboard.EffectFieldFrames` | src/pages/dashboard.js:43-50 | An ok response replaces `drawings` and leaves `error`. Otherwise `error` is set and `drawings` is kept. |
| `Dashboard.Render` | src/pages/dashboard.js:59-106 | Loading exactly when `loading` is set. Otherwise the error view exactly when `error` is truthy. Then "Redirecting..." without a user, else the list. |
| `Dashboard.SettledEffectNeverShowsLoading` | src/pages/dashboard.js:51-61 | After the effect, a signed-in user is never shown "Loading...". |
| `Dashboard.CleanOkShowsList` | src/pages/dashboard.js:38-65 | With no prior error, an ok response renders exactly the fetched list. This includes `[]`. |
| `Dashboard.NotOkShowsFailure` | src/pages/dashboard.js:46-65 | A non-ok response renders the error view with "Failed to fetch user data". |
| `Dashboard.StaleErrorHidesList` | src/pages/dashboard.js:43-65 | Nothing clears `error`, so an earlier error still hides a later successful list. |
| `Dashboard.Effect` | src/pages/dashboard.js:25-57 | Runs the guard and the dispatches on the session store. Its trace is `EffectSteps`, and the store ends as the replay of those dispatches. |
| `Dashboard.Selection` | src/pages/dashboard.js:94-101 | A record maps to `{id: drawingId, name: name, jsonData: drawing}`. |
| `Dashboard.SelectionIgnoresOwner` | src/pages/dashboard.js:96-100 | The selection does not depend on the record's `userId`. |
| `SaveApi.Respond` | src/pages/api/save.js:14-27 | A method other than POST gives 400 "Bad request". A POST with a truthy id gives 200 "Drawing saved successfully". A POST with a falsy id gives 500 "Error saving drawing". These are the 4xx, 2xx and 5xx classes exactly. |
| `SaveApi.NewDoc` | src/pages/api/save.js:40-44 | The document holds the store's id, `userId`, `name: drawingName` and `drawing: drawingData`. |
| `SaveApi.Saved` | src/pages/api/save.js:15-17 | A POST adds exactly one document, `NewDoc` of the body, at the end. Any other method adds none. Existing documents stay in place. |
| `SaveApi.SavedKeepsIdsUnique` | src/pages/api/save.js:40-46 | With a store-generated fresh id, document ids stay unique. |
| `SaveApi.DrawingsCollection.SaveUserDrawing` | src/pages/api/save.js:38-47 | Appends exactly `{userId, name: drawingName, drawing: drawingData}` and returns the id of that new last document. |
| `SaveApi.DrawingsCollection.Handler` | src/pages/api/save.js:14-27 | The collection becomes `Saved(old, req, id)`, which leaves it unchanged for non-POST. The answer is `Respond`'s. |
| `ListApi.Project` | src/pages/api/list.js:41-46 | The record is `{drawingId: doc.id, userId, name, drawing}` copied from the document. |
| `ListApi.Matching` | src/pages/api/list.js:36-40 | Every selected document is in the store and has the queried `userId`. |
| `ListApi.GetUserDrawings` | src/pages/api/list.js:34-49 | The listing is no longer than the store, and every record carries the queried `userId`. One record per match, in order, is proved in `ListIsOrderedSelection`. |
| `ListApi.RespondWith` | src/pages/api/list.js:17-21 | A truthy result gives 200 with the array. A falsy one gives 500 "Error fetching your drawings". |
| `ListApi.Handler` | src/pages/api/list.js:12-25 | Non-GET gives 400 "Bad request", and it is never 5xx. GET gives 200 with `GetUserDrawings`. It only reads the store, so two calls with no save between are equal. |
| `ListApi.MatchIndicesExact` | src/pages/api/list.js:36-39 | The reference indices ascend and are exactly the positions with the queried `userId`. |
| `ListApi.MatchingAtIndices` | src/pages/api/list.js:36-40 | The query's k-th result is the document at the k-th matching position. |
| `ListApi.ListIsOrderedSelection` | src/pages/api/list.js:36-46 | The listing is exactly the matching documents, projected, one per match, in store order. |
| `ListApi.ListedIffStored` | src/pages/api/list.js:36-46 | A record is listed if and only if a matching document projects to it. |
| `ListApi.ListAfterAppend` | src/pages/api/list.js:36-46 | Listing after one more document gives the old listing plus that document if it matches. |
| `ListApi.NoMatchListsEmpty` | src/pages/api/list.js:13-21 | When nothing matches, GET still answers 200 with `[]`. |
| `RoundTrip.OutcomeOf` | src/pages/dashboard.js:41-48 | `res.ok` means a 2xx status, and then the data is the response's array. Otherwise the effect sees "not ok". |
| `RoundTrip.SaveThenList` | src/pages/api/save.js:38-46 | After a save, the owner's listing contains the record with the new id, the name and the scene saved. In the model's insertion order it equals the old listing plus that record. |
| `RoundTrip.SaveIsolation` | src/pages/api/list.js:36-39 | A save never changes another user's listing, and a non-POST changes no listing. |
| `RoundTrip.CanvasToSelection` | src/pages/drawNew.js:43-52 | The page's request, saved then listed and then picked on the dashboard, yields the same id, name and scene, even for an empty name. |
| `RoundTrip.DashboardShowsStoredDrawings` | src/pages/dashboard.js:38-65 | With no prior error, the dashboard lists exactly the user's stored drawings in store order. |
| `RoundTrip.NoDrawingsShowsEmptyList` | src/pages/api/list.js:13-21 | A user with no drawings sees an empty list and no error. |

## Left out

- Rendering, styling and the JSX of every page are left out. Only the composite mode and the points of each `<Line>` are modelled.
- React's scheduling is left out. The handlers read `lines` from the last render, and `setLines` is batched. The model processes events one at a time, each seeing the latest state.
- The shared line object is not modelled: mouse-move mutates the last line and reuses it in the new array. Lines are values here, so that aliasing is not captured.
- A mouse-move with `isDrawing` set and no line would throw. `Step` requires `Consistent`, which every event keeps, so this state is never reached.
- Pointer positions are floats in the browser. They are `int` here.
- `stage.toJSON()` and the replay through `Konva.Node.create` are left out (src/pages/loadDrawing.js is not part of this model). The scene is an opaque string, and no round trip of its structure is claimed.
- `handleSaveDrawing` reads `user.uid` even with no user, which throws. `SaveDrawingRequest` takes the uid as given.
- The save request value carries the method and the body, but not the URL `http://localhost:3000/api/save`.
- After a save, the page parses the response, navigates to `/dashboard` or logs a network error. That navigation and logging are not modelled.
- Real HTTP, `fetch`, JSON parsing and async ordering are replaced by the `Outcome` parameter and by plain request values. The `userId` query string is not URL-encoded in the model.
- Firestore is abstracted. The generated id is the parameter `autoId`. The document sequence is kept in insertion order, and the listing follows that order. Firestore returns query results ordered by document id, and that order is not modelled. So "last in the listing" is a statement about the model only. Membership (`RoundTrip.SaveThenList`, `ListApi.ListedIffStored`) holds in any order. Exceptions thrown by `addDoc` or `getDocs` escape the handlers uncaught and are not modelled.
- Missing or non-string fields in request bodies are not modelled: every field is a string.
- The dashboard imports `setSelectedDrawing`, which the slice does not export. `Dashboard.Selection` models only the renaming of `handleLoadDrawing`. The dispatch is not modelled, and neither is the JSON round trip through the `data-drawing` attribute.
- The effect re-runs when `user`, `dispatch` or `router` changes. The model covers one run, and late responses after unmounting are not modelled.
- Logout (`handleLogout`), login, signup, `_app.js` and `store.js` are left out: they are calls into Firebase Auth and provider wiring.
