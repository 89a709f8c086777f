# Route tracker: the client-visit roster, modelled in Dafny

A salesperson works through a fixed list of points of sale (clients). The page
keeps the roster in memory. It marks a client visited and captures a timestamp
and, when the device gives one, a location. It then lets the salesperson set the
sale outcome and a note on that visit. The roster is kept in one browser storage
slot and reloaded on the next start. A reset rebuilds the default roster.

The model has four modules:

- `Types` (types.ts): the value types `SaleStatus`, `Geolocation`, `Visit` and
  `Client`. A client is visited exactly when its `visit` is present. It also has
  the string tags of `SaleStatus`.
- `GeoHook` (hooks/useGeolocation.ts): the geolocation hook. The device is an
  input: whether the capability exists, and a sensor function that answers a
  request made with given options. `Resolve` is the pure classification.
  `LocationState.GetLocation` is the stateful hook method that sets
  `locationError`.
- `Roster` (App.tsx, the pure part): the roster is a `seq<Client>`. Marking,
  updating and the default roster are `map`s over it. It also holds the
  visited/total counts and the `find` of the selected client, with lemmas
  relating them.
- `AppState` (App.tsx, the stateful part): the class `App`. Its fields are
  `clients`, `isInitializing`, the storage slot `store` and the console
  `diagnostics`. Its methods are the load effect, the persistence effect and the
  three handlers. Each method's `ensures` gives the new state as a function of
  the old state (mostly through the `Roster` functions). Three client methods at the end run the start-up,
  permission-denied and reset scenarios through those contracts.

The list of default names comes from constants.ts, which is not part of this
model. The names are a parameter of `App` and of `Roster.DefaultRoster`.

A visit's `timestamp` and `location` are meant to stay fixed once the visit is
created. However, the update handler spreads a `Partial<Visit>` over the visit
(App.tsx:60-64), so a patch that carries either field replaces it. The model
follows the code. `Roster.VisitPatch` has all four fields, and `Roster.Merge`
lets every field the patch carries win. The client card only ever sends a new
sale status or a new note (components/ClientCard.tsx:76, 82, 95). For such safe
patches, `Roster.VisitFrozen` proves that timestamp and location never change.

## Model

| member | source | states |
|---|---|---|
| `Types.Tag` | types.ts:3-5 | every status has a non-empty string tag; `TagRoundTrip` proves the three are distinct |
| `Types.FromTag` | types.ts:2-6 | reading a tag back gives the status whose tag it is, and nothing for text that is no status's tag |
| `Types.TagRoundTrip` | types.ts:2-6 | every status survives the trip through its string tag, so the three tags are distinct |
| `GeoHook.ErrorMessage` | hooks/useGeolocation.ts:25-38 | permission denied, position unavailable and timeout each get their own message exactly for their code; every other code gets the unknown-error message; none is the not-supported message |
| `GeoHook.Resolve` | hooks/useGeolocation.ts:9-43 | every outcome resolves; a location exactly when the capability exists and the sensor gave a position (and then those coordinates); `locationError` cleared exactly then; "not supported" message when the capability is missing; a failed request leaves `ErrorMessage` of its code |
| `GeoHook.MessageIdentifiesKind` | hooks/useGeolocation.ts:10-38 | two outcomes leave the same `locationError` iff they are of the same kind (unsupported, denied, unavailable, timeout, other, success), so each error code has its own message |
| `GeoHook.LocationState.constructor` | hooks/useGeolocation.ts:6 | the hook starts with no location error |
| `GeoHook.LocationState.GetLocation` | hooks/useGeolocation.ts:8-44 | asks the sensor with high accuracy, 10000 ms timeout and maximum age 0; resolves with `Resolve`'s location and sets `locationError` to `Resolve`'s message |
| `Roster.DefaultRoster` | App.tsx:21 | one client per default name, the i-th with id i + 1, that name and no visit |
| `Roster.DefaultRosterFresh` | App.tsx:21 | the default roster has unique sequential ids 1..n, the default names in order, visited count 0 and total count n |
| `Roster.MarkVisited` | App.tsx:43-56 | ids and names keep their order; only the client with the id and no visit changes, and it gets a Pending visit with empty note, the given timestamp and the given location (absent included); every other client, an already-visited target included, is unchanged |
| `Roster.MarkVisitedIdempotent` | App.tsx:45 | marking twice equals marking once: the second call keeps the first visit with its timestamp and location |
| `Roster.UnknownIdIsNoOp` | App.tsx:43-67 | with an id no client has, marking and updating return the roster unchanged |
| `Roster.MarkVisitedNeverLowers` | App.tsx:43-56 | for any roster, duplicate ids included, marking never lowers the visited count |
| `Roster.MarkVisitedCount` | App.tsx:41-58 | with unique ids, marking raises the visited count by one iff the id exists and is unvisited, else keeps it |
| `Roster.Merge` | App.tsx:64 | for each of the four fields, a value the patch carries replaces the visit's, and a field the patch lacks keeps the visit's value |
| `Roster.MergeOverrides` | App.tsx:64 | the empty patch is the identity; applying a patch twice equals once; a later patch carrying every field wins outright over an earlier one; a safe patch keeps timestamp and location |
| `Roster.StatusPatch` | components/ClientCard.tsx:76-82 | the patch the status buttons send is safe and changes only `saleStatus` of any visit |
| `Roster.ObservationPatch` | components/ClientCard.tsx:95 | the patch the note field sends is safe and changes only `observation` of any visit |
| `Roster.UpdateVisit` | App.tsx:61-67 | ids and names keep their order; only the client with the id that has a visit changes, and its visit becomes the merge of the patch; clients with no visit or another id are unchanged |
| `Roster.UpdateUnvisitedIsNoOp` | App.tsx:63 | when no client with the id has a visit, updating returns the roster unchanged (no visit is created) |
| `Roster.UpdateVisitKeepsCount` | App.tsx:60-68 | updating never changes the visited count |
| `Roster.VisitedClients` | App.tsx:78 | the filtered list holds exactly the roster's visited clients and is no longer than the roster |
| `Roster.CountIsVisitedPositions` | App.tsx:78 | the filtered list's length is the number of roster positions that hold a visited client |
| `Roster.VisitedCount` | App.tsx:78 | the visited count shown is the number of roster positions holding a visited client |
| `Roster.TotalCount` | App.tsx:79 | the total count is never below the visited count |
| `Roster.CountBounds` | App.tsx:78-79 | visited count ≤ total count; visited count is 0 iff no client has a visit |
| `Roster.FindById` | App.tsx:80 | no result iff no client has the id; otherwise the first client with that id |
| `Roster.SelectedClient` | App.tsx:80 | no selection shows no client; a selected id that exists shows a client of the roster with that id |
| `Roster.Replay` | App.tsx:41-68 | any sequence of mark and update handlers preserves length, order, ids and names |
| `Roster.VisitFrozen` | App.tsx:41-68 | after any sequence of marks and safe updates, a client that had a visit still has one, with its original timestamp and location |
| `Roster.ReplayCountMonotone` | App.tsx:41-68 | for any roster, the visited count never decreases over any sequence of marks and updates |
| `AppState.LoadRoster` | App.tsx:16-25 | a slot holding a snapshot gives that roster; a missing slot, empty text or unreadable text gives the default roster |
| `AppState.LoadFallsBack` | App.tsx:15-29 | a stored snapshot loads as itself; a missing, empty or unreadable slot loads the default roster (sequential ids, no visits, one client per name) |
| `AppState.App.constructor` | App.tsx:10-13 | the first render has no clients, is initialising, and the location error is clear |
| `AppState.App.LoadEffect` | App.tsx:15-29 | the roster becomes the loaded one, initialisation ends on every path, only an unreadable slot is logged, nothing is thrown and the slot is not written |
| `AppState.App.PersistEffect` | App.tsx:31-39 | while initialising the slot is not touched; afterwards it holds the current roster, or on a failed write the slot and roster are kept and the failure is logged |
| `AppState.App.MarkVisited` | App.tsx:41-58 | the roster becomes `Roster.MarkVisited` with the location the hook resolved, and the hook's error is that outcome's |
| `AppState.App.UpdateVisit` | App.tsx:60-68 | the roster becomes `Roster.UpdateVisit` of the old one |
| `AppState.App.ClearData` | App.tsx:70-76 | when the slot can be removed, it is emptied and the roster is the default roster; when storage refuses the removal (App.tsx:72 is not guarded), the handler stops before the reset and the slot and roster stay as they were |
| `AppState.App.VisitedCount` | App.tsx:78-79 | the visited count shown never exceeds the total |
| `AppState.App.TotalCount` | App.tsx:79 | the total shown is the number of clients held, and never below the visited count |
| `AppState.StartWithCorruptStorage` | App.tsx:15-39 | starting over unreadable storage shows the default roster with no visits, logs once, and the first write replaces the bad text with that roster |
| `AppState.MarkWithoutPermission` | App.tsx:41-58 | with permission denied, marking an unvisited client still creates its Pending visit with no location, raises the visited count by one and sets the denial message |
| `AppState.ResetAfterVisits` | App.tsx:70-76 | after a reset the visited count is 0, the total is the number of default names, and the next load gives the default roster |

## Left out

- Rendering, markup, icons and styles of App.tsx and components/ClientCard.tsx: presentation only.
- The share message and link of components/ClientCard.tsx:20-41: a text template and browser calls.
- The card's `isProcessing` flag: a UI single-flight guard around the asynchronous mark.
- `AppState.App.ClearData`: when storage refuses the removal, the source raises an uncaught error out of the handler; the model keeps only its effect on the page state (slot and roster unchanged), not the error itself.
- `window.confirm` in the reset handler: `ClearData` is the confirmed branch. Declining does nothing.
- The `selectedClientId` state and its reset on clear: it is a UI selection. `Roster.SelectedClient` models only the lookup from an optional id.
- Browser storage, `JSON.parse`/`JSON.stringify` and `console.error`: the slot is one `Option<StoredValue>`. A parse failure, or a slot that cannot be read at all, is the `Malformed` value, and the console is the `diagnostics` list. Stored text that parses but is not a roster is not modelled, because the source does not check the shape.
- The storage key: the model has a single slot, so `LOCAL_STORAGE_KEY` is only a named constant.
- `new Date().toLocaleString('pt-BR')`: the timestamp is an opaque string parameter.
- The geolocation API itself, the timing of the 10-second timeout, and floating-point coordinates. The sensor is a function parameter, coordinates are copied `real`s, and error codes are integers 1-3 as the API defines them.
- Asynchrony of `handleMarkVisited`: the roster update is applied to the roster at the moment the location resolves, which is what the source's functional `setClients` update does. Interleaving with other handlers during the wait is not modelled.
- React's effect scheduling: the load and persistence effects are methods a caller runs. On mount React runs the load effect first, but the first persistence run sees the first render's values (still initialising). So the model runs that persistence call before the load, and the outcome is React's (see `AppState.StartWithCorruptStorage`).
