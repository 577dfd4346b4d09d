# Notes API, wallet context and request metrics

A Dafny model of the notes API server and the wallet context of a property-investment web front-end:

- **The notes service.**
  - The `Note` schema: required, trimmed title and content, a title of at most 200 characters, timestamps stamped by default and by the `pre('save')` hook.
  - The store the `Note` model is backed by.
  - The five handlers `createNote`, `getAllNotes`, `getNoteById`, `updateNote` and `deleteNote`, with their status codes, messages, `{id, title, content, createdAt, updatedAt}` projections and note counters.
  - The router's five (verb, path) bindings.
- **The request metrics.**
  - The active-connections gauge and the labelled request counter that `metricsMiddleware` maintains around every request.
  - The 0/1 database-status gauge.
  - The four note counters.
- **The wallet context.**
  - The state cells of `Web3Provider`: `account`, `chainId`, `isConnecting`, `error` and `provider`.
  - What connecting, disconnecting, the account and chain listeners and the mount-time check do to those cells.
  - The display helpers `formatAddress` and `getNetworkName`, and the derived `isConnected` and `networkName`.

Each stateful entity is a class whose methods update their fields in place:
- a mongoose document (`NoteModel.NoteDocument`);
- the collection (`NoteStore.NoteCollection`);
- the metric objects (`Metrics.Metrics`);
- the controller (`NotesController.Controller`);
- the wallet context (`Web3Context.WalletContext`).

Each method is proved equal to a pure function of the old state. Those functions carry the properties the code promises, and lemmas relate several calls: create then get, delete then 404, partial update, the full lifecycle.

Some inputs are parameters rather than modelled:
- the clock (`now`, the value of `Date.now()`);
- the id the driver generates for a new document (`newId`);
- whether a wallet is injected (`installed`);
- the wallet's answers to its requests.

Files: `wrappers.dfy` (Option), `note_model.dfy`, `note_store.dfy`, `metrics.dfy`, `notes_controller.dfy`, `notes_route.dfy`, `notes_api.dfy` (one request through middleware, router and controller), `web3_context.dfy`.

## Model

| member | source | states |
|---|---|---|
| NoteModel.Trim | server/models/Note.js:7 | the trimmed string has no whitespace at either end, is no longer than the input, and is empty exactly when the input is all whitespace |
| NoteModel.TrimCutsEdgeWhitespace | server/models/Note.js:13 | trimming removes only whitespace, and only from the two ends: the result is a contiguous slice with whitespace on both sides |
| NoteModel.TrimOfTrimmed | server/models/Note.js:7 | trimming an already trimmed string returns it unchanged, so reassigning a stored value keeps it |
| NoteModel.TrimStartDropsLeadingWhitespace | server/models/Note.js:7 | the leading pass keeps a suffix that does not start with whitespace and drops only whitespace |
| NoteModel.TrimEndDropsTrailingWhitespace | server/models/Note.js:13 | the trailing pass keeps a prefix that does not end with whitespace and drops only whitespace |
| NoteModel.CastObjectId | server/controllers/notesController.js:82 | the cast succeeds exactly for 24 hex digits of either case; the result is canonical lower-case hex of the same length; a canonical string casts to itself |
| NoteModel.LowerHex | server/controllers/notesController.js:82 | a hex digit maps to its lower-case form; lower-case digits are unchanged |
| NoteModel.Validate | server/models/Note.js:4-14 | no errors exactly when the title is present, non-empty and at most 200 characters and the content is present and non-empty; each failing path is named; at most two errors; an over-long title yields the length message |
| NoteModel.LongTitleRejected | server/models/Note.js:8 | a string longer than 200 characters after trimming is not empty and fails validation with "Note title cannot exceed 200 characters" |
| NoteModel.NoteDocument.constructor | server/models/Note.js:15-22 | a new document holds the trimmed title and content, with both timestamp defaults read as the single instant `now` (see the constructor line under Left out) |
| NoteModel.NoteDocument.FromStored | server/controllers/notesController.js:123 | the hydrated document holds exactly the stored note's values and is not new |
| NoteModel.NoteDocument.AssignTitle | server/controllers/notesController.js:134 | `note.title = title` sets the path to the setter's value (trimmed, or unset for `null`) and changes nothing else |
| NoteModel.NoteDocument.AssignContent | server/controllers/notesController.js:135 | `note.content = content` likewise for content |
| NoteModel.NoteDocument.AssignUpdatedAt | server/controllers/notesController.js:136 | sets `updatedAt` and nothing else |
| NoteModel.NoteDocument.PreSaveHook | server/models/Note.js:26-29 | re-stamps `updatedAt` with the current time; `createdAt` and every other path are untouched |
| NoteModel.NoteDocument.MarkPersisted | server/controllers/notesController.js:16-19 | an inserted document is no longer new |
| NoteStore.FindById | server/controllers/notesController.js:82-84 | a malformed id or a disconnected store throws (a cast error for the malformed id); otherwise the result is the note stored under the cast id, or absent exactly when no note is stored there |
| NoteStore.NotesIn | server/controllers/notesController.js:50 | lists the notes stored under the given ids, in that order, one per id when every id is stored, and nothing that is not stored |
| NoteStore.InsertNewestFirst | server/controllers/notesController.js:50 | inserting into a newest-first sequence keeps it newest-first and adds exactly that note to the multiset |
| NoteStore.SortNewestFirst | server/controllers/notesController.js:50 | `sort({createdAt: -1})` returns a permutation of its input, newest first |
| NoteStore.NewestFirstOrdersAllPairs | server/controllers/notesController.js:50 | newest-first between neighbours implies newest-first between any two positions |
| NoteStore.RemoveId | server/controllers/notesController.js:188 | removing an id keeps exactly the other ids, keeps them distinct, and shortens a distinct order by one when the id was present |
| NoteStore.SaveSpec | server/models/Note.js:3-29 | a save succeeds exactly when validation passes, the store is connected, and the id is free (new document) or still stored (existing document); a validation failure reports the schema errors; the saved note carries `updatedAt = now` and is inserted or overwritten |
| NoteStore.DeleteByIdSpec | server/controllers/notesController.js:188 | `findByIdAndDelete` succeeds exactly for a well-formed id on a connected store, and removes that id from the map and the natural order |
| NoteStore.SavePreservesValid | server/models/Note.js:3-29 | a successful save keeps every stored note well formed, indexed once, and stamped no later than `now` |
| NoteStore.InsertPreservesValid | server/controllers/notesController.js:16-19 | inserting a well-formed note under a fresh id keeps the collection invariant |
| NoteStore.InsertKeepsIndexed | server/controllers/notesController.js:16-19 | appending a fresh id keeps the natural order a duplicate-free list of the stored ids |
| NoteStore.ReplacePreservesValid | server/controllers/notesController.js:138 | overwriting a stored note with a well-formed one keeps the collection invariant |
| NoteStore.ReplaceKeepsIndexed | server/controllers/notesController.js:138 | overwriting a stored id leaves the index intact |
| NoteStore.PutKeepsNotesValid | server/models/Note.js:3-29 | writing a well-formed note under its own id keeps all notes well formed and stamped by `now` |
| NoteStore.RemovePreservesValid | server/controllers/notesController.js:188 | deleting an id keeps the collection invariant and the clock bound |
| NoteStore.RemoveKeepsIndexed | server/controllers/notesController.js:188 | deleting an id keeps the natural order a duplicate-free list of the remaining ids |
| NoteStore.RemoveKeepsCount | server/controllers/notesController.js:188 | after a delete the natural order is exactly as long as the map: an id leaves the order exactly when its note leaves the map |
| NoteStore.NoteCollection.constructor | server/models/Note.js:32 | the collection behind a newly registered `Note` model is empty, with the given connection state |
| NoteStore.NoteCollection.SetConnected | server/config/database.js:35-42 | the driver's disconnect/reconnect events change only the connection flag |
| NoteStore.NoteCollection.Save | server/controllers/notesController.js:138 | the imperative save (validate, pre-save hook, write) leaves the collection and the document exactly as `SaveSpec` says, with the stamp applied whenever validation passed |
| NoteStore.NoteCollection.FindByIdAndDelete | server/controllers/notesController.js:188 | the imperative delete leaves the collection as `DeleteByIdSpec` says and reports its failure |
| Metrics.GaugeCountsOpenRequests | server/config/metrics.js:94-117 | the gauge always reads its start value plus the requests started minus the requests finished |
| Metrics.GaugeRestoredWhenAllFinished | server/config/metrics.js:94-117 | once every started request has finished, in any interleaving, the gauge is back at its start value |
| Metrics.GaugeNeverBelowStart | server/config/metrics.js:94-117 | while no more requests have finished than started, the gauge never reads below its start |
| Metrics.Incremented | server/config/metrics.js:110-114 | the request counter goes up by exactly one under its label, and every other label is unchanged |
| Metrics.Bump | server/config/metrics.js:48-70 | one note counter goes up by one, the other three stay, and none decreases |
| Metrics.BumpIf | server/controllers/notesController.js:22 | a handler raises the note counters by at most one in total and never lowers any |
| Metrics.BumpAll | server/config/metrics.js:48-70 | any sequence of bumps never lowers a counter and raises the total by exactly its length |
| Metrics.Metrics.constructor | server/config/metrics.js:26-70 | every gauge and counter starts at 0 |
| Metrics.Metrics.ConnectionOpened | server/config/metrics.js:94 | the gauge goes up by one and records a start; nothing else changes |
| Metrics.Metrics.RequestFinished | server/config/metrics.js:96-118 | the finish handler counts the request under its label, then lowers the gauge by one, recording a finish |
| Metrics.Metrics.UpdateDbConnectionStatus | server/config/metrics.js:124-127 | the status gauge becomes 1 when connected and 0 otherwise; nothing else changes |
| Metrics.Metrics.IncNote | server/config/metrics.js:48-70 | exactly the named note counter goes up by one |
| NotesController.CreateNoteSpec | server/controllers/notesController.js:5-45 | 400 "Title and content are required" exactly when a field is falsy; 201 exactly when the schema accepts the trimmed values and the store takes the fresh id, inserting the note with both stamps at the single instant `now` (see the CreateNoteSpec line under Left out) and answering its projection; otherwise 500 "Error creating note"; only a 201 changes the store and bumps `notesCreated` |
| NotesController.GetAllNotesSpec | server/controllers/notesController.js:48-76 | the store is unchanged; 200 exactly when the store is reachable, with `count` equal to the number of projections, newest first, and a bump of `notesRetrieved`; otherwise 500 "Error retrieving notes" and no bump |
| NotesController.GetNoteByIdSpec | server/controllers/notesController.js:79-115 | the store is unchanged; 200 exactly when the note is found, with its projection and a bump; 404 "Note not found" exactly for a well-formed id with no note; 500 exactly when the id is malformed or the store unreachable |
| NotesController.UpdateNoteSpec | server/controllers/notesController.js:118-164 | 404 exactly when the note is absent; 200 exactly when it is found and the edited document saves, with the store and projection of that save and a bump of `notesUpdated`; 500 otherwise; nothing changes unless 200 |
| NotesController.DeleteNoteSpec | server/controllers/notesController.js:167-208 | 200 exactly when the note is found, removing it and answering the projection captured before removal, with a bump of `notesDeleted`; 404 exactly when absent; 500 with the lookup's failure otherwise; nothing changes unless 200 |
| NotesController.CreateThenGet | server/controllers/notesController.js:26-36 | after a 201, getting the reported id answers 200 with exactly the created projection |
| NotesController.DeleteThenNotFound | server/controllers/notesController.js:170-178 | after a successful delete, getting or deleting the same id answers 404 "Note not found" |
| NotesController.DeleteTouchesOnlyItsNote | server/controllers/notesController.js:188 | a successful delete removes exactly one id, leaves every other note identical, and keeps the collection valid |
| NotesController.UpdateIsPartial | server/controllers/notesController.js:133-138 | a successful update had no `null` field; it overwrites only the supplied fields with their trimmed values, keeps the id and `createdAt`, stamps `updatedAt = now`, answers what it stored, and leaves the other notes and the order alone |
| NotesController.UpdateAdvancesUpdatedAt | server/controllers/notesController.js:136 | when the clock has moved on, a successful update makes `updatedAt` strictly greater and keeps `createdAt` |
| NotesController.EmptyUpdateSucceeds | server/controllers/notesController.js:133-138 | an update supplying neither field succeeds on any stored note and only re-stamps it |
| NotesController.BlankTitleUpdateFails | server/controllers/notesController.js:156-163 | setting the title to `null`, `""` or whitespace is refused by the schema with the "Please enter note title" error: 500, store and counters unchanged |
| NotesController.CreateRefused | server/controllers/notesController.js:37-44 | a create whose document the store refuses answers 500 with that failure and changes nothing |
| NotesController.BlankTitleCreateFails | server/controllers/notesController.js:9-19 | a whitespace-only title passes the truthiness guard but fails the schema after trimming: 500 with the required-title error, not 400 |
| NotesController.LongTitleCreateFails | server/controllers/notesController.js:16-44 | a title over 200 characters after trimming fails the create with 500 and the length message |
| NotesController.ListingIsCompleteAndOrdered | server/controllers/notesController.js:50-67 | the listing holds the projection of every stored note, nothing else, as many entries as notes, newest first between any two positions |
| NotesController.EmptyListing | server/controllers/notesController.js:57-67 | an empty store lists as 200 with `count: 0, data: []` |
| NotesController.CreatePreservesValid | server/controllers/notesController.js:16-19 | every create keeps the collection valid and stamped by `now` |
| NotesController.UpdatePreservesValid | server/controllers/notesController.js:133-138 | every update keeps the collection valid and stamped by `now` |
| NotesController.DeletePreservesValid | server/controllers/notesController.js:188 | every delete keeps the collection valid |
| NotesController.Lifecycle | server/routes/notesRoute.test.js:370-403 | create, get, update of the title, delete and get answer 201, 200, 200 (new title, old content), 200 (updated snapshot) and 404 |
| NotesController.LifecycleUpdateStep | server/routes/notesRoute.test.js:370-403 | the update of the lifecycle answers the edited note, stores it, and its delete answers the same snapshot |
| NotesController.LifecycleOfTestNote | server/routes/notesRoute.test.js:370-403 | the lifecycle with "Lifecycle Note", "Testing CRUD" and "Updated Lifecycle" from an empty store |
| NotesController.HydrateEdited | server/controllers/notesController.js:123-136 | the document built in place is the stored note with only the supplied paths assigned and `updatedAt = now` |
| NotesController.Controller.constructor | server/controllers/notesController.js:1-2 | the controller's collection and metrics objects, with the collection invariant established |
| NotesController.Controller.CreateNote | server/controllers/notesController.js:5-45 | the imperative handler answers, changes the store and bumps the counters exactly as `CreateNoteSpec`, keeps the invariant and leaves the gauge alone |
| NotesController.Controller.GetAllNotes | server/controllers/notesController.js:48-76 | as `GetAllNotesSpec`, on the objects |
| NotesController.Controller.GetNoteById | server/controllers/notesController.js:79-115 | as `GetNoteByIdSpec`, on the objects |
| NotesController.Controller.UpdateNote | server/controllers/notesController.js:118-164 | as `UpdateNoteSpec`, assigning the document's paths in place before `save` |
| NotesController.Controller.DeleteNote | server/controllers/notesController.js:167-208 | as `DeleteNoteSpec`, with the projection captured before `findByIdAndDelete` |
| NotesRoute.MatchPattern | server/routes/notesRoute.js:13-25 | a literal pattern matches only its own path; a `:id` pattern matches only its prefix, `/` and a non-empty segment without `/`, which it captures |
| NotesRoute.MatchesItemPath | server/routes/notesRoute.js:19 | every such path matches, capturing the segment |
| NotesRoute.FirstMatch | server/routes/notesRoute.js:13-25 | the selected route is in the table, matches verb and path, captured the id, and no earlier route matches; nothing is selected exactly when no route matches |
| NotesRoute.CollectionBindings | server/routes/notesRoute.js:13-16 | `POST /notes` reaches `createNote`; `GET /notes` (and `HEAD`) reaches `getAllNotes` |
| NotesRoute.ItemPathMatches | server/routes/notesRoute.js:19-25 | `/notes/<id>` matches the item pattern with that id and not the collection pattern |
| NotesRoute.ItemBindings | server/routes/notesRoute.js:19-25 | on `/notes/<id>`, `GET`/`HEAD` reach `getNoteById`, `PUT` reaches `updateNote` and `DELETE` reaches `deleteNote` with that id; every other verb is unbound |
| NotesRoute.NothingElseBound | server/routes/notesRoute.js:13-25 | every dispatched request is one of the registered (verb, path) shapes and reaches the handler registered for it |
| NotesRoute.UnboundVerbs | server/routes/notesRoute.js:13-25 | `PATCH` and `OPTIONS` are never dispatched |
| NotesApi.RouteLabel | server/config/metrics.js:98 | a request taken by one of the router's routes is labelled `/notes` or `/notes/:id`, never by its concrete path; an unrouted request is labelled by its raw path |
| NotesApi.ServeSpec | server/config/metrics.js:96-114 | each request is counted under its verb, its route label and the final status code; an unrouted request gets 404, is labelled with its raw path, and changes nothing; a routed one is labelled `/notes` or `/notes/:id` |
| NotesApi.RunHandler | server/routes/notesRoute.js:13-25 | calling the matched route's handler on the objects does what that handler's spec says |
| NotesApi.Serve | server/config/metrics.js:90-121 | a full request leaves the active-connections gauge where it was, increments exactly one request label, and changes the store and note counters as the routed handler's spec says |
| NotesApi.DeleteThenGetOverHttp | server/routes/notesRoute.test.js:334-346 | when the delete handler removes the note, `DELETE /notes/<id>` is answered 200, and a later `GET /notes/<id>` answers 404 "Note not found" and is counted under `GET /notes/:id 404` |
| Web3Context.GetNetworkName | src/context/Web3Context.jsx:27-38 | the seven known chain ids map to their names; any other id maps to "Chain ID: " followed by the id |
| Web3Context.NetworkNamesAreDistinct | src/context/Web3Context.jsx:27-38 | different chain ids are never shown under the same name |
| Web3Context.KnownNamesAreNotChainIds | src/context/Web3Context.jsx:28-36 | no known network's name starts like the fallback text |
| Web3Context.ClampIndex | src/context/Web3Context.jsx:43 | `substring` clamps its start to the string: a negative start counts as 0, a start past the end as the end, and any start within the string is kept |
| Web3Context.FormatAddress | src/context/Web3Context.jsx:41-44 | empty for a missing or empty address; otherwise the first up-to-6 characters, "...", and the last up-to-4 characters; length 13 for addresses of 10 or more characters |
| Web3Context.NetworkName | src/context/Web3Context.jsx:167 | `networkName` is null exactly when `chainId` is null or empty; otherwise it is the chain's name, which is never empty |
| Web3Context.ConnectErrorMessage | src/context/Web3Context.jsx:79-83 | code 4001 shows the rejection message; other errors show their own message, or "Failed to connect wallet" when it is empty; the message is never empty |
| Web3Context.Connected | src/context/Web3Context.jsx:47-87 | without a wallet only the "MetaMask is not installed" error is set; with one, `isConnecting` ends false; an error shows exactly on the not-installed and refused paths; a refusal keeps the account, chain and provider, and 4001 shows the rejection message; a grant sets the first account, the chain and the provider, and connects exactly when that account is non-empty |
| Web3Context.Disconnected | src/context/Web3Context.jsx:90-96 | account, chain, provider and error become null, so the wallet is not connected and has no network name; `isConnecting` is kept |
| Web3Context.AccountsChanged | src/context/Web3Context.jsx:99-109 | an empty list disconnects (not connected, no network name); a non-empty list keeps the chain, provider and error, and, compared with the current account, leaves `account` as the list's first entry; `isConnecting` is never touched |
| Web3Context.StaleClosureHarmless | src/context/Web3Context.jsx:99-109 | the listener registered at mount compares with the initial null, yet ends in the same state as comparing with the current account |
| Web3Context.AccountSwitchKeepsChain | src/context/Web3Context.jsx:104-107 | an account switch keeps the chain, provider and error, and connects exactly when the new account is non-empty |
| Web3Context.ChainChanged | src/context/Web3Context.jsx:112-117 | `chainId` becomes the new id and every other cell (account, provider, error, `isConnecting`) is kept, so the network name becomes the new chain's name |
| Web3Context.Checked | src/context/Web3Context.jsx:132-151 | the mount check never touches the error or `isConnecting`; it changes the state only when a wallet is installed and lists an account, and then sets that account, the chain and the provider |
| Web3Context.ReconnectAfterDisconnect | src/context/Web3Context.jsx:47-96 | after a disconnect, a grant with a non-empty first account connects again, with no error, not connecting, on the granted network |
| Web3Context.WalletContext.constructor | src/context/Web3Context.jsx:15-19 | every state cell starts as `useState` initialises it |
| Web3Context.WalletContext.ConnectWallet | src/context/Web3Context.jsx:47-87 | the cells updated one by one end as `Connected` says |
| Web3Context.WalletContext.DisconnectWallet | src/context/Web3Context.jsx:90-96 | the cells end as `Disconnected` says |
| Web3Context.WalletContext.HandleAccountsChanged | src/context/Web3Context.jsx:99-109 | the listener as registered, comparing with the initial account, ends as `AccountsChanged` says |
| Web3Context.WalletContext.HandleChainChanged | src/context/Web3Context.jsx:112-117 | the cells end as `ChainChanged` says |
| Web3Context.WalletContext.CheckConnection | src/context/Web3Context.jsx:120-153 | the cells end as `Checked` says |

## Left out

- The `httpRequestDuration` and `dbQueryDuration` histograms and the `Date.now()` timing in `metricsMiddleware` (server/config/metrics.js:17-23, 81-87, 91, 97, 101-108): wall-clock floating-point seconds and prom-client bucket internals.
- The prom-client registry, default metrics and `errorCounter` (server/config/metrics.js:5-12, 73-78): library configuration. `errorCounter` is never incremented in the modelled files.
- Logging (`console.log`/`console.error` and the winston logger): output only.
- Database bootstrap and process handlers (server/config/database.js, server/server.js): only their effect on the connection flag and the status gauge is modelled, as `NoteCollection.SetConnected` and `Metrics.UpdateDbConnectionStatus`.
- ObjectId generation: the driver's generator is outside the code, so the fresh id is a parameter `newId` that must be canonical.
- NoteModel.CastObjectId: follows the current bson cast, which accepts exactly 24 hex digits. Older bson releases also accept any 12-character string as raw id bytes; that behaviour is not modelled.
- NoteModel.NoteDocument.constructor: the `createdAt` and `updatedAt` defaults (server/models/Note.js:17, 21) each read `Date.now()` on their own, and the `pre('save')` hook (server/models/Note.js:27) reads it again after validation. The model reads the clock once per handler call, so a created note has `createdAt == updatedAt` in the model. The code may store `createdAt < updatedAt` by the few milliseconds between those readings.
- NotesController.CreateNoteSpec: for the same reason, every `Date.now()` read within one create is the single instant `now`. The created projection has equal stamps, and so do the 201 bodies stated by CreateThenGet and Lifecycle. The code may answer `createdAt < updatedAt`. An update is exact: its own reading (server/controllers/notesController.js:136) is overwritten by the hook's, and only that last reading is stored.
- The clock: `Date.now()` is the parameter `now`. The controller requires `clock <= now`: the clock never runs backwards between two handler calls. This is an assumption about the environment, not a property of `Date.now()`, which is a wall clock and can step back (an NTP step or a manual reset). If it steps back between a create and an update, the code stores a note with `updatedAt < createdAt`. The model excludes that case, so the invariant `createdAt <= updatedAt` holds only under this assumption.
- Express details:
  - app.js, which mounts the router (the route tests mount it at `/api/v1`), is not part of this model, and paths are taken relative to the router.
  - Case-insensitive and trailing-slash route matching, percent-decoding of `:id`, and the automatic `OPTIONS` reply are not modelled.
  - An unrouted request is modelled only by its 404 status, not by the framework's body.
- Request bodies whose `title` or `content` is neither absent, `null` nor a string (numbers or objects that mongoose would cast): the JSON body is modelled as those three cases.
- The order of notes with equal `createdAt`: the database does not fix it. The model keeps their natural (insertion) order.
- The text of driver and validation error messages: a 500 carries the failure as a `StoreError` value, not the `error.message` string.
- Command buffering: with mongoose's default `bufferCommands`, an operation on a disconnected store is queued, for up to 10 seconds by default, and succeeds if the store reconnects in time. The model fails it at once with `Disconnected`.
- Aborted requests: Node emits no `finish` event for a request whose client aborts, so the code never lowers the active-connections gauge for it and never counts it. NotesApi.Serve always reaches `finish`; the gauge lemmas apply only to requests that finish.
- Concurrency: each handler runs atomically and the `await` points are not interleaved with other requests. The gauge trace lemmas do cover interleaved starts and finishes.
- String lengths are counted in characters, not UTF-16 code units. The same holds for `maxLength`, `trim` and `substring`.
- In the wallet context:
  - `window.open`, `location.reload`, ethers provider construction (an opaque `Web3Provider` token) and listener removal on unmount are not modelled.
  - The `useWeb3` hook's error outside a provider is not modelled.
  - Property lookups such as `networks["toString"]` that hit JavaScript's object prototype are not modelled.
- Web3Context.WalletContext.ConnectWallet: the intermediate render while the wallet requests are pending (`isConnecting` true, `error` null) is not observable in the model; only the final state of the cells is stated.
- NoteStore.FindById: the only store failure modelled besides an invalid id is a lost connection; other driver exceptions are not distinguished.
