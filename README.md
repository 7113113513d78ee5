# Realtime Notes: a verified model of the server's record lifecycle and the client's view state

Realtime Notes keeps notes and note groups in two MongoDB collections. It serves them over a small
JSON API from `index.js` and broadcasts every change over Socket.IO. A single-page client,
`public/js/main.js`, lists, filters, searches, selects and batch-edits the notes, and reloads when a
broadcast arrives.

This project models both sides in Dafny.

- **`Server`** (server.dfy) is `index.js`.
  - The `notes` and `groups` collections are two maps inside a `Store` class.
  - Every `/api/groups` and `/api/notes` route handler is a method of `Store`. It returns `Ok`,
    `BadRequest`, `NotFound` or `ServerError` (a handler that throws).
  - Each `app.io.emit` is one entry appended to the store's `events` log.
  - Timestamps are an integer `now`.
  - `new ObjectId(text)` is the store's `parseId`, which gives `None` where the driver throws.
    The lemmas that read ids back assume only that it returns the ObjectId whose text it is given
    when that text is well-formed (24 lower-case hexadecimal digits, `Wire.WellFormedId`), as every
    id the driver generates is. It may reject any other text; `Server.HexParse`, which is stricter than the driver and also rejects upper-case digits, is such a parser.
  - The pure parts (`toId`, serialization, the `$set` documents, the batch actions, the list filter and
    sort orders) are functions with lemmas about them.
- **`Client`** (client.dfy) is `main.js`.
  - The global `state`, the select-all checkbox and the socket flag are the fields of a
    `ClientState` class. Its methods are the handlers that change them.
  - The decisions made on that state are functions:
    - which query parameters a view sends, and which fetched notes `loadNotes` keeps;
    - which toolbar buttons exist and when they are enabled;
    - what a card action does after its request;
    - which reloads a socket event or a poll tick starts;
    - the theme cycle, `escapeHtml` and `idOf`.
- **`EndToEnd`** (end_to_end.dfy) connects the two sides:
  - the query each client view sends selects the notes that view is meant to show;
  - the ids the client sends back address the notes they came from;
  - every toolbar action names a batch action the server accepts;
  - the server's 404 reply text is the one the client treats as a stale card.
- **`Scenarios`** (scenarios.dfy) runs request sequences against a fresh store and states the outcome:
  - soft-delete then restore;
  - permanent delete twice;
  - the group-delete guard;
  - a batch with unknown and malformed ids.
- **`Wire`**, **`Sorting`** and **`BsonOrder`** (wire.dfy, sorting.dfy, bson_order.dfy) hold shared pieces:
  - JSON values with JavaScript truthiness, the forms an id takes, and `includes`;
  - insertion into a sorted list;
  - the order in which Mongo sorts mixed field values.

Request bodies are `Json` values in which `Undefined` marks an absent field. This keeps the source's
`!title`, `!!isDone`, `color || '#64748b'` and `!== undefined` tests exact.

An id taken from the URL path is parsed with `new ObjectId(id)` outside any `try`, so an unparseable
path id makes the handler throw. The model answers `ServerError` there. Ids in a batch, in a list
query or in a note's `groupId` are parsed inside a `try`. The model drops them, ignores them, or
stores null, as the source does.

Three replies are modelled as the code writes them:

- restore replies `{ ok: true }` without the note;
- deleting a group that still has live notes is a 400;
- a batch reply carries no count.

One consequence of the selection rule is stated as a lemma rather than a finding.
`Client.StaleSelectionChecksSelectAll` shows that `selected` can keep an id whose note a reload
removed. Select-all is then checked while a listed note is unselected.
`Scenarios.StaleSelectionReachable` reaches that state through the client's own handlers. While the selection holds
only listed ids, `Client.SelectAllMeaning` proves that the rule means "every listed note is
selected".

## Model

| member | source | states |
|---|---|---|
| Wire.ContainsAt | public/js/main.js:453-454 | `includes` holds whenever the searched text occurs at some position of the text |
| Wire.ContainsOccurrence | public/js/main.js:453-454 | when `includes` holds, the searched text occurs at some position of the text |
| Wire.ContainsMeaning | public/js/main.js:453-454 | `includes` holds exactly when the searched text occurs at some position of the text |
| Sorting.Insert | index.js:144-147 | inserting into a list sorted by a total preorder adds exactly that element (as a multiset) and keeps the list sorted |
| Sorting.NoDuplicates | index.js:144-147 | a list with the multiplicities of a set repeats no element, so a listing shows each document once |
| BsonOrder.StrLeTotal | index.js:85 | any two strings are ordered one way or the other by the code-point order |
| BsonOrder.StrLeTransitive | index.js:85 | the string order is transitive |
| BsonOrder.JsonLeTotal | index.js:85 | any two field values are comparable in Mongo's ascending order (type rank first) |
| BsonOrder.JsonLeTransitive | index.js:85 | the field-value order is transitive |
| Server.ToIdIdempotent | index.js:45-51 | `toId` is null exactly for a missing or empty id, and applying it again to its text changes nothing |
| Server.SerializeNoteRoundTrip | index.js:52 | serializing a note with well-formed ids loses nothing: its id and group reference parse back to the stored note |
| Server.HexParseIsCanonical | index.js:245-247 | the assumption on the driver's parser admits a parser that rejects malformed text such as `not-an-id`, so the scenarios' preconditions can be met |
| Server.NewGroup | index.js:94-96 | a new group keeps the given name, gets `createdAt = updatedAt = now`, and gets the default colour `#64748b` exactly when none is given |
| Server.GroupPatchFields | index.js:109-115 | a group patch is empty iff neither field is present; otherwise it rewrites exactly the present fields and stamps `updatedAt` |
| Server.LiveNotesAfterSoftDelete | index.js:126-127 | soft-deleting a note removes exactly that note from its group's blocking set; restoring puts it back |
| Server.GroupRef | index.js:161 | a falsy `groupId` stores null; a truthy one stores what it parses to, which is null where the parse throws |
| Server.NewNote | index.js:155-169 | a created note keeps the title, is not done, not deleted, has no `deletedAt`, has `createdAt = updatedAt = now`, content defaults to `''`, and the group is the parsed `groupId` or null |
| Server.NotePatchFields | index.js:179-188 | a note patch is empty iff no field is present; otherwise it changes only the present fields, coerces `isDone` to a boolean, turns a falsy or unparseable `groupId` into null, keeps the rest, stamps `updatedAt` and keeps `deletedAt` consistent |
| Server.SoftDeleteRestoreRoundTrip | index.js:202-220 | restoring a soft-deleted live note gives back the original note except for `updatedAt`; a soft-deleted note is deleted and has `deletedAt` set |
| Server.ActionOf | index.js:250-273 | a recognised batch action is exactly the string naming it; anything else goes to the `default` branch |
| Server.ActionNameRoundTrip | index.js:250-273 | each of the five action names is recognised as its action |
| Server.ParsedIds | index.js:245-247 | the batch targets are exactly the ids that parse; the others are dropped |
| Server.ApplyBatch | index.js:250-270 | notes not targeted are untouched; `permanent-delete` removes exactly the targeted notes; the other actions apply their `$set` to every targeted note; every note keeps `deletedAt` consistent |
| Server.QueryFilterMeaning | index.js:139-143 | `deleted=true` lists exactly the soft-deleted notes; otherwise exactly the live ones, restricted to a `groupId` that is present, not `all` and parseable |
| Server.NewerFirstIsTotalPreorder | index.js:146 | sorting by `updatedAt` descending is a total preorder |
| Server.ByNameIsTotalPreorder | index.js:85 | sorting groups by name ascending is a total preorder |
| Server.GroupListing | index.js:82-88 | a name-sorted selection of every group, serialized, contains exactly the summaries of the stored groups, each id once, in ascending name order |
| Server.NoteListing | index.js:144-149 | a sorted selection of the notes a filter lists, serialized, contains exactly those notes, each id once, with `updatedAt` never increasing |
| Server.Store.constructor | index.js:37-42 | the store starts with empty collections and an empty event log |
| Server.Store.ListGroups | index.js:81-89 | the reply lists exactly the stored groups as `{_id, name, color}`, each id once, sorted by name |
| Server.Store.CreateGroup | index.js:91-102 | no name gives 400 with no change; otherwise the group is inserted with its defaults and one `groups:changed` created event is broadcast |
| Server.Store.PatchGroup | index.js:104-119 | no field gives 400, an unparseable id 500, an unknown group 404, all with no change; otherwise only that group is updated and one event is broadcast |
| Server.Store.DeleteGroup | index.js:121-132 | 400 iff a live note is in the group, else 404 for an unknown group, else only that group is removed and one event is broadcast; notes are never touched |
| Server.Store.ListNotes | index.js:135-150 | the reply lists exactly the notes the query selects, serialized, each id once, newest `updatedAt` first |
| Server.Store.CreateNote | index.js:152-173 | no title gives 400 with no change; otherwise the note is inserted with its defaults and one `notes:changed` created event is broadcast |
| Server.Store.PatchNote | index.js:175-194 | no field gives 400, an unparseable id 500, an unknown note 404, all with no change; otherwise only that note is patched and one event carries it |
| Server.Store.SoftDeleteNote | index.js:197-210 | an unknown note gives 404 with no change; otherwise only that note is moved to the bin and one event carries its id |
| Server.Store.RestoreNote | index.js:213-226 | an unknown note gives 404 with no change; otherwise only that note is restored and one event carries it |
| Server.Store.PermanentDeleteNote | index.js:229-237 | an unknown note gives 404 with no change; otherwise only that note is removed, in the bin or not, and one event carries its id |
| Server.Store.Batch | index.js:240-276 | missing or empty `ids` gives 400, an unknown action 400, both with no change; otherwise the collection becomes `ApplyBatch` over the parsed ids and one event carries the ids as sent |
| Client.IdOf | public/js/main.js:871-874 | `idOf` takes the `$oid` text of an extended-JSON id and leaves any other id as it is |
| Client.IdOfIdempotent | public/js/main.js:871-874 | `idOf` applied twice equals `idOf` applied once, and a text id is its own `idOf` |
| Client.EscapeHtml | public/js/main.js:876-878 | the escaped text contains no `<`, `>`, `"` or `'` |
| Client.EscapeHtmlRoundTrip | public/js/main.js:876-878 | decoding the five entities gives back the original text, so every other character is unchanged |
| Client.UnescapeEscapedChar | public/js/main.js:877 | each character's replacement decodes back to that character, whatever follows it |
| Client.NextTheme | public/js/main.js:84-88 | the next theme is always light, dark or system |
| Client.ThemeCycle | public/js/main.js:85-86 | toggling cycles light, dark, system with period three, and an absent setting behaves as system |
| Client.DarkModes | public/js/main.js:66 | the page is dark iff the mode is dark, or system with a dark OS preference |
| Client.QueryParamsCases | public/js/main.js:446-448 | `deleted` sends only `deleted=true`; `all` and `ungrouped` send nothing; any other filter sends only `groupId` |
| Client.SubsequenceReflexive | public/js/main.js:450 | a list is a subsequence of itself (no filtering keeps the list as fetched) |
| Client.SubsequenceTransitive | public/js/main.js:451-455 | filtering a filtered list still gives a subsequence of the fetched list |
| Client.SubsequenceMembers | public/js/main.js:451-455 | every kept note is a fetched note |
| Client.Filter | public/js/main.js:451 | `filter` keeps order, keeps every passing element as often as it occurs, and drops every other element |
| Client.SearchFilter | public/js/main.js:452-455 | the search keeps, in order and with their multiplicities, exactly the notes whose title or stripped content includes the search; it throws iff some note has a truthy non-string title |
| Client.VisibleNotes | public/js/main.js:450-456 | the kept notes are, in order and with their multiplicities, exactly the fetched notes that pass the `ungrouped` test (in that view) and the search (when one is set); filtering throws iff a search is set and some note that passes the `ungrouped` test has a truthy non-string title; with no search every other view keeps the list as fetched |
| Client.VisibleIdsCount | public/js/main.js:630 | with distinct ids, the listed notes have as many ids as there are notes |
| Client.SelectAllMeaning | public/js/main.js:526 | while the selection holds only listed ids, select-all is checked iff notes are listed and all of them are selected |
| Client.StaleSelectionChecksSelectAll | public/js/main.js:526 | a selected id that is no longer listed can check select-all while a listed note is unselected |
| Client.SearchLeavesNonMatches | public/js/main.js:730-733 | a listed note titled "milk" does not match the search "eggs" |
| Client.Toolbar | public/js/main.js:636-696 | every selection-bound button is enabled iff the selection is non-empty; "Empty Recycle Bin" is always enabled |
| Client.ToolbarActions | public/js/main.js:641-695 | the bin view offers restore, delete forever and empty bin; every other view offers mark done, mark undone and delete |
| Client.EmptyBinRequest | public/js/main.js:661-678 | "Empty Recycle Bin" sends the id of every listed note, in order, without an alert; when none is listed it sends nothing and alerts "Recycle bin is already empty." |
| Client.EmptyBinOutcome | public/js/main.js:663-675 | success reloads the notes; failure alerts "Empty recycle bin failed: " with the message and does not reload |
| Client.SocketReloadsExactly | public/js/main.js:204-217 | notes reload on `notes:changed` and `reconnect` only, groups on `groups:changed` and `reconnect` only, and no socket event alerts |
| Client.CardOutcome | public/js/main.js:530-623 | a card action reloads iff it succeeded or (not being an edit save) its failure message includes "note not found"; it alerts with the action's prefix exactly when it does not reload |
| Client.ClientState.constructor | public/js/main.js:7-14 | the view starts on `all` with an empty search, no selection, no notes, before the first load and disconnected |
| Client.ClientState.SetFilter | public/js/main.js:418-428 | switching view empties the selection, unchecks select-all and reloads the notes |
| Client.ClientState.SetSearch | public/js/main.js:730-733 | the search becomes the trimmed, lower-cased input, and nothing else changes |
| Client.ClientState.SearchAndReload | public/js/main.js:730-733 | with the reload added, the notes shown afterwards are the list `VisibleNotes` keeps (order and copies included), which holds exactly the fetched notes that pass the view's test and match the search; a throwing filter keeps the list; the first load is then done |
| Client.ClientState.FinishLoadNotes | public/js/main.js:443-466 | a successful load shows exactly `VisibleNotes` of the fetched data; a failed one keeps the list; the loader is hidden on the first load only |
| Client.ClientState.ToggleNote | public/js/main.js:523-528 | a checkbox adds or removes exactly that note's id, and select-all is recomputed by the size rule |
| Client.ClientState.SelectAllChange | public/js/main.js:629-634 | checking select-all adds every listed id; unchecking empties the selection |
| Client.ClientState.SelectedIds | public/js/main.js:707 | `Array.from(state.selected)` lists each selected id exactly once |
| Client.ClientState.StartBatch | public/js/main.js:706-711 | a batch sends `{action, ids}` with exactly the selected ids, each once, or with nothing selected sends no request and alerts "No notes selected." |
| Client.ClientState.FinishBatch | public/js/main.js:713-726 | after a batch attempt, successful or not, the selection is empty, select-all unchecked and the notes reloaded; a failure alerts "Batch action failed: " |
| Client.ClientState.OnSocketEvent | public/js/main.js:195-217 | `connect` and `disconnect` set and clear the connected flag, other events leave it, and each event starts its reloads |
| Client.ClientState.PollTick | public/js/main.js:220-226 | a poll tick reloads notes iff disconnected, and groups iff disconnected and the random draw says so |
| EndToEnd.ListedNoteView | index.js:52 | the client's `idOf` of a listed note is its ObjectId text, and the note is ungrouped for the client iff the server stores no group |
| EndToEnd.Lookup | index.js:137 | a query parameter read by the server is one the client sent under that key |
| EndToEnd.ViewQuerySelects | public/js/main.js:446-449 | the bin view lists exactly the soft-deleted notes, `all` and `ungrouped` exactly the live notes, and a group view the live notes of that group (all live notes if its id does not parse) |
| EndToEnd.SentIds | public/js/main.js:661 | the client sends one id per listed note |
| EndToEnd.SentIdsAddressListed | index.js:245-247 | the ids the client sends for listed notes make a batch act on exactly those notes |
| EndToEnd.ToolbarActionsRecognised | public/js/main.js:641-695 | every toolbar request names a batch action the server recognises, and the intended one |
| EndToEnd.StaleCardReloads | public/js/main.js:541-547 | the server's "note not found" 404 body makes a card action reload silently, while the edit dialog alerts it |
| Scenarios.SoftDeleteThenRestore | index.js:197-226 | for a note with a well-formed id, after create and soft delete the bin lists the note; after restore the bin is empty and the live list shows it restored; three events, the second the soft delete |
| Scenarios.PermanentDeleteTwice | index.js:229-237 | for a note with a well-formed id, the second permanent delete of a note gives 404 and broadcasts nothing |
| Scenarios.GroupDeleteGuard | index.js:121-132 | a live note blocks deleting its group; once it is in the bin the group is deleted and the binned note keeps the stale group reference |
| Scenarios.BatchSkipsUnknownIds | index.js:240-276 | a mark-done batch over a known and an unknown well-formed id and the malformed `not-an-id` succeeds, marks only the known note, creates nothing, and broadcasts the ids as sent |
| Scenarios.SearchKeepsStaleNotes | public/js/main.js:730-733 | with a "milk" note listed, typing "eggs" leaves that note listed although it does not match the search |
| Scenarios.StaleSelectionReachable | public/js/main.js:523-528 | selecting a note, reloading so that only another note is listed, then ticking and unticking that one leaves select-all checked while the listed note is unselected |

## Findings

| source | as written | input that shows it | evidently intended | confidence | as-written member | corrected member |
|---|---|---|---|---|---|---|
| public/js/main.js:730-733 | the search handler stores the search text and re-renders `state.notes` as they are; the list is filtered only at the next `loadNotes` | a note titled "milk" is listed and the user types "eggs": the note stays listed until some later reload | a changed search shows only matching notes, as a changed filter reloads them in `setFilter` | medium, not executed | Client.ClientState.SetSearch | Client.ClientState.SearchAndReload |

`Client.SearchLeavesNonMatches` exhibits the input: the listed note does not match the new search,
and `SetSearch` leaves the listed notes as they were. `Scenarios.SearchKeepsStaleNotes` runs the two
handlers in sequence and ends with the non-matching note still listed.

## Left out

- Floating point and real `Date` values: timestamps are integers, and JSON numbers in bodies are integers.
- BSON ordering of arrays and embedded objects: `BsonOrder` ranks them by type only and treats two values of the same such type as equal.
- Fastify, EJS and static-file wiring, index creation, `app.listen` and the Socket.IO `connection` handler, which only logs: these are framework setup with no decisions in them.
- MongoDB itself: the driver's `ObjectId` parser is an uninterpreted function, and write errors other than a duplicate `_id` are not modelled.
- The driver's `res.value` of `findOneAndUpdate`/`findOneAndDelete` is taken to be the matched document, as with a driver that returns the full result object. With a driver that returns the document itself, `res.value` is undefined. Every group patch, group delete, note patch, soft delete, restore and permanent delete that the model answers `Ok` would then reply 404, although the write would still happen.
- The `reconnect` resync of public/js/main.js:204-209: the model treats `reconnect` as an event the socket receives. In Socket.IO 3 and later that event is emitted on the Manager (`socket.io`), not on the socket, so the handler would never run, and the `connect` handler, which does fire on reconnection, reloads nothing. The library version is not pinned, so this stays unverified.
- Concurrency between requests and between clients: every handler runs as one atomic step.
- The client's `state.groups`, `loadGroups` and the group sidebar: these only render; the group-delete dialog is a sequence of the server calls modelled here.
- The create-note and edit dialogs' DOM handling: the request they send is a `NoteBody`, and the save outcome is `Client.CardOutcome` with `SaveEdit`.
- All DOM rendering, `localStorage` and `matchMedia`: `IsDark` takes the OS preference as an argument.
- `stripHtml`, `String.prototype.toLowerCase` and `String.prototype.trim` depend on the browser, so they are uninterpreted functions supplied to `ClientState`.
- The Socket.IO transport and the client's `client:notes:changed` emits: the server has no handler for that event, so nothing reacts to it.
- Timers (`setInterval`, `setTimeout`): `PollTick` is one tick. `Math.random() < 0.25` is its boolean argument.
- Client.EscapeHtml: works on a string; the `String(str)` coercion of non-strings is not modelled.
- EndToEnd.Lookup: a repeated query parameter, which Fastify turns into an array, is read as its first value.
- Client.ClientState.FinishLoadNotes: the request in flight is not modelled, so two overlapping loads that finish out of order are not captured.
