/**
 The notes server of index.js: the `notes` and `groups` Mongo collections as
 two maps inside a `Store`, each `/api/groups` and `/api/notes` route handler
 as a method of it, and each `app.io.emit` as an entry appended to the
 store's event log. Timestamps come from an integer clock reading `now`;
 `new ObjectId(...)` is the store's parser `parseId`, which yields `None`
 where the driver would throw.
 */
module Server {
  import opened Wrappers
  import opened Wire
  import Sorting
  import BsonOrder

  // Messages of the 400 and 404 replies.
  const NameRequired := "name is required"
  const NoFields := "no fields"
  const GroupNotFound := "group not found"
  const GroupHasNotes := "Group has notes. Move or delete notes first."
  const TitleRequired := "title is required"
  const NoteNotFound := "note not found"
  const IdsRequired := "ids required"
  const UnknownAction := "unknown action"

  /** Colour of a group created without one. */
  const DefaultColor := "#64748b"

  /** A document of the `notes` collection (without its `_id`, which is the map key). */
  datatype Note = Note(
    title: Json,
    content: Json,
    groupId: Option<ObjectId>,
    isDone: bool,
    isDeleted: bool,
    deletedAt: Option<int>,
    createdAt: int,
    updatedAt: int)

  /** A document of the `groups` collection. */
  datatype Group = Group(name: Json, color: Json, createdAt: int, updatedAt: int)

  /** `deletedAt` is set exactly on soft-deleted notes. */
  predicate Consistent(n: Note) {
    n.isDeleted <==> n.deletedAt.Some?
  }

  // ----- Serialization: toId, serializeNote, serializeGroup -----

  /** `toId`: the text form of an id, `None` for a falsy one. */
  function ToId(v: IdValue): Option<string> {
    match v
    case Missing => None
    case Text(s) => if s == "" then None else Some(s)
    case Native(oid) => Some(oid.hex)
    case Extended(o) => if o != "" then Some(o) else Some("[object Object]")
  }

  /** How a stored group reference is handed to `toId`. */
  function RefValue(g: Option<ObjectId>): IdValue {
    match g
    case None => Missing
    case Some(o) => Native(o)
  }

  /** A note as the API sends it: ids turned into text. */
  datatype SerializedNote = SerializedNote(
    id: Option<string>,
    title: Json,
    content: Json,
    groupId: Option<string>,
    isDone: bool,
    isDeleted: bool,
    deletedAt: Option<int>,
    createdAt: int,
    updatedAt: int)

  /** A group as the API sends it after a create or a patch. */
  datatype SerializedGroup = SerializedGroup(id: Option<string>, name: Json, color: Json, createdAt: int, updatedAt: int)

  /** A group as `GET /api/groups` lists it (projection on name and color). */
  datatype GroupSummary = GroupSummary(id: Option<string>, name: Json, color: Json)

  function SerializeNote(id: ObjectId, n: Note): SerializedNote {
    SerializedNote(ToId(Native(id)), n.title, n.content, ToId(RefValue(n.groupId)),
                   n.isDone, n.isDeleted, n.deletedAt, n.createdAt, n.updatedAt)
  }

  function SerializeGroup(id: ObjectId, g: Group): SerializedGroup {
    SerializedGroup(ToId(Native(id)), g.name, g.color, g.createdAt, g.updatedAt)
  }

  function Summarize(id: ObjectId, g: Group): GroupSummary {
    GroupSummary(ToId(Native(id)), g.name, g.color)
  }

  /** Applying `toId` to its own output changes nothing (unless an ObjectId had empty text). */
  lemma ToIdIdempotent(v: IdValue)
    requires v.Native? ==> v.oid.hex != ""
    ensures ToId(v).Some? ==> ToId(Text(ToId(v).value)) == ToId(v)
    ensures ToId(v).None? <==> v == Missing || v == Text("")
  {
  }

  /** `parseId` reads back the text of every well-formed ObjectId (it may reject any other text). */
  ghost predicate Canonical(parse: Json -> Option<ObjectId>) {
    forall o: ObjectId :: WellFormedId(o) ==> parse(Str(o.hex)) == Some(o)
  }

  /** A parser that accepts exactly the texts of well-formed ObjectIds. */
  function HexParse(v: Json): (r: Option<ObjectId>)
    ensures r.Some? <==> v.Str? && WellFormedId(ObjectId(v.s))
    ensures r.Some? ==> v == Str(r.value.hex)
  {
    if v.Str? && WellFormedId(ObjectId(v.s)) then Some(ObjectId(v.s)) else None
  }

  /** `Canonical` leaves room for a parser that throws on malformed text. */
  lemma HexParseIsCanonical()
    ensures Canonical(HexParse)
    ensures HexParse(Str("not-an-id")).None?
  {
  }

  /** Parses a serialized note's ids back, as the server does with ids the client sends. */
  function Deserialize(sn: SerializedNote, parse: Json -> Option<ObjectId>): Option<(ObjectId, Note)> {
    if sn.id.None? || parse(Str(sn.id.value)).None? then None
    else if sn.groupId.Some? && parse(Str(sn.groupId.value)).None? then None
    else
      var g := if sn.groupId.Some? then parse(Str(sn.groupId.value)) else None;
      Some((parse(Str(sn.id.value)).value,
            Note(sn.title, sn.content, g, sn.isDone, sn.isDeleted, sn.deletedAt, sn.createdAt, sn.updatedAt)))
  }

  /** Serialization loses nothing: the id and the group reference parse back. */
  lemma SerializeNoteRoundTrip(id: ObjectId, n: Note, parse: Json -> Option<ObjectId>)
    requires Canonical(parse)
    requires WellFormedId(id) && (n.groupId.Some? ==> WellFormedId(n.groupId.value))
    ensures Deserialize(SerializeNote(id, n), parse) == Some((id, n))
  {
    var sn := SerializeNote(id, n);
    assert parse(Str(id.hex)) == Some(id);
    if n.groupId.Some? {
      assert parse(Str(n.groupId.value.hex)) == Some(n.groupId.value);
    }
  }

  // ----- Requests, replies and events -----

  datatype GroupBody = GroupBody(name: Json, color: Json)
  datatype NoteBody = NoteBody(title: Json, content: Json, isDone: Json, groupId: Json)
  datatype BatchBody = BatchBody(action: Json, ids: Json)
  /** Query string of `GET /api/notes`; `None` for an absent parameter. */
  datatype NotesQuery = NotesQuery(groupId: Option<string>, deleted: Option<string>)

  datatype Payload = Empty | NoteData(note: SerializedNote) | GroupData(group: SerializedGroup)

  /** 200 with `{ ok: true, data }`, 400/404 with a message, or 500 when the handler throws. */
  datatype Response =
    | Ok(data: Payload)
    | BadRequest(message: string)
    | NotFound(message: string)
    | ServerError

  /** Payloads of `notes:changed`. */
  datatype NotesChange =
    | NoteCreated(note: SerializedNote)
    | NoteUpdated(note: SerializedNote)
    | NoteSoftDeleted(id: string)
    | NoteRestored(note: SerializedNote)
    | NotePermanentlyDeleted(id: string)
    | NotesSoftDeleted(ids: seq<Json>)
    | NotesRestored(ids: seq<Json>)
    | NotesPermanentlyDeleted(ids: seq<Json>)
    | NotesUpdated(ids: seq<Json>, isDone: bool)

  /** Payloads of `groups:changed`. */
  datatype GroupsChange =
    | GroupCreated(group: SerializedGroup)
    | GroupUpdated(group: SerializedGroup)
    | GroupDeleted(id: string)

  /** One `app.io.emit` broadcast. */
  datatype Event = NotesChanged(notes: NotesChange) | GroupsChanged(groups: GroupsChange)

  // ----- Groups -----

  /** The document `POST /api/groups` inserts. */
  function NewGroup(body: GroupBody, now: int): (g: Group)
    ensures g.name == body.name && g.createdAt == g.updatedAt == now
    ensures Truthy(g.color)
    ensures g.color == body.color || (!Truthy(body.color) && g.color == Str(DefaultColor))
  {
    Group(body.name, if Truthy(body.color) then body.color else Str(DefaultColor), now, now)
  }

  /** The `$set` of `PATCH /api/groups/:id`, without `updatedAt`; `None` for an absent field. */
  datatype GroupUpdate = GroupUpdate(name: Option<Json>, color: Option<Json>) {
    predicate IsEmpty() { name.None? && color.None? }
  }

  function GroupUpdateOf(body: GroupBody): GroupUpdate {
    GroupUpdate(if body.name != Undefined then Some(body.name) else None,
                if body.color != Undefined then Some(body.color) else None)
  }

  function ApplyGroupUpdate(g: Group, u: GroupUpdate, now: int): Group {
    g.(name := if u.name.Some? then u.name.value else g.name,
       color := if u.color.Some? then u.color.value else g.color,
       updatedAt := now)
  }

  /** A group patch rewrites exactly the fields present in the body, and is empty when none is. */
  lemma GroupPatchFields(g: Group, body: GroupBody, now: int)
    ensures GroupUpdateOf(body).IsEmpty() <==> body.name == Undefined && body.color == Undefined
    ensures var h := ApplyGroupUpdate(g, GroupUpdateOf(body), now);
      && h.name == (if body.name == Undefined then g.name else body.name)
      && h.color == (if body.color == Undefined then g.color else body.color)
      && h.createdAt == g.createdAt && h.updatedAt == now
  {
  }

  /** Ids of the notes that block deleting group `gid`: those in it and not soft-deleted. */
  function LiveNotesIn(notes: map<ObjectId, Note>, gid: ObjectId): set<ObjectId> {
    set k | k in notes && notes[k].groupId == Some(gid) && notes[k].isDeleted != true
  }

  // ----- Notes -----

  /** `groupId ? new ObjectId(groupId) : null`, with a throwing parse caught as null. */
  function GroupRef(v: Json, parse: Json -> Option<ObjectId>): (g: Option<ObjectId>)
    ensures !Truthy(v) ==> g.None?
    ensures Truthy(v) ==> g == parse(v)
  {
    if Truthy(v) then parse(v) else None
  }

  /** The document `POST /api/notes` inserts. */
  function NewNote(body: NoteBody, parse: Json -> Option<ObjectId>, now: int): (n: Note)
    ensures n.title == body.title
    ensures !n.isDone && !n.isDeleted && n.deletedAt.None? && Consistent(n)
    ensures n.createdAt == now && n.updatedAt == now
    ensures Truthy(body.content) ==> n.content == body.content
    ensures !Truthy(body.content) ==> n.content == Str("")
    ensures n.groupId == GroupRef(body.groupId, parse)
  {
    Note(body.title, if Truthy(body.content) then body.content else Str(""),
         GroupRef(body.groupId, parse), false, false, None, now, now)
  }

  /** The `$set` of `PATCH /api/notes/:id`, without `updatedAt`; `None` for an absent field. */
  datatype NoteUpdate = NoteUpdate(
    title: Option<Json>,
    content: Option<Json>,
    isDone: Option<bool>,
    groupId: Option<Option<ObjectId>>)
  {
    predicate IsEmpty() { title.None? && content.None? && isDone.None? && groupId.None? }
  }

  function NoteUpdateOf(body: NoteBody, parse: Json -> Option<ObjectId>): NoteUpdate {
    NoteUpdate(if body.title != Undefined then Some(body.title) else None,
               if body.content != Undefined then Some(body.content) else None,
               if body.isDone != Undefined then Some(Truthy(body.isDone)) else None,
               if body.groupId != Undefined then Some(GroupRef(body.groupId, parse)) else None)
  }

  function ApplyNoteUpdate(n: Note, u: NoteUpdate, now: int): Note {
    n.(title := if u.title.Some? then u.title.value else n.title,
       content := if u.content.Some? then u.content.value else n.content,
       isDone := if u.isDone.Some? then u.isDone.value else n.isDone,
       groupId := if u.groupId.Some? then u.groupId.value else n.groupId,
       updatedAt := now)
  }

  /** A note patch is empty iff no field is given; otherwise it changes only the
      given fields, coerces `isDone` to a boolean, turns a falsy or unparseable
      `groupId` into null and stamps `updatedAt`. */
  lemma NotePatchFields(n: Note, body: NoteBody, parse: Json -> Option<ObjectId>, now: int)
    ensures NoteUpdateOf(body, parse).IsEmpty() <==>
      body.title == Undefined && body.content == Undefined && body.isDone == Undefined && body.groupId == Undefined
    ensures var m := ApplyNoteUpdate(n, NoteUpdateOf(body, parse), now);
      && m.title == (if body.title == Undefined then n.title else body.title)
      && m.content == (if body.content == Undefined then n.content else body.content)
      && m.isDone == (if body.isDone == Undefined then n.isDone else Truthy(body.isDone))
      && (body.groupId == Undefined ==> m.groupId == n.groupId)
      && (body.groupId != Undefined && (!Truthy(body.groupId) || parse(body.groupId).None?) ==> m.groupId.None?)
      && (body.groupId != Undefined && Truthy(body.groupId) ==> m.groupId == parse(body.groupId))
      && m.isDeleted == n.isDeleted && m.deletedAt == n.deletedAt && m.createdAt == n.createdAt
      && m.updatedAt == now
      && (Consistent(n) ==> Consistent(m))
  {
  }

  /** The `$set` of `DELETE /api/notes/:id` and of the `soft-delete` batch. */
  function SoftDelete(n: Note, now: int): Note {
    n.(isDeleted := true, deletedAt := Some(now), updatedAt := now)
  }

  /** The `$set` of `POST /api/notes/:id/restore` and of the `restore` batch. */
  function Restore(n: Note, now: int): Note {
    n.(isDeleted := false, deletedAt := None, updatedAt := now)
  }

  /** Restoring a soft-deleted note gives back the note it was, apart from
      `updatedAt`, whenever that note was live. */
  lemma SoftDeleteRestoreRoundTrip(n: Note, t1: int, t2: int)
    requires Consistent(n) && !n.isDeleted
    ensures Restore(SoftDelete(n, t1), t2) == n.(updatedAt := t2)
    ensures Consistent(SoftDelete(n, t1)) && SoftDelete(n, t1).isDeleted
  {
  }

  /** Soft-deleting a note unblocks its group for exactly that note; restoring blocks it again. */
  lemma {:induction false} LiveNotesAfterSoftDelete(notes: map<ObjectId, Note>, k: ObjectId, gid: ObjectId, now: int)
    requires k in notes
    ensures LiveNotesIn(notes[k := SoftDelete(notes[k], now)], gid) == LiveNotesIn(notes, gid) - {k}
    ensures notes[k].groupId == Some(gid) ==>
      LiveNotesIn(notes[k := Restore(notes[k], now)], gid) == LiveNotesIn(notes, gid) + {k}
  {
    var after := notes[k := SoftDelete(notes[k], now)];
    assert forall j :: j in LiveNotesIn(after, gid) <==> j in LiveNotesIn(notes, gid) - {k};
    var back := notes[k := Restore(notes[k], now)];
    if notes[k].groupId == Some(gid) {
      assert forall j :: j in LiveNotesIn(back, gid) <==> j in LiveNotesIn(notes, gid) + {k};
    }
  }

  // ----- Batch -----

  datatype BatchAction = SoftDeleteAll | RestoreAll | PermanentDeleteAll | MarkDone | MarkUndone

  /** The `switch (action)` of `POST /api/notes/batch`; `None` for its default branch. */
  function ActionOf(action: Json): (a: Option<BatchAction>)
    ensures a.Some? ==> action.Str? && action == Str(ActionName(a.value))
  {
    match action
    case Str(s) =>
      if s == "soft-delete" then Some(SoftDeleteAll)
      else if s == "restore" then Some(RestoreAll)
      else if s == "permanent-delete" then Some(PermanentDeleteAll)
      else if s == "mark-done" then Some(MarkDone)
      else if s == "mark-undone" then Some(MarkUndone)
      else None
    case _ => None
  }

  function ActionName(a: BatchAction): string {
    match a
    case SoftDeleteAll => "soft-delete"
    case RestoreAll => "restore"
    case PermanentDeleteAll => "permanent-delete"
    case MarkDone => "mark-done"
    case MarkUndone => "mark-undone"
  }

  /** Every action name is recognised as that action. */
  lemma ActionNameRoundTrip(a: BatchAction)
    ensures ActionOf(Str(ActionName(a))) == Some(a)
  {
  }

  /** `Array.isArray(ids) && ids.length`. */
  predicate IdsGiven(ids: Json) {
    ids.Arr? && |ids.items| > 0
  }

  /** `ids.map(i => try new ObjectId(i) catch null).filter(Boolean)`, as a set. */
  function ParsedIds(ids: seq<Json>, parse: Json -> Option<ObjectId>): (r: set<ObjectId>)
    ensures forall o :: o in r <==> exists i :: 0 <= i < |ids| && parse(ids[i]) == Some(o)
  {
    if ids == [] then {}
    else
      var rest := ParsedIds(ids[1..], parse);
      assert forall i :: 0 < i < |ids| ==> ids[i] == ids[1..][i - 1];
      (if parse(ids[0]).Some? then {parse(ids[0]).value} else {}) + rest
  }

  /** What an update-many action does to one matched note. */
  function BatchEffect(a: BatchAction, n: Note, now: int): Note
    requires a != PermanentDeleteAll
  {
    match a
    case SoftDeleteAll => SoftDelete(n, now)
    case RestoreAll => Restore(n, now)
    case MarkDone => n.(isDone := true, updatedAt := now)
    case MarkUndone => n.(isDone := false, updatedAt := now)
  }

  /** The notes collection after a batch on the matched ids `targets`. */
  function ApplyBatch(notes: map<ObjectId, Note>, targets: set<ObjectId>, a: BatchAction, now: int): (r: map<ObjectId, Note>)
    ensures forall k :: k in notes && k !in targets ==> k in r && r[k] == notes[k]
    ensures a == PermanentDeleteAll ==> r.Keys == notes.Keys - targets
    ensures a != PermanentDeleteAll ==> r.Keys == notes.Keys
    ensures a != PermanentDeleteAll ==>
      forall k :: k in notes && k in targets ==> r[k] == BatchEffect(a, notes[k], now)
    ensures (forall k :: k in notes ==> Consistent(notes[k])) ==> forall k :: k in r ==> Consistent(r[k])
  {
    if a == PermanentDeleteAll then notes - targets
    else map k | k in notes :: if k in targets then BatchEffect(a, notes[k], now) else notes[k]
  }

  /** The `notes:changed` payload of a batch: it carries the ids as sent. */
  function BatchEvent(a: BatchAction, ids: seq<Json>): NotesChange {
    match a
    case SoftDeleteAll => NotesSoftDeleted(ids)
    case RestoreAll => NotesRestored(ids)
    case PermanentDeleteAll => NotesPermanentlyDeleted(ids)
    case MarkDone => NotesUpdated(ids, true)
    case MarkUndone => NotesUpdated(ids, false)
  }

  // ----- Listing -----

  /** The Mongo filter `GET /api/notes` builds from its query. */
  datatype NoteFilter = NoteFilter(inBin: bool, group: Option<ObjectId>)

  function QueryFilter(q: NotesQuery, parse: Json -> Option<ObjectId>): NoteFilter {
    NoteFilter(q.deleted == Some("true"),
               if q.groupId.Some? && q.groupId.value != "" && q.groupId.value != "all"
               then parse(Str(q.groupId.value)) else None)
  }

  /** `{ isDeleted: true }` or `{ isDeleted: { $ne: true } }`, and `groupId` if set. */
  predicate Listed(n: Note, f: NoteFilter) {
    (if f.inBin then n.isDeleted == true else n.isDeleted != true)
    && (f.group.Some? ==> n.groupId == f.group)
  }

  /** The listing filter: `deleted=true` alone selects exactly the soft-deleted
      notes; otherwise only live notes, of the given group when its id parses. */
  lemma QueryFilterMeaning(q: NotesQuery, parse: Json -> Option<ObjectId>, n: Note)
    ensures q.deleted == Some("true") && q.groupId.None? ==> (Listed(n, QueryFilter(q, parse)) <==> n.isDeleted)
    ensures q.deleted != Some("true") ==> (Listed(n, QueryFilter(q, parse)) ==> !n.isDeleted)
    ensures q.groupId.None? || q.groupId == Some("all") || q.groupId == Some("") || parse(Str(q.groupId.value)).None? ==>
      (Listed(n, QueryFilter(q, parse)) <==> (if q.deleted == Some("true") then n.isDeleted else !n.isDeleted))
    ensures q.groupId.Some? && q.groupId.value != "all" && q.groupId.value != "" && parse(Str(q.groupId.value)).Some? ==>
      (Listed(n, QueryFilter(q, parse)) <==>
        (if q.deleted == Some("true") then n.isDeleted else !n.isDeleted) && n.groupId == parse(Str(q.groupId.value)))
  {
  }

  /** `.sort({ updatedAt: -1 })`. */
  predicate NewerFirst(p: (ObjectId, Note), q: (ObjectId, Note)) {
    p.1.updatedAt >= q.1.updatedAt
  }

  /** `.sort({ name: 1 })`. */
  predicate ByName(p: (ObjectId, Group), q: (ObjectId, Group)) {
    BsonOrder.JsonLe(p.1.name, q.1.name)
  }

  lemma NewerFirstIsTotalPreorder()
    ensures Sorting.TotalPreorder(NewerFirst)
  {
  }

  lemma ByNameIsTotalPreorder()
    ensures Sorting.TotalPreorder(ByName)
  {
    forall p: (ObjectId, Group), q: (ObjectId, Group)
      ensures ByName(p, q) || ByName(q, p)
    {
      BsonOrder.JsonLeTotal(p.1.name, q.1.name);
    }
    forall p: (ObjectId, Group), q: (ObjectId, Group), s: (ObjectId, Group) | ByName(p, q) && ByName(q, s)
      ensures ByName(p, s)
    {
      BsonOrder.JsonLeTransitive(p.1.name, q.1.name, s.1.name);
    }
  }

  /** The serialized list of a sorted selection of groups shows every group once, by name. */
  lemma GroupListing(groups: map<ObjectId, Group>, picked: seq<(ObjectId, Group)>, r: seq<GroupSummary>)
    requires |r| == |picked| && forall i :: 0 <= i < |r| ==> r[i] == Summarize(picked[i].0, picked[i].1)
    requires forall p :: p in picked <==> p.0 in groups && groups[p.0] == p.1
    requires forall i, j :: 0 <= i < j < |picked| ==> picked[i].0 != picked[j].0
    requires Sorting.SortedBy(picked, ByName)
    ensures forall x :: x in r <==> x in (set k | k in groups :: Summarize(k, groups[k]))
    ensures forall i, j :: 0 <= i < j < |r| ==> r[i].id != r[j].id
    ensures forall i, j :: 0 <= i < j < |r| ==> BsonOrder.JsonLe(r[i].name, r[j].name)
  {
    forall k | k in groups ensures Summarize(k, groups[k]) in r {
      assert (k, groups[k]) in picked;
      var i :| 0 <= i < |picked| && picked[i] == (k, groups[k]);
      assert r[i] == Summarize(k, groups[k]);
    }
    forall x | x in r ensures x in (set k | k in groups :: Summarize(k, groups[k])) {
      var i :| 0 <= i < |r| && r[i] == x;
      assert picked[i] in picked;
    }
  }

  /** The serialized list of a sorted selection of notes shows every selected note once, newest first. */
  lemma NoteListing(notes: map<ObjectId, Note>, f: NoteFilter, picked: seq<(ObjectId, Note)>, r: seq<SerializedNote>)
    requires |r| == |picked| && forall i :: 0 <= i < |r| ==> r[i] == SerializeNote(picked[i].0, picked[i].1)
    requires forall p :: p in picked <==> p.0 in notes && notes[p.0] == p.1 && Listed(p.1, f)
    requires forall i, j :: 0 <= i < j < |picked| ==> picked[i].0 != picked[j].0
    requires Sorting.SortedBy(picked, NewerFirst)
    ensures forall x :: x in r <==> x in (set k | k in notes && Listed(notes[k], f) :: SerializeNote(k, notes[k]))
    ensures forall i, j :: 0 <= i < j < |r| ==> r[i].id != r[j].id
    ensures forall i, j :: 0 <= i < j < |r| ==> r[i].updatedAt >= r[j].updatedAt
  {
    forall k | k in notes && Listed(notes[k], f) ensures SerializeNote(k, notes[k]) in r {
      assert (k, notes[k]) in picked;
      var i :| 0 <= i < |picked| && picked[i] == (k, notes[k]);
      assert r[i] == SerializeNote(k, notes[k]);
    }
    forall x | x in r ensures x in (set k | k in notes && Listed(notes[k], f) :: SerializeNote(k, notes[k])) {
      var i :| 0 <= i < |r| && r[i] == x;
      assert picked[i] in picked;
    }
  }

  // ----- The store -----

  class Store {
    var notes: map<ObjectId, Note>
    var groups: map<ObjectId, Group>
    /** Every broadcast so far, oldest first. */
    var events: seq<Event>
    /** `new ObjectId(text)`; `None` where it throws. */
    const parseId: Json -> Option<ObjectId>

    ghost predicate Valid()
      reads this
    {
      forall k :: k in notes ==> Consistent(notes[k])
    }

    ghost function State(): (map<ObjectId, Note>, map<ObjectId, Group>, seq<Event>)
      reads this
    {
      (notes, groups, events)
    }

    constructor (parseId: Json -> Option<ObjectId>)
      ensures Valid() && this.parseId == parseId
      ensures notes == map[] && groups == map[] && events == []
    {
      this.parseId := parseId;
      notes, groups, events := map[], map[], [];
    }

    /** `GET /api/groups`: every group once, by name ascending. */
    method ListGroups() returns (r: seq<GroupSummary>, ghost picked: seq<(ObjectId, Group)>)
      ensures |r| == |picked|
      ensures forall i :: 0 <= i < |r| ==> r[i] == Summarize(picked[i].0, picked[i].1)
      ensures forall p :: p in picked <==> p.0 in groups && groups[p.0] == p.1
      ensures forall i, j :: 0 <= i < j < |picked| ==> picked[i].0 != picked[j].0
      ensures Sorting.SortedBy(picked, ByName)
      ensures forall x :: x in r <==> x in (set k | k in groups :: Summarize(k, groups[k]))
      ensures forall i, j :: 0 <= i < j < |r| ==> r[i].id != r[j].id
      ensures forall i, j :: 0 <= i < j < |r| ==> BsonOrder.JsonLe(r[i].name, r[j].name)
    {
      ByNameIsTotalPreorder();
      var pending := groups.Keys;
      var acc: seq<(ObjectId, Group)> := [];
      ghost var taken: set<(ObjectId, Group)> := {};
      while pending != {}
        invariant pending <= groups.Keys
        invariant forall p :: p in taken <==> p.0 in groups && p.0 !in pending && groups[p.0] == p.1
        invariant multiset(acc) == multiset(taken)
        invariant Sorting.SortedBy(acc, ByName)
        decreases pending
      {
        var k :| k in pending;
        assert (k, groups[k]) !in taken;
        acc := Sorting.Insert(acc, (k, groups[k]), ByName);
        taken := taken + {(k, groups[k])};
        pending := pending - {k};
      }
      Sorting.NoDuplicates(acc, taken);
      forall p | p in acc ensures p in taken {
        assert p in multiset(acc);
      }
      forall p | p in taken ensures p in acc {
        assert p in multiset(taken);
      }
      picked := acc;
      r := seq(|acc|, i requires 0 <= i < |acc| => Summarize(acc[i].0, acc[i].1));
      GroupListing(groups, acc, r);
    }

    /** `POST /api/groups`. */
    method CreateGroup(body: GroupBody, now: int, newId: ObjectId) returns (r: Response)
      requires Valid()
      modifies this
      ensures Valid() && notes == old(notes)
      ensures !r.Ok? ==> State() == old(State())
      ensures !Truthy(body.name) ==> r == BadRequest(NameRequired)
      ensures Truthy(body.name) && newId in old(groups) ==> r == ServerError
      ensures Truthy(body.name) && newId !in old(groups) ==>
        var sg := SerializeGroup(newId, NewGroup(body, now));
        && groups == old(groups)[newId := NewGroup(body, now)]
        && r == Ok(GroupData(sg))
        && events == old(events) + [GroupsChanged(GroupCreated(sg))]
    {
      if !Truthy(body.name) {
        return BadRequest(NameRequired);
      }
      var doc := Group(body.name, if Truthy(body.color) then body.color else Str(DefaultColor), now, now);
      if newId in groups {
        // insertOne rejects a duplicate _id
        return ServerError;
      }
      groups := groups[newId := doc];
      var sg := SerializeGroup(newId, doc);
      events := events + [GroupsChanged(GroupCreated(sg))];
      r := Ok(GroupData(sg));
    }

    /** `PATCH /api/groups/:id`. */
    method PatchGroup(id: string, body: GroupBody, now: int) returns (r: Response)
      requires Valid()
      modifies this
      ensures Valid() && notes == old(notes)
      ensures !r.Ok? ==> State() == old(State())
      ensures GroupUpdateOf(body).IsEmpty() ==> r == BadRequest(NoFields)
      ensures !GroupUpdateOf(body).IsEmpty() && parseId(Str(id)).None? ==> r == ServerError
      ensures !GroupUpdateOf(body).IsEmpty() && parseId(Str(id)).Some? ==>
        var k := parseId(Str(id)).value;
        if k !in old(groups) then r == NotFound(GroupNotFound)
        else
          var sg := SerializeGroup(k, ApplyGroupUpdate(old(groups)[k], GroupUpdateOf(body), now));
          && groups == old(groups)[k := ApplyGroupUpdate(old(groups)[k], GroupUpdateOf(body), now)]
          && r == Ok(GroupData(sg))
          && events == old(events) + [GroupsChanged(GroupUpdated(sg))]
    {
      var update := GroupUpdate(None, None);
      if body.name != Undefined { update := update.(name := Some(body.name)); }
      if body.color != Undefined { update := update.(color := Some(body.color)); }
      if update.IsEmpty() {
        return BadRequest(NoFields);
      }
      var key := parseId(Str(id));
      if key.None? {
        return ServerError;
      }
      var k := key.value;
      if k !in groups {
        return NotFound(GroupNotFound);
      }
      var g := ApplyGroupUpdate(groups[k], update, now);
      groups := groups[k := g];
      var sg := SerializeGroup(k, g);
      events := events + [GroupsChanged(GroupUpdated(sg))];
      r := Ok(GroupData(sg));
    }

    /** `DELETE /api/groups/:id`: refused while a live note is in the group. */
    method DeleteGroup(id: string) returns (r: Response)
      requires Valid()
      modifies this
      ensures Valid() && notes == old(notes)
      ensures !r.Ok? ==> State() == old(State())
      ensures parseId(Str(id)).None? ==> r == ServerError
      ensures parseId(Str(id)).Some? ==>
        var k := parseId(Str(id)).value;
        if LiveNotesIn(notes, k) != {} then r == BadRequest(GroupHasNotes)
        else if k !in old(groups) then r == NotFound(GroupNotFound)
        else
          && r == Ok(Empty)
          && groups == old(groups) - {k}
          && events == old(events) + [GroupsChanged(GroupDeleted(id))]
    {
      var key := parseId(Str(id));
      if key.None? {
        return ServerError;
      }
      var gid := key.value;
      var countNotes := |LiveNotesIn(notes, gid)|;
      if countNotes > 0 {
        return BadRequest(GroupHasNotes);
      }
      if gid !in groups {
        return NotFound(GroupNotFound);
      }
      groups := groups - {gid};
      events := events + [GroupsChanged(GroupDeleted(id))];
      r := Ok(Empty);
    }

    /** `GET /api/notes`: the notes the query selects, each once, most recently updated first. */
    method ListNotes(q: NotesQuery) returns (r: seq<SerializedNote>, ghost picked: seq<(ObjectId, Note)>)
      ensures |r| == |picked|
      ensures forall i :: 0 <= i < |r| ==> r[i] == SerializeNote(picked[i].0, picked[i].1)
      ensures forall p :: p in picked <==> p.0 in notes && notes[p.0] == p.1 && Listed(p.1, QueryFilter(q, parseId))
      ensures forall i, j :: 0 <= i < j < |picked| ==> picked[i].0 != picked[j].0
      ensures Sorting.SortedBy(picked, NewerFirst)
      ensures forall x :: x in r <==>
        x in (set k | k in notes && Listed(notes[k], QueryFilter(q, parseId)) :: SerializeNote(k, notes[k]))
      ensures forall i, j :: 0 <= i < j < |r| ==> r[i].id != r[j].id
      ensures forall i, j :: 0 <= i < j < |r| ==> r[i].updatedAt >= r[j].updatedAt
    {
      var f := QueryFilter(q, parseId);
      NewerFirstIsTotalPreorder();
      var pending := notes.Keys;
      var acc: seq<(ObjectId, Note)> := [];
      ghost var taken: set<(ObjectId, Note)> := {};
      while pending != {}
        invariant pending <= notes.Keys
        invariant forall p :: p in taken <==> p.0 in notes && p.0 !in pending && notes[p.0] == p.1 && Listed(p.1, f)
        invariant multiset(acc) == multiset(taken)
        invariant Sorting.SortedBy(acc, NewerFirst)
        decreases pending
      {
        var k :| k in pending;
        if Listed(notes[k], f) {
          assert (k, notes[k]) !in taken;
          acc := Sorting.Insert(acc, (k, notes[k]), NewerFirst);
          taken := taken + {(k, notes[k])};
        }
        pending := pending - {k};
      }
      Sorting.NoDuplicates(acc, taken);
      forall p | p in acc ensures p in taken {
        assert p in multiset(acc);
      }
      forall p | p in taken ensures p in acc {
        assert p in multiset(taken);
      }
      picked := acc;
      r := seq(|acc|, i requires 0 <= i < |acc| => SerializeNote(acc[i].0, acc[i].1));
      NoteListing(notes, f, acc, r);
    }

    /** `POST /api/notes`. */
    method CreateNote(body: NoteBody, now: int, newId: ObjectId) returns (r: Response)
      requires Valid()
      modifies this
      ensures Valid() && groups == old(groups)
      ensures !r.Ok? ==> State() == old(State())
      ensures !Truthy(body.title) ==> r == BadRequest(TitleRequired)
      ensures Truthy(body.title) && newId in old(notes) ==> r == ServerError
      ensures Truthy(body.title) && newId !in old(notes) ==>
        var sn := SerializeNote(newId, NewNote(body, parseId, now));
        && notes == old(notes)[newId := NewNote(body, parseId, now)]
        && r == Ok(NoteData(sn))
        && events == old(events) + [NotesChanged(NoteCreated(sn))]
    {
      if !Truthy(body.title) {
        return BadRequest(TitleRequired);
      }
      var groupId := if Truthy(body.groupId) then parseId(body.groupId) else None;
      var doc := Note(body.title, if Truthy(body.content) then body.content else Str(""),
                      groupId, false, false, None, now, now);
      if newId in notes {
        // insertOne rejects a duplicate _id
        return ServerError;
      }
      notes := notes[newId := doc];
      var sn := SerializeNote(newId, doc);
      events := events + [NotesChanged(NoteCreated(sn))];
      r := Ok(NoteData(sn));
    }

    /** `PATCH /api/notes/:id`. */
    method PatchNote(id: string, body: NoteBody, now: int) returns (r: Response)
      requires Valid()
      modifies this
      ensures Valid() && groups == old(groups)
      ensures !r.Ok? ==> State() == old(State())
      ensures NoteUpdateOf(body, parseId).IsEmpty() ==> r == BadRequest(NoFields)
      ensures !NoteUpdateOf(body, parseId).IsEmpty() && parseId(Str(id)).None? ==> r == ServerError
      ensures !NoteUpdateOf(body, parseId).IsEmpty() && parseId(Str(id)).Some? ==>
        var k := parseId(Str(id)).value;
        if k !in old(notes) then r == NotFound(NoteNotFound)
        else
          var n := ApplyNoteUpdate(old(notes)[k], NoteUpdateOf(body, parseId), now);
          && notes == old(notes)[k := n]
          && r == Ok(NoteData(SerializeNote(k, n)))
          && events == old(events) + [NotesChanged(NoteUpdated(SerializeNote(k, n)))]
    {
      var update := NoteUpdate(None, None, None, None);
      if body.title != Undefined { update := update.(title := Some(body.title)); }
      if body.content != Undefined { update := update.(content := Some(body.content)); }
      if body.isDone != Undefined { update := update.(isDone := Some(Truthy(body.isDone))); }
      if body.groupId != Undefined {
        update := update.(groupId := Some(if Truthy(body.groupId) then parseId(body.groupId) else None));
      }
      if update.IsEmpty() {
        return BadRequest(NoFields);
      }
      var key := parseId(Str(id));
      if key.None? {
        return ServerError;
      }
      var k := key.value;
      if k !in notes {
        return NotFound(NoteNotFound);
      }
      var n := ApplyNoteUpdate(notes[k], update, now);
      notes := notes[k := n];
      var sn := SerializeNote(k, n);
      events := events + [NotesChanged(NoteUpdated(sn))];
      r := Ok(NoteData(sn));
    }

    /** `DELETE /api/notes/:id`: soft delete. */
    method SoftDeleteNote(id: string, now: int) returns (r: Response)
      requires Valid()
      modifies this
      ensures Valid() && groups == old(groups)
      ensures !r.Ok? ==> State() == old(State())
      ensures parseId(Str(id)).None? ==> r == ServerError
      ensures parseId(Str(id)).Some? ==>
        var k := parseId(Str(id)).value;
        if k !in old(notes) then r == NotFound(NoteNotFound)
        else
          && notes == old(notes)[k := SoftDelete(old(notes)[k], now)]
          && r == Ok(Empty)
          && events == old(events) + [NotesChanged(NoteSoftDeleted(id))]
    {
      var key := parseId(Str(id));
      if key.None? {
        return ServerError;
      }
      var k := key.value;
      if k !in notes {
        return NotFound(NoteNotFound);
      }
      notes := notes[k := notes[k].(isDeleted := true, deletedAt := Some(now), updatedAt := now)];
      events := events + [NotesChanged(NoteSoftDeleted(id))];
      r := Ok(Empty);
    }

    /** `POST /api/notes/:id/restore`. */
    method RestoreNote(id: string, now: int) returns (r: Response)
      requires Valid()
      modifies this
      ensures Valid() && groups == old(groups)
      ensures !r.Ok? ==> State() == old(State())
      ensures parseId(Str(id)).None? ==> r == ServerError
      ensures parseId(Str(id)).Some? ==>
        var k := parseId(Str(id)).value;
        if k !in old(notes) then r == NotFound(NoteNotFound)
        else
          && notes == old(notes)[k := Restore(old(notes)[k], now)]
          && r == Ok(Empty)
          && events == old(events) + [NotesChanged(NoteRestored(SerializeNote(k, notes[k])))]
    {
      var key := parseId(Str(id));
      if key.None? {
        return ServerError;
      }
      var k := key.value;
      if k !in notes {
        return NotFound(NoteNotFound);
      }
      notes := notes[k := notes[k].(isDeleted := false, deletedAt := None, updatedAt := now)];
      events := events + [NotesChanged(NoteRestored(SerializeNote(k, notes[k])))];
      r := Ok(Empty);
    }

    /** `DELETE /api/notes/:id/permanent`: removes the note, in the bin or not. */
    method PermanentDeleteNote(id: string) returns (r: Response)
      requires Valid()
      modifies this
      ensures Valid() && groups == old(groups)
      ensures !r.Ok? ==> State() == old(State())
      ensures parseId(Str(id)).None? ==> r == ServerError
      ensures parseId(Str(id)).Some? ==>
        var k := parseId(Str(id)).value;
        if k !in old(notes) then r == NotFound(NoteNotFound)
        else
          && notes == old(notes) - {k}
          && r == Ok(Empty)
          && events == old(events) + [NotesChanged(NotePermanentlyDeleted(id))]
    {
      var key := parseId(Str(id));
      if key.None? {
        return ServerError;
      }
      var k := key.value;
      if k !in notes {
        return NotFound(NoteNotFound);
      }
      notes := notes - {k};
      events := events + [NotesChanged(NotePermanentlyDeleted(id))];
      r := Ok(Empty);
    }

    /** `POST /api/notes/batch`: best effort over the ids that parse, one event for the whole batch. */
    method Batch(body: BatchBody, now: int) returns (r: Response)
      requires Valid()
      modifies this
      ensures Valid() && groups == old(groups)
      ensures !r.Ok? ==> State() == old(State())
      ensures !IdsGiven(body.ids) ==> r == BadRequest(IdsRequired)
      ensures IdsGiven(body.ids) && ActionOf(body.action).None? ==> r == BadRequest(UnknownAction)
      ensures IdsGiven(body.ids) && ActionOf(body.action).Some? ==>
        var a := ActionOf(body.action).value;
        && notes == ApplyBatch(old(notes), ParsedIds(body.ids.items, parseId), a, now)
        && r == Ok(Empty)
        && events == old(events) + [NotesChanged(BatchEvent(a, body.ids.items))]
    {
      if !IdsGiven(body.ids) {
        return BadRequest(IdsRequired);
      }
      var ids := body.ids.items;
      var targets := ParsedIds(ids, parseId);
      var action := ActionOf(body.action);
      if action.None? {
        return BadRequest(UnknownAction);
      }
      notes := ApplyBatch(notes, targets, action.value, now);
      events := events + [NotesChanged(BatchEvent(action.value, ids))];
      r := Ok(Empty);
    }
  }
}
