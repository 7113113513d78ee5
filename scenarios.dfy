/**
 Request sequences run against a fresh store, with what the replies, the
 listings and the broadcasts must then be. `parse` is the driver's
 `new ObjectId(...)`, assumed to read back the text of every well-formed
 ObjectId; the ids the driver generates are well-formed.
 */
module Scenarios {
  import opened Wrappers
  import opened Wire
  import opened Server
  import Client

  /** A note body with only a title. */
  function TitleOnly(title: string): NoteBody {
    NoteBody(Str(title), Undefined, Undefined, Undefined)
  }

  /** Create a note, move it to the recycle bin, restore it: the bin lists it and
      then no longer does, and the live list shows it restored. */
  method SoftDeleteThenRestore(parse: Json -> Option<ObjectId>, id: ObjectId, t0: int, t1: int, t2: int)
    returns (binAfterDelete: seq<SerializedNote>, binAfterRestore: seq<SerializedNote>,
             live: seq<SerializedNote>, events: seq<Event>)
    requires Canonical(parse) && WellFormedId(id)
    ensures binAfterDelete != []
    ensures forall x :: x in binAfterDelete ==> x.id == Some(id.hex) && x.isDeleted && x.deletedAt == Some(t1)
    ensures binAfterRestore == []
    ensures live != []
    ensures forall x :: x in live ==> x.id == Some(id.hex) && !x.isDeleted && x.deletedAt.None? && x.updatedAt == t2
    ensures |events| == 3 && events[1] == NotesChanged(NoteSoftDeleted(id.hex))
  {
    var s := new Store(parse);
    assert parse(Str(id.hex)) == Some(id);
    var r := s.CreateNote(TitleOnly("Shopping"), t0, id);
    r := s.SoftDeleteNote(id.hex, t1);
    ghost var picked;
    binAfterDelete, picked := s.ListNotes(NotesQuery(None, Some("true")));
    assert (id, s.notes[id]) in picked;
    r := s.RestoreNote(id.hex, t2);
    binAfterRestore, picked := s.ListNotes(NotesQuery(None, Some("true")));
    assert forall p :: p !in multiset(picked);
    assert multiset(picked) == multiset{};
    live, picked := s.ListNotes(NotesQuery(None, None));
    assert (id, s.notes[id]) in picked;
    events := s.events;
  }

  /** Deleting a note permanently twice: the second request is a 404 and broadcasts nothing. */
  method PermanentDeleteTwice(parse: Json -> Option<ObjectId>, id: ObjectId, t0: int)
    returns (first: Response, second: Response, events: seq<Event>)
    requires Canonical(parse) && WellFormedId(id)
    ensures first == Ok(Empty)
    ensures second == NotFound(NoteNotFound)
    ensures |events| == 2 && events[1] == NotesChanged(NotePermanentlyDeleted(id.hex))
  {
    var s := new Store(parse);
    assert parse(Str(id.hex)) == Some(id);
    var r := s.CreateNote(TitleOnly("Draft"), t0, id);
    first := s.PermanentDeleteNote(id.hex);
    second := s.PermanentDeleteNote(id.hex);
    events := s.events;
  }

  /** A group with a live note cannot be deleted; once the note is in the recycle
      bin it can, and the binned note keeps its reference to the removed group. */
  method GroupDeleteGuard(parse: Json -> Option<ObjectId>, gid: ObjectId, nid: ObjectId, t0: int, t1: int)
    returns (refused: Response, accepted: Response, orphan: Option<ObjectId>)
    requires Canonical(parse) && WellFormedId(gid) && WellFormedId(nid)
    ensures refused == BadRequest(GroupHasNotes)
    ensures accepted == Ok(Empty)
    ensures orphan == Some(gid)
  {
    var s := new Store(parse);
    assert parse(Str(gid.hex)) == Some(gid);
    assert parse(Str(nid.hex)) == Some(nid);
    var r := s.CreateGroup(GroupBody(Str("Work"), Undefined), t0, gid);
    r := s.CreateNote(NoteBody(Str("Report"), Undefined, Undefined, Str(gid.hex)), t0, nid);
    assert s.notes[nid].groupId == Some(gid);
    assert nid in LiveNotesIn(s.notes, gid);
    refused := s.DeleteGroup(gid.hex);
    r := s.SoftDeleteNote(nid.hex, t1);
    assert LiveNotesIn(s.notes, gid) == {};
    accepted := s.DeleteGroup(gid.hex);
    orphan := s.notes[nid].groupId;
  }

  /** `mark-done` over a known id, an unknown id and a malformed one: the request
      succeeds, only the known note changes, and the broadcast carries the ids as sent. */
  method BatchSkipsUnknownIds(parse: Json -> Option<ObjectId>, known: ObjectId, unknown: ObjectId, t0: int, t1: int)
    returns (r: Response, done: bool, count: nat, events: seq<Event>)
    requires Canonical(parse) && WellFormedId(known) && WellFormedId(unknown)
    requires known != unknown
    requires parse(Str("not-an-id")).None?
    ensures r == Ok(Empty)
    ensures done && count == 1
    ensures |events| == 2
    ensures events[1] == NotesChanged(NotesUpdated([Str(known.hex), Str(unknown.hex), Str("not-an-id")], true))
  {
    var s := new Store(parse);
    assert parse(Str(known.hex)) == Some(known);
    assert parse(Str(unknown.hex)) == Some(unknown);
    var c := s.CreateNote(TitleOnly("Todo"), t0, known);
    var ids := [Str(known.hex), Str(unknown.hex), Str("not-an-id")];
    r := s.Batch(BatchBody(Str("mark-done"), Arr(ids)), t1);
    assert ParsedIds(ids, parse) == {known, unknown};
    done := s.notes[known].isDone;
    count := |s.notes|;
    events := s.events;
  }

  /** The select-all quirk is reachable: select a listed note, reload so that only another
      note is listed, then tick and untick that one. Select-all ends up checked although
      the only listed note is unselected. */
  method StaleSelectionReachable(lower: string -> string, trim: string -> string, strip: Json -> string)
    returns (st: Client.ClientState)
    ensures |st.notes| == 1 && Client.IdOf(st.notes[0].id) !in st.selected
    ensures st.selected == {Text("a")}
    ensures st.selectAllChecked
  {
    var a := Client.NoteView(Text("a"), Str("first"), Str(""), Null);
    var b := Client.NoteView(Text("b"), Str("second"), Str(""), Null);
    st := new Client.ClientState(lower, trim, strip);
    var _ := st.FinishLoadNotes(Some([a, b]));
    st.ToggleNote(a, true);
    var _ := st.FinishLoadNotes(Some([b]));
    st.ToggleNote(b, true);
    st.ToggleNote(b, false);
  }

  /** The search handler as written: with a "milk" note listed, typing "eggs" leaves it
      listed although it does not match the new search. */
  method SearchKeepsStaleNotes() returns (st: Client.ClientState, milk: Client.NoteView)
    ensures milk in st.notes
    ensures st.search == "eggs"
    ensures Client.SearchHit(milk, st.search, st.lower, st.stripHtml) == Some(false)
  {
    milk := Client.NoteView(Text("a"), Str("milk"), Null, Null);
    // `toLowerCase` and `trim` change nothing here; `stripHtml` of plain text is that text
    st := new Client.ClientState(s => s, s => s, (v: Json) => if v.Str? then v.s else "");
    var _ := st.FinishLoadNotes(Some([milk]));
    st.SetSearch("eggs");
    Client.AbsentFirstChar("milk", "eggs");
    Client.AbsentFirstChar("", "eggs");
    assert st.notes == [milk];
  }
}
