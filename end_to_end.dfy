/**
 How the client's requests meet the server's handlers: the query a view
 sends selects the notes that view is meant to show, the ids a client holds
 address the notes they came from, every toolbar action names a batch
 action the server knows, and the server's "note not found" reply is the
 text the client treats as a stale card.
 */
module EndToEnd {
  import opened Wrappers
  import opened Wire
  import Server
  import Client

  // ----- The notes list -----

  /** A serialized note as the client holds it after `res.json()`. */
  function ViewOf(sn: Server.SerializedNote): Client.NoteView {
    Client.NoteView(
      if sn.id.Some? then Text(sn.id.value) else Missing,
      sn.title,
      sn.content,
      if sn.groupId.Some? then Str(sn.groupId.value) else Null)
  }

  /** `idOf` of a listed note is the text of its ObjectId, and it is ungrouped
      in the client's sense exactly when the server stores no group. */
  lemma ListedNoteView(o: ObjectId, n: Server.Note)
    requires WellFormedId(o)
    requires n.groupId.Some? ==> WellFormedId(n.groupId.value)
    ensures Client.IdOf(ViewOf(Server.SerializeNote(o, n)).id) == Text(o.hex)
    ensures Client.Ungrouped(ViewOf(Server.SerializeNote(o, n))) <==> n.groupId.None?
  {
  }

  /** `req.query[key]`: the first value given for `key`. */
  function Lookup(params: seq<(string, string)>, key: string): (r: Option<string>)
    ensures r.Some? ==> (key, r.value) in params
    ensures r.None? ==> forall p :: p in params ==> p.0 != key
  {
    if params == [] then None
    else if params[0].0 == key then Some(params[0].1)
    else
      assert forall p :: p in params ==> p == params[0] || p in params[1..];
      Lookup(params[1..], key)
  }

  /** The query the server reads from the client's query string. */
  function ToQuery(params: seq<(string, string)>): Server.NotesQuery {
    Server.NotesQuery(Lookup(params, "groupId"), Lookup(params, "deleted"))
  }

  /** What the server lists for each view of the client: the recycle bin is every
      soft-deleted note (of any group), `all` and `ungrouped` every live note, and
      a group id the live notes of that group, or every live note when the id
      does not parse. */
  lemma ViewQuerySelects(filter: string, parse: Json -> Option<ObjectId>, n: Server.Note)
    ensures var f := Server.QueryFilter(ToQuery(Client.QueryParams(filter)), parse);
      && (filter == "deleted" ==> (Server.Listed(n, f) <==> n.isDeleted))
      && (filter in {"all", "ungrouped", ""} ==> (Server.Listed(n, f) <==> !n.isDeleted))
      && (filter !in {"all", "ungrouped", "deleted", ""} && parse(Str(filter)).Some? ==>
            (Server.Listed(n, f) <==> !n.isDeleted && n.groupId == parse(Str(filter))))
      && (filter !in {"all", "ungrouped", "deleted", ""} && parse(Str(filter)).None? ==>
            (Server.Listed(n, f) <==> !n.isDeleted))
  {
    Client.QueryParamsCases(filter);
    Server.QueryFilterMeaning(ToQuery(Client.QueryParams(filter)), parse, n);
  }

  // ----- Ids sent back -----

  /** How `JSON.stringify` writes an id the client sends. */
  function IdJson(v: IdValue): Json {
    match v
    case Missing => Null
    case Text(s) => Str(s)
    case Native(o) => Str(o.hex)
    case Extended(_) => Obj
  }

  /** The `ids` the client sends for the listed notes. */
  function SentIds(listed: seq<(ObjectId, Server.Note)>): (r: seq<Json>)
    ensures |r| == |listed|
  {
    seq(|listed|, i requires 0 <= i < |listed| =>
      IdJson(Client.IdOf(ViewOf(Server.SerializeNote(listed[i].0, listed[i].1)).id)))
  }

  /** The ids the client sends for listed notes make the server's batch act on
      exactly those notes. */
  lemma SentIdsAddressListed(listed: seq<(ObjectId, Server.Note)>, parse: Json -> Option<ObjectId>)
    requires Server.Canonical(parse)
    requires forall i :: 0 <= i < |listed| ==> WellFormedId(listed[i].0)
    ensures Server.ParsedIds(SentIds(listed), parse) == set i | 0 <= i < |listed| :: listed[i].0
  {
    var sent := SentIds(listed);
    forall i | 0 <= i < |listed|
      ensures parse(sent[i]) == Some(listed[i].0)
    {
      var o := listed[i].0;
      ListedNoteView(o, listed[i].1.(groupId := None));
      assert sent[i] == Str(o.hex);
    }
  }

  // ----- Batch actions -----

  /** The server action each toolbar button means. */
  function ServerAction(a: Client.ToolbarAction): Server.BatchAction {
    match a
    case RestoreSelected => Server.RestoreAll
    case DeleteForever => Server.PermanentDeleteAll
    case EmptyRecycleBin => Server.PermanentDeleteAll
    case MarkDone => Server.MarkDone
    case MarkUndone => Server.MarkUndone
    case DeleteSelected => Server.SoftDeleteAll
  }

  /** The server never answers a toolbar request with "unknown action". */
  lemma ToolbarActionsRecognised(a: Client.ToolbarAction)
    ensures Server.ActionOf(Str(Client.RequestAction(a))) == Some(ServerAction(a))
  {
  }

  // ----- Failure replies -----

  /** The text of a 400 or 404 reply, `{"ok":false,"message":...}`, which the client's
      `api` raises as the error message. */
  function ReplyText(message: string): string {
    ReplyHead + message + "\"}"
  }

  const ReplyHead := "{\"ok\":false,\"message\":\""

  /** A "note not found" reply makes a card action reload the list silently;
      the edit dialog's save alerts it instead. */
  lemma StaleCardReloads(a: Client.CardAction)
    ensures var fx := Client.CardOutcome(a, Some(ReplyText(Server.NoteNotFound)));
      (a != Client.SaveEdit ==> fx.reloadNotes && fx.alert.None?)
      && (a == Client.SaveEdit ==> !fx.reloadNotes && fx.alert == Some("Save failed: " + ReplyText(Server.NoteNotFound)))
  {
    var text := ReplyText(Server.NoteNotFound);
    var at := |ReplyHead|;
    assert text[at..at + |Server.NoteNotFound|] == Server.NoteNotFound;
    ContainsAt(text, Client.NoteNotFoundText, at);
  }
}
