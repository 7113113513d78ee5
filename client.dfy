/**
 The browser client of public/js/main.js: its view state (`state` plus the
 socket flag and the select-all checkbox) as a class, and the decisions made
 on it as functions: which query a filter sends, which fetched notes are
 kept, which toolbar buttons exist, which reloads an event triggers, the
 theme cycle, `escapeHtml` and `idOf`. The DOM, timers and randomness are
 left to the caller: `toLowerCase`, `trim` and `stripHtml` are functions the
 state is constructed with, and a random draw is a boolean argument.
 */
module Client {
  import opened Wrappers
  import opened Wire

  /** A note as the client receives it in the `data` of `GET /api/notes`. */
  datatype NoteView = NoteView(id: IdValue, title: Json, content: Json, groupId: Json)

  /** The substring the client looks for in a failed request's reply text. */
  const NoteNotFoundText := "note not found"

  // ----- idOf and escapeHtml -----

  /** `idOf`: `note._id?.$oid || note._id`. */
  function IdOf(id: IdValue): (r: IdValue)
    ensures r == id || (id.Extended? && id.dollarOid != "" && r == Text(id.dollarOid))
    ensures !(r.Extended? && r.dollarOid != "")
  {
    match id
    case Extended(o) => if o != "" then Text(o) else id
    case _ => id
  }

  lemma IdOfIdempotent(id: IdValue)
    ensures IdOf(IdOf(id)) == IdOf(id)
    ensures id.Text? ==> IdOf(id) == id
  {
  }

  /** The replacement `escapeHtml` makes for one character. */
  function EscapeChar(c: char): string {
    match c
    case '&' => "&amp;"
    case '<' => "&lt;"
    case '>' => "&gt;"
    case '"' => "&quot;"
    case '\'' => "&#39;"
    case _ => [c]
  }

  /** `escapeHtml`: every `& < > " '` replaced by its entity. */
  function EscapeHtml(s: string): (r: string)
    ensures forall i :: 0 <= i < |r| ==> r[i] != '<' && r[i] != '>' && r[i] != '"' && r[i] != '\''
    ensures |r| >= |s|
  {
    if s == [] then []
    else
      var head := EscapeChar(s[0]);
      var tail := EscapeHtml(s[1..]);
      assert forall i :: |head| <= i < |head| + |tail| ==> (head + tail)[i] == tail[i - |head|];
      head + tail
  }

  /** Decodes the five entities `escapeHtml` produces. */
  function UnescapeHtml(s: string): string
    decreases |s|
  {
    if s == [] then []
    else if s[0] != '&' then [s[0]] + UnescapeHtml(s[1..])
    else if IsPrefix("&amp;", s) then "&" + UnescapeHtml(s[5..])
    else if IsPrefix("&lt;", s) then "<" + UnescapeHtml(s[4..])
    else if IsPrefix("&gt;", s) then ">" + UnescapeHtml(s[4..])
    else if IsPrefix("&quot;", s) then "\"" + UnescapeHtml(s[6..])
    else if IsPrefix("&#39;", s) then "'" + UnescapeHtml(s[5..])
    else [s[0]] + UnescapeHtml(s[1..])
  }

  /** Escaping loses nothing: decoding the entities gives the text back. */
  lemma {:induction false} EscapeHtmlRoundTrip(s: string)
    ensures UnescapeHtml(EscapeHtml(s)) == s
  {
    if s != [] {
      var head := EscapeChar(s[0]);
      var tail := EscapeHtml(s[1..]);
      var e := head + tail;
      assert e[..|head|] == head;
      assert e[|head|..] == tail;
      EscapeHtmlRoundTrip(s[1..]);
      UnescapeEscapedChar(s[0], tail);
      assert [s[0]] + s[1..] == s;
    }
  }

  /** Decoding undoes the replacement of one character, whatever follows it. */
  lemma UnescapeEscapedChar(c: char, rest: string)
    ensures UnescapeHtml(EscapeChar(c) + rest) == [c] + UnescapeHtml(rest)
  {
    var e := EscapeChar(c) + rest;
    assert e[|EscapeChar(c)|..] == rest;
    match c
    case '&' => assert IsPrefix("&amp;", e);
    case '<' =>
      assert e[..4] == "&lt;";
      assert !IsPrefix("&amp;", e) by { assert e[1] == 'l'; }
      assert IsPrefix("&lt;", e);
    case '>' =>
      assert e[..4] == "&gt;";
      assert !IsPrefix("&amp;", e) by { assert e[1] == 'g'; }
      assert !IsPrefix("&lt;", e) by { assert e[1] == 'g'; }
      assert IsPrefix("&gt;", e);
    case '"' =>
      assert e[..6] == "&quot;";
      assert !IsPrefix("&amp;", e) by { assert e[1] == 'q'; }
      assert !IsPrefix("&lt;", e) by { assert e[1] == 'q'; }
      assert !IsPrefix("&gt;", e) by { assert e[1] == 'q'; }
      assert IsPrefix("&quot;", e);
    case '\'' =>
      assert e[..5] == "&#39;";
      assert !IsPrefix("&amp;", e) by { assert e[1] == '#'; }
      assert !IsPrefix("&lt;", e) by { assert e[1] == '#'; }
      assert !IsPrefix("&gt;", e) by { assert e[1] == '#'; }
      assert !IsPrefix("&quot;", e) by { assert e[1] == '#'; }
      assert IsPrefix("&#39;", e);
    case _ =>
      assert e[0] == c;
  }

  // ----- Theme -----

  /** The `next` of `toggleTheme`; a missing or empty stored setting counts as `system`. */
  function NextTheme(stored: Option<string>): (next: string)
    ensures next == "light" || next == "dark" || next == "system"
  {
    var cur := if stored.None? || stored.value == "" then "system" else stored.value;
    if cur == "light" then "dark" else if cur == "dark" then "system" else "light"
  }

  /** Whether `setTheme(mode)` turns the page dark. */
  predicate IsDark(mode: string, prefersDark: bool) {
    mode == "dark" || (mode == "system" && prefersDark)
  }

  /** Toggling cycles light, dark, system with period three; an absent setting behaves as system. */
  lemma ThemeCycle(mode: string)
    requires mode == "light" || mode == "dark" || mode == "system"
    ensures NextTheme(Some(mode)) != mode
    ensures NextTheme(Some(NextTheme(Some(NextTheme(Some(mode)))))) == mode
    ensures NextTheme(None) == NextTheme(Some("system")) == "light"
  {
  }

  /** The page is dark iff the mode is dark, or system with a dark OS preference. */
  lemma DarkModes(prefersDark: bool)
    ensures IsDark("dark", prefersDark) && !IsDark("light", prefersDark)
    ensures IsDark("system", prefersDark) == prefersDark
  {
  }

  // ----- Loading notes -----

  /** The query string `loadNotes` sends for a filter. */
  function QueryParams(filter: string): seq<(string, string)> {
    (if filter == "deleted" then [("deleted", "true")] else [])
    + (if filter != "" && filter != "all" && filter != "deleted" && filter != "ungrouped"
       then [("groupId", filter)] else [])
  }

  /** `deleted` sends only `deleted=true`; `all`, `ungrouped` (and no filter) send
      nothing; any other filter sends only `groupId=filter`. */
  lemma QueryParamsCases(filter: string)
    ensures filter == "deleted" ==> QueryParams(filter) == [("deleted", "true")]
    ensures filter in {"all", "ungrouped", ""} ==> QueryParams(filter) == []
    ensures filter !in {"all", "ungrouped", "deleted", ""} ==> QueryParams(filter) == [("groupId", filter)]
  {
  }

  /** `a` is `b` with some elements left out. */
  predicate IsSubsequence<T(==)>(a: seq<T>, b: seq<T>)
    decreases |b|
  {
    a == [] || (b != [] && ((a[0] == b[0] && IsSubsequence(a[1..], b[1..])) || IsSubsequence(a, b[1..])))
  }

  lemma {:induction false} SubsequenceReflexive<T>(s: seq<T>)
    ensures IsSubsequence(s, s)
    decreases |s|
  {
    if s != [] {
      SubsequenceReflexive(s[1..]);
    }
  }

  lemma {:induction false} SubsequenceTransitive<T>(a: seq<T>, b: seq<T>, c: seq<T>)
    requires IsSubsequence(a, b) && IsSubsequence(b, c)
    ensures IsSubsequence(a, c)
    decreases |c|
  {
    if a != [] {
      if b[0] == c[0] && IsSubsequence(b[1..], c[1..]) {
        if a[0] == b[0] && IsSubsequence(a[1..], b[1..]) {
          SubsequenceTransitive(a[1..], b[1..], c[1..]);
        } else {
          SubsequenceTransitive(a, b[1..], c[1..]);
        }
      } else {
        SubsequenceTransitive(a, b, c[1..]);
      }
    }
  }

  /** Every element of a subsequence is an element of the whole. */
  lemma {:induction false} SubsequenceMembers<T>(a: seq<T>, b: seq<T>)
    requires IsSubsequence(a, b)
    ensures forall x :: x in a ==> x in b
    decreases |b|
  {
    if a != [] {
      if a[0] == b[0] && IsSubsequence(a[1..], b[1..]) {
        SubsequenceMembers(a[1..], b[1..]);
        assert forall x :: x in a ==> x == a[0] || x in a[1..];
      } else {
        SubsequenceMembers(a, b[1..]);
      }
    }
  }

  /** A note the new search does not match stays listed after `SetSearch`: with
      titles "milk" listed, searching "eggs" finds no match among them. */
  lemma SearchLeavesNonMatches()
    ensures var n := NoteView(Text("a"), Str("milk"), Null, Null);
      SearchHit(n, "eggs", s => s, c => "") == Some(false)
  {
    AbsentFirstChar("milk", "eggs");
  }

  /** A text without the first character of `t` does not contain `t`. */
  lemma {:induction false} AbsentFirstChar(s: string, t: string)
    requires t != [] && forall i :: 0 <= i < |s| ==> s[i] != t[0]
    ensures !Contains(s, t)
    decreases |s|
  {
    if |t| <= |s| {
      assert s[..|t|][0] == s[0];
    }
    if s != [] {
      AbsentFirstChar(s[1..], t);
    }
  }

  /** `s.filter(p)`. */
  function Filter<T(!new)>(s: seq<T>, p: T -> bool): (r: seq<T>)
    ensures IsSubsequence(r, s)
    ensures forall x :: multiset(r)[x] == if p(x) then multiset(s)[x] else 0
    ensures forall x :: x in r <==> x in s && p(x)
  {
    if s == [] then []
    else
      var rest := Filter(s[1..], p);
      assert forall x :: x in s <==> x == s[0] || x in s[1..];
      assert s == [s[0]] + s[1..];
      if p(s[0]) then
        assert ([s[0]] + rest)[1..] == rest;
        [s[0]] + rest
      else rest
  }

  /** The `ungrouped` filter: `!n.groupId`. */
  predicate Ungrouped(n: NoteView) {
    !Truthy(n.groupId)
  }

  /** `(v || '')` ready for `.toLowerCase()`; `None` where that call throws (a truthy non-string). */
  function TitleText(v: Json): Option<string> {
    if !Truthy(v) then Some("") else if v.Str? then Some(v.s) else None
  }

  /** The search test of `loadNotes` on one note; `None` where it throws. */
  function SearchHit(n: NoteView, search: string, lower: string -> string, strip: Json -> string): Option<bool> {
    match TitleText(n.title)
    case None => None
    case Some(t) =>
      Some(Contains(lower(t), search)
           || Contains(lower(strip(if Truthy(n.content) then n.content else Str(""))), search))
  }

  /** `notes.filter(<search test>)`; `None` when the test throws on some note. */
  function SearchFilter(s: seq<NoteView>, search: string, lower: string -> string, strip: Json -> string): (r: Option<seq<NoteView>>)
    ensures r.None? <==> exists i :: 0 <= i < |s| && SearchHit(s[i], search, lower, strip).None?
    ensures r.Some? ==> IsSubsequence(r.value, s)
    ensures r.Some? ==> forall x ::
      multiset(r.value)[x] == (if SearchHit(x, search, lower, strip) == Some(true) then multiset(s)[x] else 0)
    ensures r.Some? ==> forall n :: n in r.value <==> n in s && SearchHit(n, search, lower, strip) == Some(true)
  {
    if s == [] then Some([])
    else
      assert forall i :: 0 < i < |s| ==> s[i] == s[1..][i - 1];
      assert forall x :: x in s <==> x == s[0] || x in s[1..];
      assert s == [s[0]] + s[1..];
      match SearchHit(s[0], search, lower, strip)
      case None => None
      case Some(hit) =>
        match SearchFilter(s[1..], search, lower, strip)
        case None => None
        case Some(rest) =>
          if hit then
            assert ([s[0]] + rest)[1..] == rest;
            Some([s[0]] + rest)
          else Some(rest)
  }

  /** Whether `loadNotes` keeps a fetched note: it passes the `ungrouped` test when that view
      is shown, and the search test when a search is set. */
  predicate Kept(n: NoteView, filter: string, search: string, lower: string -> string, strip: Json -> string) {
    (filter != "ungrouped" || Ungrouped(n)) && (search == "" || SearchHit(n, search, lower, strip) == Some(true))
  }

  /** What `loadNotes` keeps of the fetched `data`; `None` when filtering throws. */
  function VisibleNotes(data: seq<NoteView>, filter: string, search: string,
                        lower: string -> string, strip: Json -> string): (r: Option<seq<NoteView>>)
    ensures r.None? <==> (search != "" &&
      exists n :: n in data && (filter != "ungrouped" || Ungrouped(n)) && SearchHit(n, search, lower, strip).None?)
    ensures r.Some? ==> IsSubsequence(r.value, data)
    ensures r.Some? ==> forall x ::
      multiset(r.value)[x] == (if Kept(x, filter, search, lower, strip) then multiset(data)[x] else 0)
    ensures r.Some? ==> forall n :: n in r.value <==> n in data && Kept(n, filter, search, lower, strip)
    ensures search == "" && filter != "ungrouped" ==> r == Some(data)
  {
    var grouped := if filter == "ungrouped" then Filter(data, Ungrouped) else data;
    SubsequenceReflexive(data);
    if search == "" then Some(grouped)
    else
      var r := SearchFilter(grouped, search, lower, strip);
      assert forall n :: n in grouped <==> n in data && (filter != "ungrouped" || Ungrouped(n));
      assert r.None? <==> exists n :: n in grouped && SearchHit(n, search, lower, strip).None?;
      if r.Some? then
        SubsequenceTransitive(r.value, grouped, data);
        r
      else r
  }

  // ----- Selection -----

  /** The ids of the listed notes, as `idOf` gives them. */
  function VisibleIds(notes: seq<NoteView>): set<IdValue> {
    set i | 0 <= i < |notes| :: IdOf(notes[i].id)
  }

  /** Listed notes have pairwise distinct ids. */
  predicate DistinctIds(notes: seq<NoteView>) {
    forall i, j :: 0 <= i < j < |notes| ==> IdOf(notes[i].id) != IdOf(notes[j].id)
  }

  lemma VisibleIdsExtend(notes: seq<NoteView>, i: nat)
    requires i < |notes|
    ensures VisibleIds(notes[..i + 1]) == VisibleIds(notes[..i]) + {IdOf(notes[i].id)}
  {
    var longer := notes[..i + 1];
    assert longer[i] == notes[i];
    assert forall k :: 0 <= k < i ==> longer[k] == notes[..i][k];
  }

  /** With distinct ids there are as many ids as listed notes. */
  lemma {:induction false} VisibleIdsCount(notes: seq<NoteView>)
    requires DistinctIds(notes)
    ensures |VisibleIds(notes)| == |notes|
    decreases |notes|
  {
    if notes != [] {
      var n := |notes| - 1;
      var front := notes[..n];
      assert forall k :: 0 <= k < n ==> front[k] == notes[k];
      VisibleIdsCount(front);
      VisibleIdsExtend(notes, n);
      assert notes[..n + 1] == notes;
      assert IdOf(notes[n].id) !in VisibleIds(front);
    }
  }

  /** `els.selectAll.checked = state.selected.size && state.selected.size === state.notes.length`. */
  predicate SelectAllRule(selectedCount: nat, noteCount: nat) {
    selectedCount > 0 && selectedCount == noteCount
  }

  lemma SubsetOfSameSize<T>(a: set<T>, b: set<T>)
    requires a <= b && |a| == |b|
    ensures a == b
  {
    assert b == a + (b - a);
    assert a * (b - a) == {};
    assert |b - a| == 0;
  }

  /** While the selection holds only listed ids (and ids are distinct), the
      select-all rule means "some notes are listed and all of them are selected". */
  lemma SelectAllMeaning(selected: set<IdValue>, notes: seq<NoteView>)
    requires selected <= VisibleIds(notes)
    requires DistinctIds(notes)
    ensures SelectAllRule(|selected|, |notes|) <==> notes != [] && VisibleIds(notes) <= selected
  {
    var v := VisibleIds(notes);
    VisibleIdsCount(notes);
    if SelectAllRule(|selected|, |notes|) {
      SubsetOfSameSize(selected, v);
    }
    if notes != [] && v <= selected {
      assert selected == v;
      assert IdOf(notes[0].id) in v;
    }
  }

  /** A selected id that is no longer listed can check select-all while a listed note is unselected. */
  lemma StaleSelectionChecksSelectAll()
    ensures var selected := {Text("a")};
      var notes := [NoteView(Text("b"), Str("b"), Str(""), Null)];
      SelectAllRule(|selected|, |notes|) && IdOf(notes[0].id) !in selected
  {
  }

  // ----- Toolbar -----

  datatype ToolbarAction = RestoreSelected | DeleteForever | EmptyRecycleBin | MarkDone | MarkUndone | DeleteSelected

  datatype Button = Button(action: ToolbarAction, enabled: bool)

  /** Buttons that act on the selection (all but "Empty Recycle Bin"). */
  predicate SelectionBound(a: ToolbarAction) {
    a != EmptyRecycleBin
  }

  /** `updateToolbar`: the buttons, in order, with their disabled state. */
  function Toolbar(filter: string, selectedCount: nat): (bs: seq<Button>)
    ensures forall b :: b in bs ==> (b.enabled <==> !SelectionBound(b.action) || selectedCount > 0)
  {
    var any := selectedCount > 0;
    if filter == "deleted" then
      [Button(RestoreSelected, any), Button(DeleteForever, any), Button(EmptyRecycleBin, true)]
    else
      [Button(MarkDone, any), Button(MarkUndone, any), Button(DeleteSelected, any)]
  }

  /** The recycle-bin view offers restore, delete forever and empty bin; every other view offers
      mark done, mark undone and delete. */
  lemma ToolbarActions(filter: string, selectedCount: nat)
    ensures filter == "deleted" ==>
      (set b | b in Toolbar(filter, selectedCount) :: b.action) == {RestoreSelected, DeleteForever, EmptyRecycleBin}
    ensures filter != "deleted" ==>
      (set b | b in Toolbar(filter, selectedCount) :: b.action) == {MarkDone, MarkUndone, DeleteSelected}
  {
    var bs := Toolbar(filter, selectedCount);
    assert bs[0] in bs && bs[1] in bs && bs[2] in bs;
  }

  /** The `action` a button's request sends: the argument of `batch`, or `permanent-delete`
      for "Empty Recycle Bin". */
  function RequestAction(a: ToolbarAction): string {
    match a
    case RestoreSelected => "restore"
    case DeleteForever => "permanent-delete"
    case EmptyRecycleBin => "permanent-delete"
    case MarkDone => "mark-done"
    case MarkUndone => "mark-undone"
    case DeleteSelected => "soft-delete"
  }

  /** The alert "Empty Recycle Bin" shows when no note is listed. */
  const BinAlreadyEmpty := "Recycle bin is already empty."

  /** The start of "Empty Recycle Bin": the ids it sends (every listed note), or no request
      and an alert when none is listed. */
  function EmptyBinRequest(notes: seq<NoteView>): (r: (Option<seq<IdValue>>, Effects))
    ensures r.0.None? <==> notes == []
    ensures r.0.None? ==> r.1 == Effects(false, false, Some(BinAlreadyEmpty))
    ensures r.0.Some? ==> r.1 == Effects(false, false, None)
    ensures r.0.Some? ==> |r.0.value| == |notes| && forall i :: 0 <= i < |notes| ==> r.0.value[i] == IdOf(notes[i].id)
  {
    if notes == [] then (None, Effects(false, false, Some(BinAlreadyEmpty)))
    else (Some(seq(|notes|, i requires 0 <= i < |notes| => IdOf(notes[i].id))), Effects(false, false, None))
  }

  /** How "Empty Recycle Bin" ends once its request has succeeded or failed. */
  function EmptyBinOutcome(failure: Option<string>): (fx: Effects)
    ensures fx.reloadNotes <==> failure.None?
    ensures fx.alert.Some? <==> failure.Some?
    ensures failure.Some? ==> fx.alert.value == "Empty recycle bin failed: " + failure.value
  {
    if failure.None? then Effects(true, false, None)
    else Effects(false, false, Some("Empty recycle bin failed: " + failure.value))
  }

  // ----- Reactions -----

  /** What a handler does besides changing state: reload notes, reload groups, alert. */
  datatype Effects = Effects(reloadNotes: bool, reloadGroups: bool, alert: Option<string>)

  datatype SocketEvent = Connect | Disconnect | ConnectError | Reconnect | NotesChangedSignal | GroupsChangedSignal

  /** The reloads each socket handler starts. */
  function SocketReloads(e: SocketEvent): Effects {
    match e
    case Reconnect => Effects(true, true, None)
    case NotesChangedSignal => Effects(true, false, None)
    case GroupsChangedSignal => Effects(false, true, None)
    case _ => Effects(false, false, None)
  }

  /** Notes are reloaded on `notes:changed` and `reconnect` only, groups on `groups:changed` and
      `reconnect` only, and no socket event alerts the user. */
  lemma SocketReloadsExactly(e: SocketEvent)
    ensures SocketReloads(e).reloadNotes <==> e == NotesChangedSignal || e == Reconnect
    ensures SocketReloads(e).reloadGroups <==> e == GroupsChangedSignal || e == Reconnect
    ensures SocketReloads(e).alert.None?
  {
  }

  /** The note-card buttons and the edit dialog's save. */
  datatype CardAction = ToggleDone | SoftDelete | Restore | PermanentDelete | SaveEdit

  function FailurePrefix(a: CardAction): string {
    match a
    case ToggleDone => "Mark done failed: "
    case SoftDelete => "Delete failed: "
    case Restore => "Restore failed: "
    case PermanentDelete => "Permanent delete failed: "
    case SaveEdit => "Save failed: "
  }

  /** What a card action does once its request has succeeded (`failure == None`) or failed with a message. */
  function CardOutcome(a: CardAction, failure: Option<string>): (fx: Effects)
    ensures fx.reloadNotes <==> failure.None? || (a != SaveEdit && Contains(failure.value, NoteNotFoundText))
    ensures fx.alert.None? <==> fx.reloadNotes
    ensures fx.alert.Some? ==> fx.alert.value == FailurePrefix(a) + failure.value
    ensures !fx.reloadGroups
  {
    match failure
    case None => Effects(true, false, None)
    case Some(msg) =>
      if a != SaveEdit && Contains(msg, NoteNotFoundText) then Effects(true, false, None)
      else Effects(false, false, Some(FailurePrefix(a) + msg))
  }

  // ----- The view state -----

  class ClientState {
    var filter: string
    var search: string
    var selected: set<IdValue>
    var notes: seq<NoteView>
    var firstLoadDone: bool
    /** The select-all checkbox. */
    var selectAllChecked: bool
    var socketConnected: bool
    /** `String.prototype.toLowerCase`, `String.prototype.trim` and `stripHtml`. */
    const lower: string -> string
    const trim: string -> string
    const stripHtml: Json -> string

    constructor (lower: string -> string, trim: string -> string, stripHtml: Json -> string)
      ensures filter == "all" && search == "" && selected == {} && notes == []
      ensures !firstLoadDone && !selectAllChecked && !socketConnected
      ensures this.lower == lower && this.trim == trim && this.stripHtml == stripHtml
    {
      filter, search, selected, notes := "all", "", {}, [];
      firstLoadDone, selectAllChecked, socketConnected := false, false, false;
      this.lower, this.trim, this.stripHtml := lower, trim, stripHtml;
    }

    /** `setFilter`: switch view, drop the selection, reload. */
    method SetFilter(f: string) returns (fx: Effects)
      modifies this`filter, this`selected, this`selectAllChecked
      ensures filter == f && selected == {} && !selectAllChecked
      ensures fx == Effects(true, false, None)
    {
      filter := f;
      selected := {};
      selectAllChecked := false;
      fx := Effects(true, false, None);
    }

    /** The search input handler as written: the text is stored trimmed and lower-cased
        and the list is re-rendered, but the listed notes stay as they are until the
        next load. */
    method SetSearch(value: string)
      modifies this`search
      ensures search == lower(trim(value))
    {
      search := lower(trim(value));
    }

    /** The search input handler followed by the reload it evidently intends: once the
        fetched notes arrive, every note shown matches the search. */
    method SearchAndReload(value: string, fetched: seq<NoteView>)
      modifies this`search, this`notes, this`firstLoadDone
      ensures search == lower(trim(value))
      ensures firstLoadDone
      ensures VisibleNotes(fetched, filter, search, lower, stripHtml).Some? ==>
        notes == VisibleNotes(fetched, filter, search, lower, stripHtml).value
      ensures VisibleNotes(fetched, filter, search, lower, stripHtml).Some? ==>
        forall n :: n in notes <==> n in fetched && Kept(n, filter, search, lower, stripHtml)
      ensures VisibleNotes(fetched, filter, search, lower, stripHtml).None? ==> notes == old(notes)
    {
      SetSearch(value);
      var _ := FinishLoadNotes(Some(fetched));
    }

    /** The end of `loadNotes`: `fetched` is the reply's `data`, `None` when the request failed.
        Reports whether this was the first load (the page loader is hidden then). */
    method FinishLoadNotes(fetched: Option<seq<NoteView>>) returns (hideLoader: bool)
      modifies this`notes, this`firstLoadDone
      ensures firstLoadDone && hideLoader == !old(firstLoadDone)
      ensures fetched.None? ==> notes == old(notes)
      ensures fetched.Some? ==>
        var kept := VisibleNotes(fetched.value, filter, search, lower, stripHtml);
        notes == if kept.Some? then kept.value else old(notes)
    {
      if fetched.Some? {
        var kept := VisibleNotes(fetched.value, filter, search, lower, stripHtml);
        if kept.Some? {
          notes := kept.value;
        }
      }
      hideLoader := !firstLoadDone;
      firstLoadDone := true;
    }

    /** A note's checkbox changed. */
    method ToggleNote(note: NoteView, checked: bool)
      modifies this`selected, this`selectAllChecked
      ensures selected == if checked then old(selected) + {IdOf(note.id)} else old(selected) - {IdOf(note.id)}
      ensures selectAllChecked == SelectAllRule(|selected|, |notes|)
    {
      var id := IdOf(note.id);
      if checked {
        selected := selected + {id};
      } else {
        selected := selected - {id};
      }
      selectAllChecked := SelectAllRule(|selected|, |notes|);
    }

    /** The select-all checkbox changed. */
    method SelectAllChange(checked: bool)
      modifies this`selected, this`selectAllChecked
      ensures selectAllChecked == checked
      ensures checked ==> selected == old(selected) + VisibleIds(notes)
      ensures !checked ==> selected == {}
    {
      if checked {
        var listed := notes;
        var acc := selected;
        for i := 0 to |listed|
          invariant acc == old(selected) + VisibleIds(listed[..i])
        {
          VisibleIdsExtend(listed, i);
          acc := acc + {IdOf(listed[i].id)};
        }
        assert listed[..|listed|] == listed;
        selected := acc;
      } else {
        selected := {};
      }
      selectAllChecked := checked;
    }

    /** `Array.from(state.selected)`: each selected id once, in some order. */
    method SelectedIds() returns (ids: seq<IdValue>)
      ensures forall x :: x in ids <==> x in selected
      ensures forall i, j :: 0 <= i < j < |ids| ==> ids[i] != ids[j]
    {
      var rest := selected;
      ids := [];
      while rest != {}
        invariant rest <= selected
        invariant forall x :: x in ids <==> x in selected && x !in rest
        invariant forall i, j :: 0 <= i < j < |ids| ==> ids[i] != ids[j]
        decreases rest
      {
        var x :| x in rest;
        ids := ids + [x];
        rest := rest - {x};
      }
    }

    /** The start of `batch(action)`: the request `{ action, ids }` it sends, or `None` and an
        alert when nothing is selected. */
    method StartBatch(action: string) returns (request: Option<(string, seq<IdValue>)>, fx: Effects)
      ensures request.None? <==> selected == {}
      ensures request.None? ==> fx == Effects(false, false, Some("No notes selected."))
      ensures request.Some? ==> fx == Effects(false, false, None) && request.value.0 == action
      ensures request.Some? ==> forall x :: x in request.value.1 <==> x in selected
      ensures request.Some? ==> forall i, j :: 0 <= i < j < |request.value.1| ==> request.value.1[i] != request.value.1[j]
    {
      var ids := SelectedIds();
      if |ids| == 0 {
        assert forall x :: x !in selected;
        return None, Effects(false, false, Some("No notes selected."));
      }
      assert ids[0] in selected;
      request, fx := Some((action, ids)), Effects(false, false, None);
    }

    /** The `finally` of `batch`, after success (`failure == None`) or failure: the selection is
        always emptied and the notes reloaded. */
    method FinishBatch(failure: Option<string>) returns (fx: Effects)
      modifies this`selected, this`selectAllChecked
      ensures selected == {} && !selectAllChecked
      ensures fx.reloadNotes && !fx.reloadGroups
      ensures fx.alert.Some? <==> failure.Some?
      ensures failure.Some? ==> fx.alert.value == "Batch action failed: " + failure.value
    {
      fx := Effects(true, false, if failure.Some? then Some("Batch action failed: " + failure.value) else None);
      selected := {};
      selectAllChecked := false;
    }

    /** The socket handlers. */
    method OnSocketEvent(e: SocketEvent) returns (fx: Effects)
      modifies this`socketConnected
      ensures socketConnected == (if e == Connect then true else if e == Disconnect then false else old(socketConnected))
      ensures fx == SocketReloads(e)
    {
      if e == Connect {
        socketConnected := true;
      } else if e == Disconnect {
        socketConnected := false;
      }
      fx := SocketReloads(e);
    }

    /** One tick of the polling fallback; `coin` is the outcome of `Math.random() < 0.25`. */
    method PollTick(coin: bool) returns (fx: Effects)
      ensures fx.reloadNotes <==> !socketConnected
      ensures fx.reloadGroups <==> !socketConnected && coin
      ensures fx.alert.None?
    {
      if !socketConnected {
        fx := Effects(true, coin, None);
      } else {
        fx := Effects(false, false, None);
      }
    }
  }
}
