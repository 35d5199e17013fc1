// The AI history list: selecting conversations in manage mode, loading one
// into the chat, renaming, deleting a selection and the page buttons.
module AIHistory {
  import opened Wrappers
  import opened Strings

  const PAGE_SIZE: int := 8

  const EMPTY_TITLE := "Title cannot be empty"
  const RENAMED := "Conversation name updated successfully"
  const RENAME_FAILED := "Failed to update conversation name"
  const RENAME_UNAUTHORIZED := "Please log in again to rename conversations"
  const RENAME_MISSING := "Conversation no longer exists"
  const RENAME_INVALID := "Invalid title - Please try again"

  /** `s.filter(item => item !== id)` */
  function Without(s: seq<string>, id: string): (r: seq<string>)
    ensures id !in r
    ensures forall x :: x != id ==> (x in r <==> x in s)
    ensures |r| <= |s|
  {
    if s == [] then []
    else if s[0] == id then Without(s[1..], id)
    else [s[0]] + Without(s[1..], id)
  }

  /** The manage-mode selection toggle: remove the id when selected, else append it. */
  function Toggle(selected: seq<string>, id: string): (r: seq<string>)
    ensures id in r <==> id !in selected
    ensures forall x :: x != id ==> (x in r <==> x in selected)
  {
    if id in selected then Without(selected, id) else selected + [id]
  }

  /** No conversation is selected twice. */
  predicate NoDuplicates(s: seq<string>) {
    forall i, j :: 0 <= i < j < |s| ==> s[i] != s[j]
  }

  /** Removing an id that is not there changes nothing. */
  lemma {:induction false} WithoutAbsent(s: seq<string>, id: string)
    requires id !in s
    ensures Without(s, id) == s
  {
    if s != [] {
      WithoutAbsent(s[1..], id);
    }
  }

  /** Removing an id keeps a selection free of duplicates. */
  lemma {:induction false} WithoutKeepsNoDuplicates(s: seq<string>, id: string)
    requires NoDuplicates(s)
    ensures NoDuplicates(Without(s, id))
  {
    if s != [] {
      assert NoDuplicates(s[1..]) by {
        forall i, j | 0 <= i < j < |s[1..]| ensures s[1..][i] != s[1..][j] {
          assert s[1..][i] == s[i + 1] && s[1..][j] == s[j + 1];
        }
      }
      WithoutKeepsNoDuplicates(s[1..], id);
      if s[0] != id {
        var rest := Without(s[1..], id);
        assert s[0] !in s[1..];
        assert s[0] !in rest;
        var r := [s[0]] + rest;
        forall i, j | 0 <= i < j < |r| ensures r[i] != r[j] {
          if i == 0 {
            assert r[j] == rest[j - 1];
          } else {
            assert r[i] == rest[i - 1] && r[j] == rest[j - 1];
          }
        }
      }
    }
  }

  /** A selection built by toggles never holds an id twice. */
  lemma ToggleKeepsNoDuplicates(s: seq<string>, id: string)
    requires NoDuplicates(s)
    ensures NoDuplicates(Toggle(s, id))
  {
    if id in s {
      WithoutKeepsNoDuplicates(s, id);
    }
  }

  /**
   * Toggling an id twice restores the selected set; when the id was not
   * selected it restores the selection exactly.
   */
  lemma ToggleTwice(s: seq<string>, id: string)
    ensures forall x :: x in Toggle(Toggle(s, id), id) <==> x in s
    ensures id !in s ==> Toggle(Toggle(s, id), id) == s
  {
    if id !in s {
      assert Toggle(s, id) == s + [id];
      WithoutAbsent(s, id);
      WithoutAppend(s, id);
    }
  }

  lemma {:induction false} WithoutAppend(s: seq<string>, id: string)
    ensures Without(s + [id], id) == Without(s, id)
  {
    if s == [] {
      assert Without([id], id) == Without([], id);
    } else {
      WithoutAppend(s[1..], id);
      assert (s + [id])[1..] == s[1..] + [id];
    }
  }

  /** `results.filter(r => r.status === wanted).length`, with `true` for fulfilled. */
  function CountOutcome(results: seq<bool>, wanted: bool): (n: nat)
    ensures n <= |results|
  {
    if results == [] then 0
    else (if results[0] == wanted then 1 else 0) + CountOutcome(results[1..], wanted)
  }

  /** Every settled deletion is counted exactly once, as succeeded or as failed. */
  lemma {:induction false} OutcomesAddUp(results: seq<bool>)
    ensures CountOutcome(results, true) + CountOutcome(results, false) == |results|
  {
    if results != [] {
      OutcomesAddUp(results[1..]);
    }
  }

  /** The toast for a failed rename, by what the error message mentions. */
  function RenameErrorText(message: string): (r: string)
    ensures Contains(message, "Unauthorized") ==> r == RENAME_UNAUTHORIZED
    ensures !Contains(message, "Unauthorized") && Contains(message, "not found") ==> r == RENAME_MISSING
    ensures r == RENAME_FAILED <==>
              !Contains(message, "Unauthorized") && !Contains(message, "not found") && !Contains(message, "Invalid title")
  {
    if Contains(message, "Unauthorized") then RENAME_UNAUTHORIZED
    else if Contains(message, "not found") then RENAME_MISSING
    else if Contains(message, "Invalid title") then RENAME_INVALID
    else RENAME_FAILED
  }

  /** `data?.totalPages || 1`: a missing or zero page count reads as one page. */
  function TotalPages(reported: Option<int>): (n: int)
    ensures n != 0
    ensures reported.Some? && reported.value != 0 ==> n == reported.value
  {
    if reported.Some? && reported.value != 0 then reported.value else 1
  }

  /** `Array.from({ length: totalPages }, (_, i) => i + 1)`: the page buttons. */
  function PageButtons(totalPages: int): (r: seq<int>)
    ensures |r| == if totalPages > 0 then totalPages else 0
    ensures forall i :: 0 <= i < |r| ==> r[i] == i + 1
  {
    if totalPages > 0 then seq(totalPages, i => i + 1) else []
  }

  /** Page `p` has a button exactly when it lies in `1..totalPages`. */
  lemma PageButtonsAreAllPages(totalPages: int, p: int)
    ensures p in PageButtons(totalPages) <==> 1 <= p <= totalPages
  {
    var r := PageButtons(totalPages);
    if 1 <= p <= totalPages {
      assert r[p - 1] == p;
    }
  }

  /** A message as the history request returns it; any field may be missing. */
  datatype StoredMessage = StoredMessage(id: Option<string>, sender: Option<string>, role: Option<string>,
                                         content: Option<string>, text: Option<string>,
                                         timestamp: Option<string>, sources: Option<seq<string>>)

  /** A message as the chat panel shows it. */
  datatype ShownMessage = ShownMessage(id: string, sender: string, text: string, timestamp: string,
                                       conversationId: string, sources: seq<string>)

  /** What `onSelectHistory` receives for a clicked row. */
  datatype HistoryView = HistoryView(id: string, title: Option<string>, messages: seq<ShownMessage>,
                                     timestamp: Option<string>, conversationId: string, isHistoryView: bool)

  /** The history request's outcome: the reply's `messages`, which may be missing, or a thrown error. */
  datatype HistoryReply = HistoryLoaded(messages: Option<seq<StoredMessage>>) | HistoryFailed

  /**
   * One stored message for the chat panel: a missing or empty id gives way
   * to a fresh one, a missing sender is read from the role, the text is the
   * content, else the text, else empty, and a missing timestamp is `now`.
   * `sources` is an array, so only a missing one is replaced.
   */
  function ShowMessage(msg: StoredMessage, conversationId: string, freshId: string, now: string): (r: ShownMessage)
    ensures r.conversationId == conversationId && r.sources == msg.sources.GetOr([])
    ensures Truthy(msg.id) ==> r.id == msg.id.value
    ensures freshId != "" ==> r.id != ""
    ensures Truthy(msg.sender) ==> r.sender == msg.sender.value
    ensures !Truthy(msg.sender) ==> (r.sender == "user" || r.sender == "ai") && (r.sender == "user" <==> msg.role == Some("user"))
    ensures r.text == "" <==> !Truthy(msg.content) && !Truthy(msg.text)
    ensures Truthy(msg.content) ==> r.text == msg.content.value
    ensures !Truthy(msg.content) && Truthy(msg.text) ==> r.text == msg.text.value
    ensures Truthy(msg.timestamp) ==> r.timestamp == msg.timestamp.value
    ensures !Truthy(msg.timestamp) ==> r.timestamp == now
  {
    ShownMessage(Or(msg.id, freshId), Or(msg.sender, if msg.role == Some("user") then "user" else "ai"),
                 Or(msg.content, Or(msg.text, "")), Or(msg.timestamp, now), conversationId, msg.sources.GetOr([]))
  }

  /**
   * The clicked conversation as a history view: its id twice, its title,
   * its last update as the timestamp, and each stored message in order,
   * none of them moved to another conversation. `freshId(i)` is the id
   * `crypto.randomUUID` would give the `i`-th message.
   */
  function HistoryViewOf(id: string, title: Option<string>, updatedAt: Option<string>,
                         messages: Option<seq<StoredMessage>>, freshId: nat -> string, now: string): (r: HistoryView)
    ensures r.id == id && r.conversationId == id && r.isHistoryView
    ensures r.title == title && r.timestamp == updatedAt
    ensures |r.messages| == |messages.GetOr([])|
    ensures forall i :: 0 <= i < |r.messages| ==>
              r.messages[i] == ShowMessage(messages.GetOr([])[i], id, freshId(i), now) && r.messages[i].conversationId == id
  {
    var stored := messages.GetOr([]);
    HistoryView(id, title, seq(|stored|, i requires 0 <= i < |stored| => ShowMessage(stored[i], id, freshId(i), now)),
                updatedAt, id, true)
  }

  /** The history panel's state. */
  class HistoryPanel {
    var manageMode: bool
    var selected: seq<string>
    var page: int
    var loadingHistoryId: Option<string>
    var editingId: Option<string>
    var editingTitle: string
    /** Every rename request sent, as (id, title). */
    var renameRequests: seq<(string, string)>
    /** Every conversation handed to the chat panel, by id. */
    var handedOver: seq<string>
    /** Every history view a row click handed to the chat panel. */
    var historyViews: seq<HistoryView>
    /** Every delete request sent, by id. */
    var deleteRequests: seq<string>

    predicate Valid()
      reads this
    {
      NoDuplicates(selected)
    }

    constructor ()
      ensures Valid() && !manageMode && selected == [] && page == 1
      ensures loadingHistoryId.None? && editingId.None? && editingTitle == ""
      ensures renameRequests == [] && handedOver == [] && historyViews == [] && deleteRequests == []
    {
      manageMode, selected, page := false, [], 1;
      loadingHistoryId, editingId, editingTitle := None, None, "";
      renameRequests, handedOver, historyViews, deleteRequests := [], [], [], [];
    }

    /** `handleStartRename(item)`: ignored in manage mode; a missing title edits as `''`. */
    method HandleStartRename(id: string, title: Option<string>)
      modifies this`editingId, this`editingTitle
      ensures manageMode ==> editingId == old(editingId) && editingTitle == old(editingTitle)
      ensures !manageMode ==> editingId == Some(id) && editingTitle == title.GetOr("")
    {
      if manageMode {
        return;
      }
      editingId := Some(id);
      editingTitle := if title.Some? then title.value else "";
    }

    method HandleCancelRename()
      modifies this`editingId, this`editingTitle
      ensures editingId.None? && editingTitle == ""
    {
      editingId, editingTitle := None, "";
    }

    /**
     * `handleRename(id)`, with the request's failure message (if any) as an
     * input: a blank title is refused before any request; a sent rename
     * carries the trimmed title and, when it succeeds, ends the editing.
     */
    method HandleRename(id: string, failure: Option<string>) returns (notice: string)
      modifies this`editingId, this`editingTitle, this`renameRequests
      ensures IsBlank(old(editingTitle)) ==>
                notice == EMPTY_TITLE && renameRequests == old(renameRequests) &&
                editingId == old(editingId) && editingTitle == old(editingTitle)
      ensures !IsBlank(old(editingTitle)) ==>
                renameRequests == old(renameRequests) + [(id, Trim(old(editingTitle)))]
      ensures !IsBlank(old(editingTitle)) && failure.None? ==>
                notice == RENAMED && editingId.None? && editingTitle == ""
      ensures !IsBlank(old(editingTitle)) && failure.Some? ==>
                notice == RenameErrorText(failure.value) &&
                editingId == old(editingId) && editingTitle == old(editingTitle)
    {
      BlankIffTrimEmpty(editingTitle);
      var title := Trim(editingTitle);
      if title == [] {
        return EMPTY_TITLE;
      }
      renameRequests := renameRequests + [(id, title)];
      if failure.Some? {
        return RenameErrorText(failure.value);
      }
      editingId, editingTitle := None, "";
      notice := RENAMED;
    }

    method HandleManageClick()
      modifies this`manageMode
      ensures manageMode
    {
      manageMode := true;
    }

    /** `handleCancelManage`: leave manage mode and drop the selection. */
    method HandleCancelManage()
      modifies this`manageMode, this`selected
      ensures Valid() && !manageMode && selected == []
    {
      manageMode, selected := false, [];
    }

    /**
     * `handleSelect(id)`, up to its `await`: in manage mode it toggles the
     * id; otherwise, unless another load is running, it starts loading the
     * conversation and hands it over when the current page lists it.
     */
    method HandleSelect(id: string, listed: bool)
      requires Valid()
      modifies this`selected, this`loadingHistoryId, this`handedOver
      ensures Valid()
      ensures manageMode ==>
                selected == Toggle(old(selected), id) &&
                loadingHistoryId == old(loadingHistoryId) && handedOver == old(handedOver)
      ensures !manageMode && Truthy(old(loadingHistoryId)) ==>
                selected == old(selected) && loadingHistoryId == old(loadingHistoryId) && handedOver == old(handedOver)
      ensures !manageMode && !Truthy(old(loadingHistoryId)) ==>
                selected == old(selected) && loadingHistoryId == Some(id) &&
                handedOver == old(handedOver) + (if listed then [id] else [])
    {
      if manageMode {
        ToggleKeepsNoDuplicates(selected, id);
        selected := Toggle(selected, id);
        return;
      }
      if loadingHistoryId.Some? && loadingHistoryId.value != "" {
        return;
      }
      loadingHistoryId := Some(id);
      if listed {
        handedOver := handedOver + [id];
      }
    }

    /**
     * A row click, up to its `await`: ignored on the row being renamed, in
     * manage mode and on the row already loading; otherwise it starts
     * loading that conversation's messages, which `RowHistorySettled` hands over.
     */
    method HandleRowClick(id: string)
      modifies this`loadingHistoryId
      ensures editingId != Some(id) && !manageMode && old(loadingHistoryId) != Some(id) ==>
                loadingHistoryId == Some(id)
      ensures editingId == Some(id) || manageMode || old(loadingHistoryId) == Some(id) ==>
                loadingHistoryId == old(loadingHistoryId)
    {
      if editingId == Some(id) {
        return;
      }
      if !manageMode && loadingHistoryId != Some(id) {
        loadingHistoryId := Some(id);
      }
    }

    /**
     * A row click once its history request settles: a loaded history is
     * handed to the chat panel as a history view of that conversation, a
     * failure only raises the alert, and either way nothing is loading any
     * more.
     */
    method RowHistorySettled(id: string, title: Option<string>, updatedAt: Option<string>, reply: HistoryReply,
                             freshId: nat -> string, now: string) returns (alerted: bool)
      modifies this`loadingHistoryId, this`historyViews
      ensures loadingHistoryId.None?
      ensures alerted <==> reply.HistoryFailed?
      ensures reply.HistoryLoaded? ==>
                historyViews == old(historyViews) + [HistoryViewOf(id, title, updatedAt, reply.messages, freshId, now)]
      ensures reply.HistoryFailed? ==> historyViews == old(historyViews)
    {
      alerted := false;
      match reply {
        case HistoryLoaded(messages) =>
          historyViews := historyViews + [HistoryViewOf(id, title, updatedAt, messages, freshId, now)];
        case HistoryFailed =>
          alerted := true;
      }
      loadingHistoryId := None;
    }

    /** The `finally` of a load: nothing is loading any more. */
    method LoadFinished()
      modifies this`loadingHistoryId
      ensures loadingHistoryId.None?
    {
      loadingHistoryId := None;
    }

    /**
     * `handleDelete`, with the settled outcome of each deletion (`true` for
     * fulfilled) as an input: nothing for an empty selection; otherwise one
     * request per selected id, every outcome counted once, and the panel
     * leaves manage mode with nothing selected.
     */
    method HandleDelete(results: seq<bool>) returns (succeeded: nat, failed: nat)
      requires |results| == |selected|
      modifies this`selected, this`manageMode, this`deleteRequests
      ensures old(selected) == [] ==>
                succeeded == 0 && failed == 0 && selected == old(selected) &&
                manageMode == old(manageMode) && deleteRequests == old(deleteRequests)
      ensures old(selected) != [] ==>
                deleteRequests == old(deleteRequests) + old(selected) &&
                succeeded == CountOutcome(results, true) && failed == CountOutcome(results, false) &&
                succeeded + failed == |old(selected)| &&
                selected == [] && !manageMode
    {
      if selected == [] {
        return 0, 0;
      }
      deleteRequests := deleteRequests + selected;
      succeeded := CountOutcome(results, true);
      failed := CountOutcome(results, false);
      OutcomesAddUp(results);
      selected, manageMode := [], false;
    }

    method HandlePageChange(newPage: int)
      modifies this`page
      ensures page == newPage
    {
      page := newPage;
    }
  }
}
