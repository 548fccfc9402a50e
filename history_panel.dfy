/**
 * The list derivation of ChatHistoryPanel.js: which stored chats the panel
 * lists, the preview line and selection flag of each, the placeholder shown
 * when there is nothing to list, and the id a click hands back.
 *
 * `chatHistory` is a plain object; `Object.entries` hands its (id, chat)
 * pairs over in the object's enumeration order, so the model takes that list
 * of pairs, with ids unique as an object's keys are.
 */
module HistoryPanel {
  import opened Options
  import opened ChatSession

  /** A stored chat: its messages (possibly absent) and the model name shown above the preview. */
  datatype Chat = Chat(messages: Option<seq<Message>>, modelName: string)

  /** One listed entry, as the panel renders it. */
  datatype Row = Row(id: string, modelName: string, preview: string, selected: bool)

  const EmptyChatText: string := "Empty chat"

  /** The object's keys are unique. */
  ghost predicate UniqueIds(history: seq<(string, Chat)>)
  {
    forall i, j :: 0 <= i < j < |history| ==> history[i].0 != history[j].0
  }

  /** `a` lists some of the elements of `b`, in the order `b` has them. */
  ghost predicate IsSubsequence<T>(a: seq<T>, b: seq<T>)
    decreases |b|
  {
    if a == [] then true
    else if b == [] then false
    else if a[0] == b[0] then IsSubsequence(a[1..], b[1..])
    else IsSubsequence(a, b[1..])
  }

  /** The chat has a message list and that list holds at least one message. */
  predicate HasMessages(chat: Chat)
  {
    chat.messages.Some? && |chat.messages.value| > 0
  }

  /**
   * `Object.entries(chatHistory).filter(...)`: exactly the chats that have
   * at least one message, in their original order, ids still unique.
   */
  function Entries(history: seq<(string, Chat)>): (r: seq<(string, Chat)>)
    ensures forall e :: e in r <==> e in history && HasMessages(e.1)
    ensures IsSubsequence(r, history)
    ensures UniqueIds(history) ==> UniqueIds(r)
  {
    if history == [] then []
    else
      var rest := Entries(history[1..]);
      assert forall e :: e in history <==> e == history[0] || e in history[1..];
      if HasMessages(history[0].1) then
        var r := [history[0]] + rest;
        assert r[1..] == rest;
        assert UniqueIds(history) ==> UniqueIds(r) by {
          if UniqueIds(history) {
            assert UniqueIds(history[1..]);
            forall j | 0 < j < |r|
              ensures r[0].0 != r[j].0
            {
              assert r[j] in history[1..];
              var i :| 0 <= i < |history[1..]| && history[1..][i] == r[j];
              assert history[i + 1] == r[j];
            }
          }
        }
        r
      else
        assert UniqueIds(history) ==> UniqueIds(history[1..]);
        rest
  }

  /**
   * The preview line: the content of the last message, or the placeholder
   * text when there is no last message or its content is falsy (empty).
   */
  function Preview(msgs: seq<Message>): (r: string)
    ensures r != ""
    ensures |msgs| > 0 && msgs[|msgs| - 1].content != "" ==> r == msgs[|msgs| - 1].content
    ensures (|msgs| == 0 || msgs[|msgs| - 1].content == "") ==> r == EmptyChatText
  {
    if |msgs| == 0 || msgs[|msgs| - 1].content == "" then EmptyChatText
    else msgs[|msgs| - 1].content
  }

  /** The row drawn for one kept entry. */
  function MakeRow(entry: (string, Chat), selectedChatId: Option<string>): Row
    requires HasMessages(entry.1)
  {
    Row(entry.0, entry.1.modelName, Preview(entry.1.messages.value),
        selectedChatId == Some(entry.0))
  }

  /**
   * `entries.map(...)`: one row per kept entry, in the same order, each
   * previewing its chat's last message and selected exactly when its id is
   * `selectedChatId`.
   */
  function Rows(history: seq<(string, Chat)>, selectedChatId: Option<string>): (r: seq<Row>)
    ensures |r| == |Entries(history)|
    ensures forall k :: 0 <= k < |r| ==>
              (r[k].id, r[k].modelName) == (Entries(history)[k].0, Entries(history)[k].1.modelName)
    ensures forall k :: 0 <= k < |r| ==>
              var msgs := Entries(history)[k].1.messages.value;
              |msgs| > 0 && r[k].preview == (if msgs[|msgs| - 1].content == "" then EmptyChatText
                                              else msgs[|msgs| - 1].content)
    ensures forall k :: 0 <= k < |r| ==> (r[k].selected <==> selectedChatId == Some(r[k].id))
  {
    var es := Entries(history);
    assert forall k :: 0 <= k < |es| ==> es[k] in es;
    seq(|es|, k requires 0 <= k < |es| => MakeRow(es[k], selectedChatId))
  }

  /** The "No past chats" line: shown exactly when no stored chat has a message. */
  function ShowsPlaceholder(history: seq<(string, Chat)>): (r: bool)
    ensures r <==> forall k :: 0 <= k < |history| ==> !HasMessages(history[k].1)
  {
    var es := Entries(history);
    assert forall k :: 0 <= k < |history| && HasMessages(history[k].1) ==> history[k] in es;
    assert es != [] ==> es[0] in history;
    |es| == 0
  }

  /** Clicking row `k` calls `onSelectChat` with that row's own id, the id of a chat that has messages. */
  function ClickedId(history: seq<(string, Chat)>, selectedChatId: Option<string>, k: nat): (id: string)
    requires k < |Rows(history, selectedChatId)|
    ensures id == Entries(history)[k].0
    ensures exists e :: e in history && e.0 == id && HasMessages(e.1)
    ensures Rows(history, selectedChatId)[k].selected <==> selectedChatId == Some(id)
  {
    var es := Entries(history);
    assert es[k] in es;
    Rows(history, selectedChatId)[k].id
  }

  /** With unique ids, at most one row is highlighted. */
  lemma AtMostOneSelected(history: seq<(string, Chat)>, selectedChatId: Option<string>, i: nat, j: nat)
    requires UniqueIds(history)
    requires i < |Rows(history, selectedChatId)| && j < |Rows(history, selectedChatId)|
    requires Rows(history, selectedChatId)[i].selected && Rows(history, selectedChatId)[j].selected
    ensures i == j
  {
    assert UniqueIds(Entries(history));
  }
}
