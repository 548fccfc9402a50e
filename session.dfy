/**
 * The chat session of App.js: six pieces of state (`messages`, `input`,
 * `model`, `loading`, `error`, `botTyping`) and the transitions that update
 * them: typing, sending a message, settling the completion request, and
 * switching model.
 *
 * The asynchronous `sendMessage` is split at its only `await` of the network:
 * `SendMessage` runs up to the point where the request is issued and returns
 * that request; `Settle` applies the request's outcome. Each transition has a
 * specification function on `SessionState` and the class methods are proved
 * against them.
 */
module ChatSession {
  import opened Options
  import opened JsString
  import ModelRegistry

  /** A reading of the wall clock (`new Date()`), supplied by the caller. */
  type Timestamp = nat

  datatype Role = User | Assistant

  /** A displayed chat message, as `appendMessage` builds it. */
  datatype Message = Message(role: Role, content: string, ts: Timestamp)

  /** A message as it goes over the wire: role and content only. */
  datatype WireMessage = WireMessage(role: Role, content: string)

  /** The body of the completion request: the model id and the context window. */
  datatype Request = Request(model: string, messages: seq<WireMessage>)

  /** How many messages the context window keeps (`slice(-12)`). */
  const ContextSize: nat := 12

  const RateLimitText: string :=
    "Rate limit exceeded for this model. Please wait or switch to another model."
  const StatusErrorPrefix: string := "Error: "
  const NetworkErrorPrefix: string := "Network or API error: "

  // ---------------------------------------------------------------------------
  // The remote call, as an outcome value

  /**
   * What `response.json()` and `data.choices[0].message.content` yield: the
   * first choice's content, or the message of the error that reading the body
   * throws (malformed JSON, no choices).
   */
  datatype Body = Completion(content: string) | Unreadable(message: string)

  datatype Response = Response(status: int, statusText: string, body: Body)

  /** The settled `fetch`: a response, or the message of the exception it threw. */
  datatype FetchOutcome = Responded(response: Response) | Threw(message: string)

  /** `response.ok`: a status in the 2xx range. */
  predicate IsOk(status: int)
  {
    200 <= status <= 299
  }

  /** The four ways a turn settles, in the order the source tests them. */
  datatype Settlement =
    | RateLimited
    | HttpError(statusText: string)
    | Answer(content: string)
    | Failed(message: string)

  /**
   * First-match classification of an outcome: status 429, then any other
   * non-ok status, then the body; an exception thrown by `fetch` or while
   * reading the body lands in the `catch`.
   */
  function Classify(o: FetchOutcome): (r: Settlement)
    ensures r.RateLimited? <==> o.Responded? && o.response.status == 429
    ensures r.HttpError? <==> o.Responded? && o.response.status != 429 && !IsOk(o.response.status)
    ensures r.HttpError? ==> r.statusText == o.response.statusText
    ensures r.Answer? <==> o.Responded? && IsOk(o.response.status) && o.response.body.Completion?
    ensures r.Answer? ==> r.content == o.response.body.content
    ensures r.Failed? && o.Threw? ==> r.message == o.message
    ensures r.Failed? && o.Responded? ==> r.message == o.response.body.message
  {
    match o
    case Threw(m) => Failed(m)
    case Responded(resp) =>
      if resp.status == 429 then RateLimited
      else if !IsOk(resp.status) then HttpError(resp.statusText)
      else match resp.body
        case Completion(c) => Answer(c)
        case Unreadable(m) => Failed(m)
  }

  /** A rate-limited response is reported as such, never as a generic status error. */
  lemma RateLimitBeforeStatus(resp: Response)
    requires resp.status == 429
    ensures !IsOk(resp.status)
    ensures Classify(Responded(resp)) == RateLimited
  {
  }

  // ---------------------------------------------------------------------------
  // Message list and context window

  /** `appendMessage`: the list grows by one message at its end and nothing else changes. */
  function Append(msgs: seq<Message>, role: Role, content: string, ts: Timestamp): (r: seq<Message>)
    ensures |r| == |msgs| + 1
    ensures r[..|msgs|] == msgs
    ensures r[|msgs|] == Message(role, content, ts)
  {
    msgs + [Message(role, content, ts)]
  }

  function Min(a: int, b: int): int
  {
    if a <= b then a else b
  }

  /** `s.slice(-n)` for a positive `n`: the last `n` elements, or all of `s` when it is shorter. */
  function TakeLast<T>(s: seq<T>, n: nat): (r: seq<T>)
    requires 0 < n
    ensures |r| == Min(n, |s|)
    ensures r == s[|s| - |r|..]
  {
    if |s| <= n then s else s[|s| - n..]
  }

  /** A message stripped to what the endpoint receives: its role and content, without the timestamp. */
  function Reduce(m: Message): WireMessage
  {
    WireMessage(m.role, m.content)
  }

  function ReduceAll(ms: seq<Message>): (r: seq<WireMessage>)
    ensures |r| == |ms|
    ensures forall k :: 0 <= k < |ms| ==> r[k] == Reduce(ms[k])
  {
    seq(|ms|, k requires 0 <= k < |ms| => Reduce(ms[k]))
  }

  /**
   * The context sent with a turn: the last `ContextSize` messages of the
   * list before the append, followed by the new user message, each reduced
   * to role and content.
   */
  function ContextWindow(history: seq<Message>, userMessage: string): seq<WireMessage>
  {
    TakeLast(ReduceAll(history) + [WireMessage(User, userMessage)], ContextSize)
  }

  /**
   * The context holds `min(12, |history| + 1)` messages: the newest messages
   * of `history`, in order and reduced, then the new user message last.
   */
  lemma ContextWindowShape(history: seq<Message>, userMessage: string)
    ensures var r := ContextWindow(history, userMessage);
      |r| == Min(ContextSize, |history| + 1) &&
      r[|r| - 1] == WireMessage(User, userMessage) &&
      forall k :: 0 <= k < |r| - 1 ==> r[k] == Reduce(history[|history| + 1 - |r| + k])
  {
    var all := ReduceAll(history) + [WireMessage(User, userMessage)];
    var r := ContextWindow(history, userMessage);
    forall k | 0 <= k < |r| - 1
      ensures r[k] == Reduce(history[|history| + 1 - |r| + k])
    {
      assert r[k] == all[|all| - |r| + k];
    }
  }

  /**
   * The source slices the messages (the new one carrying no timestamp) and
   * only then reduces them; reducing first, as `ContextWindow` does, gives
   * the same list whatever timestamp the new message is given.
   */
  lemma {:induction false} SliceThenReduce(history: seq<Message>, userMessage: string, ts: Timestamp)
    ensures ReduceAll(TakeLast(history + [Message(User, userMessage, ts)], ContextSize))
         == ContextWindow(history, userMessage)
  {
    var all := history + [Message(User, userMessage, ts)];
    var reduced := ReduceAll(history) + [WireMessage(User, userMessage)];
    var sliced := TakeLast(all, ContextSize);
    var a := ReduceAll(sliced);
    var b := TakeLast(reduced, ContextSize);
    assert |a| == |b|;
    forall k | 0 <= k < |a|
      ensures a[k] == b[k]
    {
      var i := |all| - |a| + k;
      assert sliced[k] == all[i];
      assert b[k] == reduced[i];
      if i < |history| {
        assert all[i] == history[i];
      }
    }
  }

  // ---------------------------------------------------------------------------
  // Session state and its transitions

  datatype SessionState = SessionState(
    messages: seq<Message>,
    input: string,
    model: string,
    loading: bool,
    error: Option<string>,
    botTyping: bool)

  /** The state `useState` starts with. */
  function Initial(): SessionState
  {
    SessionState([], "", ModelRegistry.DefaultModelId, false, None, false)
  }

  /** Every transition keeps the typing indicator in step with the loading flag. */
  predicate Consistent(s: SessionState)
  {
    s.loading == s.botTyping
  }

  /** The guard of `sendMessage`: a non-blank input and no turn in flight. */
  predicate Accepts(s: SessionState)
  {
    !IsBlank(s.input) && !s.loading
  }

  /** The request an accepted send issues; a rejected send issues none. */
  function OutgoingRequest(s: SessionState): (r: Option<Request>)
    ensures r.Some? <==> Accepts(s)
    ensures r.Some? ==> r.value.model == s.model
    ensures r.Some? ==> r.value.messages == ContextWindow(s.messages, s.input)
    ensures r.Some? ==> |r.value.messages| == Min(ContextSize, |s.messages| + 1)
    ensures r.Some? ==> r.value.messages[|r.value.messages| - 1] == WireMessage(User, s.input)
  {
    if Accepts(s) then Some(Request(s.model, ContextWindow(s.messages, s.input))) else None
  }

  /**
   * The state after `sendMessage` has issued its request. A rejected send
   * changes nothing. An accepted one clears the error, appends the untrimmed
   * input as a user message, empties the input and raises both flags.
   */
  function AfterSend(s: SessionState, ts: Timestamp): SessionState
  {
    if !Accepts(s) then s
    else SessionState(Append(s.messages, User, s.input, ts), "", s.model, true, None, true)
  }

  /**
   * A rejected send changes nothing. An accepted one clears the error,
   * appends the untrimmed input as one user message after the unchanged
   * old list, empties the input and raises both flags; the model stays.
   */
  lemma SendEffects(s: SessionState, ts: Timestamp)
    ensures var r := AfterSend(s, ts);
      (!Accepts(s) ==> r == s) &&
      (Accepts(s) ==>
         |r.messages| == |s.messages| + 1 && r.messages[..|s.messages|] == s.messages &&
         r.messages[|s.messages|] == Message(User, s.input, ts) &&
         r.error == None && r.input == "" && r.loading && r.botTyping) &&
      r.model == s.model
  {
  }

  /**
   * The state after the request settles. Both flags drop whatever the
   * outcome. Only an answer appends, and it appends exactly one assistant
   * message; every other outcome leaves the messages alone and sets the
   * error text of its kind.
   */
  function AfterSettle(s: SessionState, o: FetchOutcome, ts: Timestamp): (r: SessionState)
    ensures !r.loading && !r.botTyping
    ensures r.input == s.input && r.model == s.model
    ensures |s.messages| <= |r.messages| <= |s.messages| + 1
    ensures r.messages[..|s.messages|] == s.messages
    ensures |r.messages| == |s.messages| + 1 <==> Classify(o).Answer?
    ensures Classify(o).Answer? ==>
              r.messages[|s.messages|] == Message(Assistant, Classify(o).content, ts) && r.error == s.error
    ensures Classify(o).RateLimited? ==> r.error == Some(RateLimitText)
    ensures Classify(o).HttpError? ==> r.error == Some(StatusErrorPrefix + Classify(o).statusText)
    ensures Classify(o).Failed? ==> r.error == Some(NetworkErrorPrefix + Classify(o).message)
  {
    var settled := s.(loading := false, botTyping := false);
    match Classify(o)
    case RateLimited => settled.(error := Some(RateLimitText))
    case HttpError(text) => settled.(error := Some(StatusErrorPrefix + text))
    case Answer(content) => settled.(messages := Append(s.messages, Assistant, content, ts))
    case Failed(message) => settled.(error := Some(NetworkErrorPrefix + message))
  }

  /** `handleModelChange`: the new model, an empty conversation, no error; the flags are untouched. */
  function AfterModelChange(s: SessionState, id: string): (r: SessionState)
    ensures r.model == id && r.messages == [] && r.error == None
    ensures r.input == s.input && r.loading == s.loading && r.botTyping == s.botTyping
  {
    s.(model := id, messages := [], error := None)
  }

  // ---------------------------------------------------------------------------
  // Properties of whole turns

  /** Every transition preserves `loading == botTyping`. */
  lemma ConsistentPreserved(s: SessionState, ts: Timestamp, o: FetchOutcome, id: string, text: string)
    requires Consistent(s)
    ensures Consistent(AfterSend(s, ts))
    ensures Consistent(AfterSettle(s, o, ts))
    ensures Consistent(AfterModelChange(s, id))
    ensures Consistent(s.(input := text))
  {
  }

  /** While a turn is in flight a second send is rejected: one request at a time. */
  lemma OneRequestInFlight(s: SessionState, ts1: Timestamp, ts2: Timestamp)
    requires Accepts(s)
    ensures OutgoingRequest(AfterSend(s, ts1)) == None
    ensures AfterSend(AfterSend(s, ts1), ts2) == AfterSend(s, ts1)
  {
  }

  /**
   * A complete turn, send then settle: the user message stays in place
   * whatever the outcome, at most the one answer follows it, the loading
   * flag ends down, and an answered turn ends with no error.
   */
  lemma TurnOutcome(s: SessionState, ts1: Timestamp, o: FetchOutcome, ts2: Timestamp)
    requires Accepts(s)
    ensures var r := AfterSettle(AfterSend(s, ts1), o, ts2);
      r.messages[..|s.messages| + 1] == s.messages + [Message(User, s.input, ts1)] &&
      !r.loading && !r.botTyping && r.input == "" &&
      (Classify(o).Answer? ==>
         r.messages == s.messages + [Message(User, s.input, ts1), Message(Assistant, Classify(o).content, ts2)]) &&
      (!Classify(o).Answer? ==> r.messages == s.messages + [Message(User, s.input, ts1)]) &&
      (Classify(o).Answer? <==> r.error == None)
  {
    var m := AfterSend(s, ts1);
    var r := AfterSettle(m, o, ts2);
    assert m.messages == s.messages + [Message(User, s.input, ts1)];
    assert r.messages[..|m.messages|] == m.messages;
    assert r.messages[..|s.messages| + 1] == m.messages;
    if Classify(o).Answer? {
      assert r.messages == m.messages + [Message(Assistant, Classify(o).content, ts2)];
    }
  }

  /**
   * Switching model while a turn is in flight does not cancel it: the late
   * answer is appended to the conversation the switch emptied.
   */
  lemma LateAnswerAfterModelChange(s: SessionState, ts1: Timestamp, id: string, resp: Response, ts2: Timestamp)
    requires Accepts(s)
    requires IsOk(resp.status) && resp.body.Completion?
    ensures var r := AfterSettle(AfterModelChange(AfterSend(s, ts1), id), Responded(resp), ts2);
      r.model == id && r.messages == [Message(Assistant, resp.body.content, ts2)] && !r.loading
  {
    var c := AfterModelChange(AfterSend(s, ts1), id);
    var r := AfterSettle(c, Responded(resp), ts2);
    assert |r.messages| == 1;
  }

  // ---------------------------------------------------------------------------
  // The component's state, updated in place by its handlers

  class Session {
    var messages: seq<Message>
    var input: string
    var model: string
    var loading: bool
    var error: Option<string>
    var botTyping: bool

    function State(): SessionState
      reads this
    {
      SessionState(messages, input, model, loading, error, botTyping)
    }

    ghost predicate Valid()
      reads this
    {
      Consistent(State())
    }

    constructor ()
      ensures Valid() && State() == Initial()
    {
      messages := [];
      input := "";
      model := ModelRegistry.DefaultModelId;
      loading := false;
      error := None;
      botTyping := false;
    }

    /** The input box's change handler. */
    method SetInput(text: string)
      requires Valid()
      modifies this
      ensures Valid() && State() == old(State()).(input := text)
    {
      input := text;
    }

    /** Adds one message with the given role, content and time at the end of the conversation. */
    method AppendMessage(role: Role, content: string, ts: Timestamp)
      modifies this`messages
      ensures messages == Append(old(messages), role, content, ts)
      ensures Valid() == old(Valid())
    {
      messages := messages + [Message(role, content, ts)];
    }

    /**
     * `sendMessage` up to the `fetch`: returns the request it issues, or
     * nothing when the guard rejects the send. The context is built from the
     * message list as it was before the user message was appended.
     */
    method SendMessage(ts: Timestamp) returns (request: Option<Request>)
      requires Valid()
      modifies this
      ensures Valid() && State() == AfterSend(old(State()), ts)
      ensures request == OutgoingRequest(old(State()))
    {
      ghost var before := State();
      if IsBlank(input) || loading {
        assert !Accepts(before);
        return None;
      }
      assert Accepts(before);
      var history := messages;
      error := None;
      AppendMessage(User, input, ts);
      var userMessage := input;
      input := "";
      loading := true;
      botTyping := true;
      var recentMessages := ContextWindow(history, userMessage);
      request := Some(Request(model, recentMessages));
      assert State() == SessionState(Append(before.messages, User, before.input, ts), "", before.model, true, None, true);
    }

    /** The rest of `sendMessage`, once the request has settled with `outcome`. */
    method Settle(outcome: FetchOutcome, ts: Timestamp)
      modifies this
      ensures Valid() && State() == AfterSettle(old(State()), outcome, ts)
    {
      match outcome {
        case Threw(message) =>
          error := Some(NetworkErrorPrefix + message);
        case Responded(response) =>
          if response.status == 429 {
            error := Some(RateLimitText);
            loading := false;
            botTyping := false;
            return;
          }
          if !IsOk(response.status) {
            error := Some(StatusErrorPrefix + response.statusText);
            loading := false;
            botTyping := false;
            return;
          }
          match response.body {
            case Unreadable(message) =>
              error := Some(NetworkErrorPrefix + message);
            case Completion(content) =>
              AppendMessage(Assistant, content, ts);
          }
      }
      loading := false;
      botTyping := false;
    }

    /** Selects another model and starts an empty conversation without an error. */
    method HandleModelChange(id: string)
      requires Valid()
      modifies this
      ensures Valid() && State() == AfterModelChange(old(State()), id)
    {
      model := id;
      messages := [];
      error := None;
    }
  }
}
