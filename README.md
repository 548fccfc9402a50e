# Multi-model chatbot: chat session and history list

A Dafny model of the logic inside a React chat client that talks to several
hosted language models through one completion endpoint.

- **Model registry** (`ModelRegistry`, `registry.dfy`): the fixed list of
  seven models, the first-match lookup by id used for the header badge, and
  the badge colour fallback.
- **Send guard** (`JsString`, `jsstring.dfy`): `String.prototype.trim` with
  ECMAScript's whitespace and line-terminator set. The guard's `IsBlank`
  (every character is whitespace) is proved equivalent to `trim()` leaving
  the empty string.
- **Chat session** (`ChatSession`, `session.dfy`): the component's six state
  fields (`messages`, `input`, `model`, `loading`, `error`, `botTyping`) as a
  class `Session`. Its handlers are methods proved against pure specification
  functions on a `SessionState` value.
  - `sendMessage` is split at the network call. `SendMessage` applies the
    guard, appends the user message optimistically and returns the request
    it would issue: the model id and the last 12 messages reduced to role
    and content. `Settle` applies the outcome of that request.
  - The request's outcome is an abstract value (`FetchOutcome`): a response
    with a status, a status text and a body, or a thrown exception.
    `Classify` sorts it first-match, in the order the source tests: status
    429, any other non-2xx status, then the body (an answer, or an error
    thrown while reading it), with a thrown `fetch` landing in the `catch`.
  - The lemmas cover whole turns:
    - at most one request is in flight at a time;
    - the user message survives every outcome;
    - `loading == botTyping` holds after every transition;
    - a model switch during a pending turn does not cancel it, and the late
      answer lands in the emptied conversation.
- **History list** (`HistoryPanel`, `history_panel.dfy`): the sidebar's
  derivation from the stored chats. It keeps the chats that have messages,
  in order. For each it computes a preview of the last message (`'Empty
  chat'` when that content is empty) and a selection flag. It also derives
  the "No past chats" placeholder and the id a click passes to
  `onSelectChat`.

## Model

| member | source | states |
|---|---|---|
| ModelRegistry.Find | multi-model-chatbot/src/App.js:103 | `MODELS.find` by id: nothing exactly when no model has the id; otherwise an entry with that id and no earlier entry with it |
| ModelRegistry.FindOwnId | multi-model-chatbot/src/App.js:103 | with pairwise-distinct ids, looking up any entry's own id returns that entry |
| ModelRegistry.RegistryLookup | multi-model-chatbot/src/App.js:5-13 | every option the selector offers (the registry ids) finds its own registry entry |
| ModelRegistry.BadgeColor | multi-model-chatbot/src/App.js:120 | the badge colour is the first matching model's colour, or `#555` when the id is unknown or its colour is empty; never empty |
| JsString.TrimStart | multi-model-chatbot/src/App.js:46 | leading-whitespace removal: the result is a suffix whose dropped prefix is all whitespace and which does not start with whitespace |
| JsString.TrimEnd | multi-model-chatbot/src/App.js:46 | trailing-whitespace removal: the result is a prefix whose dropped tail is all whitespace and which does not end with whitespace |
| JsString.BlankIffTrimEmpty | multi-model-chatbot/src/App.js:46 | the guard's blankness test (every character is whitespace) holds exactly when `input.trim()` is the empty, falsy string |
| ChatSession.Classify | multi-model-chatbot/src/App.js:56-86 | first-match outcome: 429 is rate-limited; any other non-2xx status is an HTTP error with its status text; a 2xx status with a readable body is an answer with `choices[0].message.content`; a thrown exception is a failure with its message |
| ChatSession.RateLimitBeforeStatus | multi-model-chatbot/src/App.js:69-80 | a 429 is not ok, yet it is reported as rate limiting and never as a generic status error |
| ChatSession.Append | multi-model-chatbot/src/App.js:38-43 | the list grows by exactly one message at its end; the old messages are an unchanged prefix and the last one has the given role and content |
| ChatSession.TakeLast | multi-model-chatbot/src/App.js:54 | `slice(-n)`: the result has length `min(n, |s|)` and is the suffix of `s` of that length |
| ChatSession.ReduceAll | multi-model-chatbot/src/App.js:65 | each message is reduced to its role and content, same length and order |
| ChatSession.ContextWindowShape | multi-model-chatbot/src/App.js:54-65 | the context has length `min(12, |messages|+1)`, ends with the new user message, and before it holds the last messages of the pre-send list in order, reduced to role and content |
| ChatSession.SliceThenReduce | multi-model-chatbot/src/App.js:54-65 | slicing the list and then reducing it, as the source does, yields the same context as `ContextWindow` (which reduces first), whatever the new message's timestamp |
| ChatSession.OutgoingRequest | multi-model-chatbot/src/App.js:46-67 | a request is issued exactly when the guard accepts; it names the current model and carries the context window of the pre-send messages and the untrimmed input: `min(12, |messages|+1)` messages ending with that input as a user message |
| ChatSession.SendEffects | multi-model-chatbot/src/App.js:45-54 | a blank input or a pending turn leaves the state unchanged; an accepted send clears the error, appends one user message with the untrimmed input after an unchanged prefix, empties the input and raises `loading` and `botTyping` |
| ChatSession.AfterSettle | multi-model-chatbot/src/App.js:69-88 | every outcome drops `loading` and `botTyping` and keeps the old messages as a prefix. Only an answer appends, exactly one assistant message with the reply's content. Rate limiting sets the fixed rate-limit text, any other status error `"Error: " + statusText`, a failure `"Network or API error: " + message` |
| ChatSession.AfterModelChange | multi-model-chatbot/src/App.js:97-101 | switching model sets the model, empties the messages and clears the error, leaving input and flags alone |
| ChatSession.ConsistentPreserved | multi-model-chatbot/src/App.js:29-31 | `loading == botTyping` is preserved by sending, settling, switching model and typing |
| ChatSession.OneRequestInFlight | multi-model-chatbot/src/App.js:46 | after an accepted send, a second send issues no request and changes nothing |
| ChatSession.TurnOutcome | multi-model-chatbot/src/App.js:45-88 | after send then settle, the user message sits right after the old messages whatever the outcome. An answer adds exactly the assistant reply after it and leaves no error; every other outcome adds nothing and leaves an error; `loading` ends false |
| ChatSession.LateAnswerAfterModelChange | multi-model-chatbot/src/App.js:97-101 | a model switch while a turn is pending does not cancel it: the answer becomes the only message of the emptied conversation |
| ChatSession.Session.constructor | multi-model-chatbot/src/App.js:26-31 | the initial state: no messages, empty input, the first registry model, not loading, no error, no typing indicator |
| ChatSession.Session.SetInput | multi-model-chatbot/src/App.js:161 | typing replaces the input and nothing else |
| ChatSession.Session.AppendMessage | multi-model-chatbot/src/App.js:38-43 | the message list becomes `Append` of the old list; the other fields are unchanged |
| ChatSession.Session.SendMessage | multi-model-chatbot/src/App.js:45-67 | the new state is `AfterSend` of the old, and the returned request is `OutgoingRequest` of the old state, built from the message list as it was before the append |
| ChatSession.Session.Settle | multi-model-chatbot/src/App.js:69-88 | the new state is `AfterSettle` of the old state and the outcome, so it keeps `loading == botTyping` |
| ChatSession.Session.HandleModelChange | multi-model-chatbot/src/App.js:97-101 | the new state is `AfterModelChange` of the old |
| HistoryPanel.Entries | multi-model-chatbot/src/ChatHistoryPanel.js:4-6 | an entry is kept exactly when it is in the history and its chat has a present, non-empty message list; kept entries keep their relative order and their ids stay unique |
| HistoryPanel.Preview | multi-model-chatbot/src/ChatHistoryPanel.js:67 | the preview is the last message's content, or `'Empty chat'` when there is no last message or its content is empty; never empty |
| HistoryPanel.Rows | multi-model-chatbot/src/ChatHistoryPanel.js:66-68 | one row per kept entry in the same order, with its id and model name; its preview is from its last message, which always exists; it is selected exactly when its id equals `selectedChatId` |
| HistoryPanel.ShowsPlaceholder | multi-model-chatbot/src/ChatHistoryPanel.js:63-64 | "No past chats" shows exactly when no stored chat has a message |
| HistoryPanel.ClickedId | multi-model-chatbot/src/ChatHistoryPanel.js:78 | clicking a row passes that entry's own id, the id of a stored chat with messages; the row is highlighted exactly when that id is the selected one |
| HistoryPanel.AtMostOneSelected | multi-model-chatbot/src/ChatHistoryPanel.js:68 | with unique ids, no two rows are highlighted |

## Left out

- The HTTP call is not modelled: `fetch`, its headers, the bearer key read from the environment, `JSON.stringify` and `response.json()`. `Settle` takes the call's outcome as a parameter. A body that cannot be read, or has no `choices[0].message`, appears as `Unreadable` with the thrown message.
- React's machinery is not modelled: `useState` scheduling, the `useEffect` scroll-into-view and `useRef`. Setters are direct field updates. The stale `messages` closure at line 54 is the message list captured at the start of `SendMessage`.
- Asynchronous overlap is left out. A turn is `SendMessage` followed later by `Settle`, and any other handler may run in between.
- Timestamps are opaque clock readings passed in as parameters. `formatTime` and locale formatting are not modelled.
- All rendering is left out: JSX, avatars, message bubbles, styles, the typing indicator's markup and the sidebar's open/closed toggle. The Enter-key handler only calls `sendMessage`. The `disabled` attributes on the input and send button are not modelled.
- `ChatHistoryPanel` receives `chatHistory` from a parent component that is not part of this model. Storage, a retention cap, eviction and switching conversations are not implemented in these two files, so they are not modelled. `Object.entries` enumeration order is taken as given: the model receives the entries as an ordered list of (id, chat) pairs with unique ids.
- JsString.IsWhitespace: JavaScript strings are UTF-16 code units and Dafny's `char` is a Unicode scalar value. Every character `trim` strips lies in the Basic Multilingual Plane, so only lone surrogates, which Dafny strings cannot hold, are outside the model.
- ChatSession.Message: a message's content is a string. A `null` or non-string `choices[0].message.content`, which the source would append as is, is not modelled.
- HistoryPanel.Preview: only an empty string counts as falsy content. A `null` last element, which `?.` would also turn into `'Empty chat'`, is not modelled.
