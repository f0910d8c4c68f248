# Chat widget send/receive controller

A Dafny model of the conversation controller inside the `App` component of
an embeddable chat widget. The widget holds three pieces of state:

- `messages`, the chat history. It starts with two model greetings with ids "1" and "2".
- `input`, the text-area buffer.
- `isTyping`, the flag that a reply is pending.

The send handler runs in four steps:

1. It ignores a send whose input is blank after `trim()`, or that comes while a reply is pending.
2. Otherwise it appends the untrimmed input as a user turn, clears the buffer and raises the flag.
3. It hands the pre-clear input to the hosted chat model.
4. When that call settles it appends one model turn and lowers the flag. The turn holds the reply
   text, a fixed fallback when the reply text is empty or absent, or a fixed error text when the call threw.

Files:

- `strings.dfy` (module `Strings`): JavaScript's `String.prototype.trim`, as section 22.1.3.32 of
  ECMAScript 2024 defines it. It strips the WhiteSpace and LineTerminator code points of
  sections 12.2 and 12.3. The file also proves that `trim()` gives `""` exactly when every
  character is white space.
- `messages.dfy` (module `Messages`): the `Message` record and its `user`/`model` role.
- `session.dfy` (module `ChatSession`): the controller as a state machine over values.
  - The transitions are `Send`, `Settle` and `Edit`.
  - The invariant `WellFormed`: after the greetings, user and model turns alternate; user turns
    are never blank; model turns are never empty; a reply is pending exactly when the last turn
    is an unanswered user turn.
  - Legal event sequences and the lemmas that every step and every run keep the invariant and
    only append to the history.
  - Three concrete scenarios.
- `controller.dfy` (module `AppController`): the class `ChatController`.
  - Its fields `messages`, `input` and `isTyping` are updated in place by `Edit` (the text
    area's change handler), `BeginSend` (the handler up to the `await`) and `Resolve` (the
    handler after it, with the try/catch/finally).
  - Each method is proved to perform the matching `ChatSession` transition and to keep `WellFormed`.
  - `SendDisabled` is the send button's `disabled` expression.
  - Two client methods show what callers can derive from these contracts.

The outcome of the chat call is a parameter of `Resolve`:

- `Reply(text)`: `text` is `None` when the response carries no text.
- `Error(detail)`: the call threw.

The ids the handler builds from the clock are parameters too (`userId`, `modelId`).

## Model

| member | source | states |
|---|---|---|
| `Strings.TrimStart` | src/App.tsx:49 | The result is a suffix of the input, everything it drops is white space, and it does not start with white space. |
| `Strings.TrimEnd` | src/App.tsx:49 | The result is a prefix of the input, everything it drops is white space, and it does not end with white space. |
| `Strings.Trim` | src/App.tsx:49 | `trim()` is never longer than its input, and a non-empty result begins and ends with a non-white-space character. |
| `Strings.TrimEmptyIffBlank` | src/App.tsx:49 | `input.trim()` is the empty (falsy) string exactly when every character of the input is white space. |
| `ChatSession.ReplyText` | src/App.tsx:62-79 | The text of the appended model turn is never empty, and after a thrown error it is exactly the fixed error text. |
| `ChatSession.SendGuard` | src/App.tsx:48-60 | A send is accepted exactly when the input is not blank and no reply is pending. A rejected send leaves history, buffer and flag unchanged: it is dropped, not queued. An accepted send appends exactly one user turn with the untrimmed input, keeps every earlier turn, clears the buffer and raises the flag. |
| `ChatSession.SettleAppendsModelTurn` | src/App.tsx:62-82 | A settled call appends exactly one model turn behind the unchanged history. Its text is the reply when the reply is non-empty, "I'm sorry, I couldn't process that." when the reply is empty or absent, and "I encountered an error. Please try again later." when the call threw. The flag is lowered, the buffer is kept, and a send is accepted again as soon as the buffer is not blank. |
| `ChatSession.ErrorDetailHidden` | src/App.tsx:71-79 | Two failures with different error details produce the same state, so the detail never reaches the history. The appended text is the fixed error text. |
| `ChatSession.RoundTrip` | src/App.tsx:48-83 | A completed round trip from an accepting state extends the history by exactly two turns, user then model, behind the unchanged prefix, and ends idle with an empty buffer. |
| `ChatSession.InitialWellFormed` | src/App.tsx:23-38 | The mounted widget holds two model greetings with ids "1" and "2", an empty buffer and a lowered flag. It rejects sends, and it satisfies the invariant. |
| `ChatSession.PendingDropsSends` | src/App.tsx:49 | In a reachable state with a pending reply, the last turn is the user's, and any further send changes nothing. |
| `ChatSession.StepPreservesWellFormed` | src/App.tsx:48-83 | Every single event (typing, a send, a settled call) keeps the invariant and only appends to the history. |
| `ChatSession.RunPreservesWellFormed` | src/App.tsx:48-83 | Over any legal sequence of events the invariant holds and the history only grows at the end: no turn is lost, reordered or rewritten. |
| `ChatSession.ReachableFromInitial` | src/App.tsx:23-36 | Every state reached from the mounted widget satisfies the invariant and still starts with the two greetings. |
| `ChatSession.HelloScenario` | src/App.tsx:48-70 | From the mounted widget, sending "Hi" gives three turns and a pending reply. The reply "Hello!" then gives four turns, the last being the model's "Hello!", and an idle widget. |
| `ChatSession.HelloScenarioFrom` | src/App.tsx:48-70 | From any idle history with an empty buffer, typing "Hi" and sending it appends the user turn "Hi" and leaves a reply pending. The reply "Hello!" then appends the model turn "Hello!" and the widget is idle. |
| `ChatSession.FailureScenarioFrom` | src/App.tsx:71-82 | From any idle history with an empty buffer, sending "Hi" appends the user turn. A call that throws then appends the model turn with the fixed error text, whatever the error, and the widget is idle. |
| `ChatSession.FailureScenario` | src/App.tsx:71-82 | Sending "Hi" and having the call throw ends with the error text as the last turn and an idle widget. |
| `ChatSession.DroppedSecondSubmitFrom` | src/App.tsx:49-60 | From any idle history with an empty buffer, sending "A" and then "B" before the reply appends only the user turn "A". "B" stays in the buffer and the reply is still pending. |
| `ChatSession.DroppedSecondSubmit` | src/App.tsx:49-60 | Sending "A" and then "B" before the reply records only "A", as the third turn. The second send leaves the history unchanged, "B" stays in the buffer and the reply is still pending. |
| `AppController.ChatController.constructor` | src/App.tsx:23-38 | The component mounts in the initial state (greetings, empty buffer, idle) and satisfies the invariant. |
| `AppController.ChatController.SendDisabled` | src/App.tsx:227 | The send button is disabled exactly when the input is blank or a reply is pending. That is exactly when the send handler's guard rejects. |
| `AppController.ChatController.Edit` | src/App.tsx:215 | Typing replaces the buffer and changes nothing else. The method may modify only `input`. |
| `AppController.ChatController.BeginSend` | src/App.tsx:48-60 | The method returns an utterance exactly when the button was enabled. The new state is the `Send` transition of the old one. The utterance handed to the chat call is the pre-clear input, and it equals the text of the appended user turn. The invariant is kept. |
| `AppController.ChatController.Resolve` | src/App.tsx:62-82 | The new state is the `Settle` transition of the old one. The buffer is untouched (the method may modify only `messages` and `isTyping`), the flag ends lowered, and the invariant is kept. |

## Left out

- The HTTP server in `server.ts` (health route, static files, single-page fallback, dev middleware): it is I/O plumbing with no logic of its own.
- The chat session of the external SDK (`src/services/geminiService.ts:3-13`), its model id, system instruction and API key: it is a foreign call. `Resolve` receives its outcome as a parameter, and the conversation context the SDK keeps is not visible to the model.
- The ids built from `Date.now()` are caller-supplied strings. Nothing is proved about their uniqueness, because the source does not guarantee it: the next turn's user id can equal the previous model id. Timestamps from `new Date()` are dropped.
- React's scheduling is not modelled. Sends and settlements are strictly sequential, atomic steps. In the browser, two sends within one render could both read a stale `isTyping`, and that interleaving is not covered.
- A chat call that never settles leaves `isTyping` raised for ever. The model has no timeout either; it simply never takes the `Settled` step.
- The Enter-key handler (src/App.tsx:216-220) is not a separate member: it calls the same send handler as the button, which `BeginSend` covers.
- Presentation is not modelled: open/close toggle, dragging, auto-scroll, markdown rendering, the typing indicator, the button styling, the inert attachment buttons and `console.error` logging.
- The empty-reply fallback is applied by the controller (src/App.tsx:67), not by the chat client, and the busy state is a boolean rather than an enumeration. The model follows the code in both.
- A reply made only of white space is truthy in JavaScript. It is kept as the model turn's text, not replaced by the fallback, and so the invariant only promises model turns that are non-empty.
- Strings are sequences of Unicode scalar values. JavaScript strings are sequences of UTF-16 code units and can hold lone surrogates, which this model cannot express. No white-space code point is a surrogate, so blank detection is the same on every string the model can express.
