# Guru chat session, modelled in Dafny

The client is a single-page chat. A user picks a persona (a "guru"), types a
question, and reads the reply the backend returns. Its only logic is the
session controller inside the `App` component (`src/App.jsx`). The controller
has six state cells: the persona list, the selected persona, the message
list, the pending input, the `loading` flag and the conversation id. Its
handlers overwrite these cells one at a time.

This project models that controller.

- `js.dfy`, module `Js`: the JavaScript semantics the controller relies on.
  An absent value (`undefined` or `null`) is `None`. `a || b` on strings
  treats `""` as false. `String.prototype.trim` removes the ECMAScript
  whitespace and line-terminator characters.
- `chat.dfy`, module `Chat`: personas, messages, the request body and the
  outcomes the backend can deliver, as datatypes. Each transition is a
  function on a `Session` value, with its contract and the lemmas about it.
- `chat_traces.dfy`, module `ChatTraces`: whole sessions. `Run` applies any
  sequence of events. Lemmas state what stays true along the way.
- `app.dfy`, module `AppSession`: the class `App`. Its fields are the six
  cells. Its methods perform the handlers step by step, and each `ensures`
  ties the new cells to the transition function in `Chat`. Two client
  methods, `AskOnce` and `EnterTwice`, use the class as the page does.

The network is replaced by outcome values. `GurusOutcome` is either a parsed
body or an exception. `AskOutcome` is an ok response (with conversation id
and reply), a non-ok response (with an optional `detail`), or an exception.
`handleSend` awaits between posting and applying the answer, so it is split
in two: `HandleSend` (guard, user message, cleared input, `loading`, request
body) and `CompleteSend(outcome)` (one guru message, conversation id on
success only, then `loading := false` from the `finally`). A ghost counter
`inFlight` counts sends that have started and not completed. It lets the
model state what `loading` does and does not say about pending requests.

Behaviour of the code worth knowing, which the model reproduces:

- `handleSend` does not check `loading`. Only the Send button is disabled
  while loading. The Enter key calls `handleSend` anyway, so a second request
  can be posted while one is awaited. The first answer then clears `loading`
  while the second request is still pending. So `loading` implies that some
  request is pending, but not the reverse, and it does not mean that exactly
  one is (`Consistent`, `OverlappingSendsClearLoadingEarly`).
- When the persona fetch throws, the selection is a separate Zen Teacher
  object without a description. It is not the list's first entry. Its key
  (`id || archetype`) is the same as that entry's, so that card is drawn as
  selected.
- `fetchGurus` never looks at `res.ok`. A non-2xx response with a JSON body
  that has no `gurus` member gives an empty list and leaves the selection
  as it was. Only an exception (network failure, a body that is not JSON, a
  `null` body) leads to the fallback list.
- A reply to `/api/ask` whose body is not JSON throws inside the `try`. It
  therefore produces the "Unable to reach the guidance service right now."
  message, like a network failure.

## Model

| member | source | states |
|---|---|---|
| `Js.TrimStart` | src/App.jsx:43 | Removing leading whitespace never lengthens the text, and the result does not start with whitespace. |
| `Js.TrimStartSplit` | src/App.jsx:43 | What `TrimStart` removes is a whitespace-only prefix; the result is the rest of the text. |
| `Js.TrimEnd` | src/App.jsx:43 | Removing trailing whitespace never lengthens the text, and the result does not end with whitespace. |
| `Js.TrimEndSplit` | src/App.jsx:43 | What `TrimEnd` removes is a whitespace-only suffix; the result is the text before it. |
| `Js.Trim` | src/App.jsx:43 | `input.trim()` is no longer than the input and neither starts nor ends with whitespace. |
| `Js.TrimWindow` | src/App.jsx:43 | The trimmed text is a contiguous part of the input with only whitespace before and after it. |
| `Js.TrimEmptyIffBlank` | src/App.jsx:43-44 | `trimmed` is empty exactly when every character of the input is whitespace (both directions). |
| `Js.TrimUnique` | src/App.jsx:43 | Any whitespace-surrounded part of the text that neither starts nor ends with whitespace is the trimmed text, so trimming is fully determined. |
| `Js.TrimIdempotent` | src/App.jsx:43 | Trimming an already trimmed text changes nothing. |
| `Chat.GuruKey` | src/App.jsx:57 | A persona's key (`id`, or else `archetype`) is one of those two members. It is a non-empty string iff either member is. It is `id` when that is a non-empty string and `archetype` otherwise. |
| `Chat.IsSelectedCard` | src/App.jsx:101 | A card is drawn as selected iff its `id`-or-`archetype` key equals the selected persona's key under `===`. With nothing selected the left key is absent, so only a card with no key at all is drawn as selected. |
| `Chat.AfterFetchGurus` | src/App.jsx:17-33 | A parsed body sets the list to `gurus`, or `[]` when absent, and selects its first entry only when it is non-empty. An exception sets the three built-in personas and the description-less Zen Teacher. Messages, input, `loading` and conversation id are untouched. |
| `Chat.FallbackSelectsZenCard` | src/App.jsx:27-32 | After the fallback the keys are zen, yogi, astrologer. The selection differs from the first list object, yet exactly the Zen card is drawn as selected. |
| `Chat.FetchedListSelection` | src/App.jsx:21-24 | After a parsed body, something is selected iff the list is non-empty or something was selected before. The first card of a non-empty list is drawn as selected. |
| `Chat.AfterSelect` | src/App.jsx:101 | Clicking a card selects that persona and draws its card as selected. Messages, conversation id, list, input and `loading` are unchanged. |
| `Chat.AfterInput` | src/App.jsx:130 | Typing replaces only the pending input. |
| `Chat.CanSendIffNotBlank` | src/App.jsx:43-44 | The send guard passes iff a persona is selected and the input has a non-whitespace character. |
| `Chat.AfterSend` | src/App.jsx:42-59 | A request is posted iff the guard passes; otherwise the session is unchanged. A passing send appends exactly `{user, trimmed}`, clears the input, sets `loading` and adds one pending send. The request carries the current conversation id, the persona key and the trimmed text, which is non-empty and has no surrounding whitespace. The conversation id and selection are unchanged. |
| `Chat.RequestGuruId` | src/App.jsx:57 | `guru_id` is the persona's `id` when that is a non-empty string, else its `archetype`. |
| `Chat.GuruReply` | src/App.jsx:62-69 | The answer is a guru message. On ok it is the reply. On not-ok it is "Sorry, an error occurred: " followed by `detail`, or by "Unknown error" when `detail` is missing or empty. On an exception it is the fixed unreachable text. |
| `Chat.DetailReadable` | src/App.jsx:66 | Two non-empty details give the same error message iff they are equal, so the server's detail can be read back. |
| `Chat.AfterComplete` | src/App.jsx:61-72 | Completing a send appends exactly one guru message for the outcome and clears `loading`. The conversation id is taken from an ok response only. List, selection and input are unchanged. |
| `Chat.SendThenComplete` | src/App.jsx:46-72 | A send that is not overlapped by another adds exactly `[user trimmed, guru reply]` after the earlier messages, leaves the input empty and `loading` false, and changes the conversation id only on ok. |
| `Chat.AfterKeyDown` | src/App.jsx:75-80 | A key press posts iff it is Enter without Shift and the guard passes; `loading` is not consulted. A press that posts is exactly a send; any other press changes nothing. |
| `Chat.SendEnabledIffNotBlank` | src/App.jsx:138 | The button is enabled iff not loading and the input has a non-whitespace character. |
| `Chat.AfterClick` | src/App.jsx:136-138 | A click posts iff not loading and the guard passes. A click that posts is exactly a send; a click that posts nothing changes nothing. |
| `Chat.OnlyTheButtonWaits` | src/App.jsx:75-79 | While loading, the Send button posts nothing, but Enter still posts a second request. |
| `Chat.InitialConsistent` | src/App.jsx:6-11 | The initial cells satisfy the session invariant. |
| `Chat.FetchKeepsConsistent` | src/App.jsx:17-33 | Loading personas keeps the session invariant. |
| `Chat.SendKeepsConsistent` | src/App.jsx:46-49 | The first half of a send keeps the session invariant: one more user message, one more pending send. |
| `Chat.CompleteKeepsConsistent` | src/App.jsx:62-72 | Completing a send keeps the session invariant: one more guru message, one fewer pending send. |
| `ChatTraces.Step` | src/App.jsx:100-138 | Each event is handled as the page wires it: card `onSelect`, text area `onChange` and `onKeyDown`, button `onClick`, plus the fetch effect (lines 16-36) and the awaited answer (line 61). No event removes a message. Only an ok response changes the conversation id. Only a fetch or a card click changes the personas or the selection. |
| `ChatTraces.StepKeepsConsistent` | src/App.jsx:42-80 | Every event the page reacts to keeps the session invariant. |
| `ChatTraces.RunKeepsConsistent` | src/App.jsx:42-80 | Along any sequence of events, `loading` implies a pending send. User messages outnumber guru messages by exactly the pending sends. |
| `ChatTraces.IdleSessionsAreAnswered` | src/App.jsx:47-72 | In any session reached from the start with nothing pending, `loading` is false and every user message has its guru message. |
| `ChatTraces.RunAppendsOnly` | src/App.jsx:47-69 | Messages are append-only: the earlier message list is a prefix of the later one, whatever events occur. |
| `ChatTraces.ConversationIdOnlyFromOk` | src/App.jsx:62-67 | Along events that contain no ok response, the conversation id never changes. |
| `ChatTraces.SelectionOnlyFromFetchOrClick` | src/App.jsx:42-72 | Along events without a persona fetch or a card click, the list and the selection never change. |
| `ChatTraces.TypeThenEnter` | src/App.jsx:75-79 | Typing a non-blank text and pressing Enter appends its trimmed form and starts one more send. |
| `ChatTraces.OverlappingSendsClearLoadingEarly` | src/App.jsx:42-79 | Enter pressed twice before the first answer posts two requests. The first answer leaves `loading` false with one request still pending. |
| `AppSession.App.constructor` | src/App.jsx:6-11 | The six cells start empty, null or false, and the invariant holds. |
| `AppSession.App.FetchGurus` | src/App.jsx:17-33 | The cells after the persona fetch are `AfterFetchGurus` of the cells before. |
| `AppSession.App.SetSelectedGuru` | src/App.jsx:101 | The cells after a card click are `AfterSelect` of the cells before. |
| `AppSession.App.SetInput` | src/App.jsx:130 | The cells after typing are `AfterInput` of the cells before. |
| `AppSession.App.HandleSend` | src/App.jsx:42-59 | The cells and the posted request are `AfterSend` of the cells before; the invariant is kept. |
| `AppSession.App.CompleteSend` | src/App.jsx:61-72 | Given a pending send, the cells after the answer are `AfterComplete` of the cells before; the invariant is kept. |
| `AppSession.App.HandleKeyDown` | src/App.jsx:75-80 | Enter without Shift runs `HandleSend`; any other key changes nothing. |
| `AppSession.App.ClickSend` | src/App.jsx:136-138 | A click runs `HandleSend` only when the button is enabled, that is, when not loading and the input is non-blank. |

## Left out

- `fetch`, `res.json()`, the request headers and the base-URL lookup (`src/App.jsx:14`, `19-20`, `52-61`) are I/O. Their results enter only as `GurusOutcome` and `AskOutcome` values.
- The event loop is not modelled. `ChatTraces.Step` applies a `Response` to whichever send is pending. It ignores a `Response` when no send is pending, because that cannot happen. React's batching of state updates is not modelled either: each handler sees the cells after all earlier events.
- `e.preventDefault()` in `handleKeyDown` (`src/App.jsx:77`) acts on the DOM and is not modelled.
- The scroll effect (`src/App.jsx:38-40`), the JSX markup, the CSS classes and the "Thinking…" bubble (`src/App.jsx:120-122`) are presentation only. The bubble is drawn from `loading` and never enters the message list.
- `src/components/GuruCard.jsx` and `src/components/MessageBubble.jsx` are not part of this model. They only choose display defaults; a card's click reaches the model as `SetSelectedGuru`.
- Bodies that are JSON but not objects are left out. `AskOutcome` takes the `/api/ask` body to be an object, and `GurusLoaded` takes `gurus` to be an array of objects. The page does not fail in one uniform way on such bodies, so no outcome value stands for them. A non-ok response whose body is `null` fails at `data.detail` (`src/App.jsx:66`), but inside the `setMessages` updater, which React runs after the `try`/`finally` has ended. That error is not caught: no guru message is added, and it surfaces when `App` renders. An ok response with a `null` body fails at `data.conversation_id` (`src/App.jsx:63`) inside the `try`, which is the `AskThrew` case. A `null` entry in `gurus` is stored and, when first, selected (`src/App.jsx:23`), and rendering then fails at `g.id` (`src/App.jsx:101`).
- JSON values of other types are left out. An `id`, `archetype`, `name`, `avatar`, `reply` or `conversation_id` that is a number, and a `detail` that is an array or object (rendered as "[object Object]"), are not modelled. Each of these fields is a string or absent.
- `null` and `undefined` are both `None` in every optional field: a persona's `id`, `archetype`, `name`, `avatar` and `description`, `conversation_id`, `detail` and the posted `guru_id`. The model therefore does not show whether `JSON.stringify` writes a key with `null` or leaves it out. It also does not show a difference in `IsSelectedCard` with nothing selected: there the left side is `undefined`, and a card whose key is `null` (its `archetype` is JSON `null` and its `id` is falsy) is not drawn as selected, since `undefined === null` is false. The model treats both as absent and draws that card as selected.
- A successful response without `reply` would add a guru message with undefined content. `AskOk` always carries a reply string.
