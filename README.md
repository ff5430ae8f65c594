# Chat gateway and chat list, modelled in Dafny

This project models the two pieces of decision and state-update logic in a small
AI chat application.

- **The backend `/chat` endpoint** (`backend/server.js`). A process-wide rate gate
  admits at most one request per 1000 ms. It keeps the time of the last admitted
  request in `lastRequestTime`, which starts at 0. An admitted request takes the slot
  before its message is checked. A missing or empty message gets a 400. A valid
  message goes to OpenAI. If OpenAI throws, or returns no `choices`, the message goes
  to Gemini once. Gemini's text is sent back tagged as a failover. A Gemini
  `insufficient_quota` error gives a fixed apology with status 200. Any other Gemini
  failure gives a 500.
  The module `Gateway` holds the class `ChatServer`, which owns `lastRequestTime` and
  a ghost history of admission times. Its `Valid()` invariant says that any two
  admitted requests are at least 1000 ms apart. Pure functions choose the reply from
  the provider outcomes, which are inputs. The handler returns the trace of provider
  calls it made.
- **The front end's chat list** (`frontend/src/App.js`). `createNewChat`,
  `updateChatTitle`, the list updates of `handleSubmit` and the `activeMessages`
  lookup each build a new list from the old one. The module `ChatList` models them as
  pure functions over `AppState` and `seq<Chat>`. `handleSubmit` is split at its
  `await`. `BeginSubmit` is the synchronous part and `FinishSubmit` is the functional
  `setChats` update that runs when the request settles. The module `JsText` gives
  JavaScript's `trim`, which `handleSubmit` uses to ignore input that is only white
  space.

In the code, `handleSubmit` never renames a chat. `updateChatTitle` queues a renamed
list built from the old `chats`. `setChats(updatedChats)` then replaces it with a list
built from the same old `chats`, in which every title is unchanged. `SubmitWrites`
models both queued writes and `Settle` keeps the last one. `SubmitDiscardsTitleWrite`
proves that the renaming write is queued and then lost.

`Wrappers` holds the `Option` and `Result` datatypes that both sides use.

## Model

| member | source | states |
|---|---|---|
| `Gateway.ChatServer.constructor` | backend/server.js:32-33 | a new server has `lastRequestTime == 0` and no admissions |
| `Gateway.ChatServer.Admit` | backend/server.js:58-65 | admits exactly when `now - lastRequestTime >= 1000`; a rejection changes nothing, an admission sets `lastRequestTime := now`; keeps admissions at least 1000 ms apart |
| `Gateway.ChatServer.HandleChat` | backend/server.js:55-117 | a request within the interval gets 429 `{error, isRateLimit: true}` with state unchanged and no provider call; an admitted request takes the slot first, then gets 400 `{error: 'Message is required'}` with no call when the message is absent or empty, and otherwise the reply and calls of `Route` |
| `Gateway.IsMissing` | backend/server.js:67-69 | `!message` holds exactly when the message is absent or the empty string |
| `Gateway.PrimaryAnswer` | backend/server.js:76-86 | OpenAI yields an answer exactly when the call returned a non-empty `choices` list, and the answer is the first choice, whose content may be `null` |
| `Gateway.CallGemini` | backend/server.js:35-53 | Gemini succeeds exactly when there is a first candidate with a first part, and returns that part, whose `text` may be missing; a rejected request fails with its error code; a missing candidate or part fails with no code |
| `Gateway.FallbackReply` | backend/server.js:90-116 | a Gemini part gives exactly 200 `{response: text, isFailover: true, provider: 'gemini'}` (no `response` when the part has no text); an `insufficient_quota` failure gives exactly 200 `{response: apology, isFailover: true}`; every other failure, and only those, gives exactly 500 `{error: 'Error communicating with AI services', details: 'Both APIs failed'}` |
| `Gateway.Route` | backend/server.js:74-109 | the calls are OpenAI alone or OpenAI then Gemini, with the same message; Gemini is called exactly when OpenAI gave no choice; a choice gives exactly 200 `{response: content}` with no failover fields; otherwise the reply is `FallbackReply`'s; the status is always 200 or 500 |
| `Gateway.FirstRequestAdmitted` | backend/server.js:32-65 | on a fresh server a request at 1000 ms or later is never rate limited |
| `Gateway.MissingMessageTakesSlot` | backend/server.js:58-71 | a request whose message is absent or empty gets 400 yet uses the slot, so a real message sent less than 1000 ms later gets 429 and reaches no provider |
| `Gateway.RepeatWithinInterval` | backend/server.js:58-65 | of two valid requests less than 1000 ms apart on a fresh server, the first is answered with 200 or 500 and the second gets 429 and no provider call |
| `JsText.TrimStart` | frontend/src/App.js:44 | the result is the suffix of the input after its leading white space, and starts with a non-white-space character or is empty |
| `JsText.TrimEnd` | frontend/src/App.js:44 | the result is the prefix of the input before its trailing white space, and ends with a non-white-space character or is empty |
| `JsText.Trim` | frontend/src/App.js:44 | the trimmed string is the slice of the input between a blank prefix and a blank suffix, and has no white space at either end |
| `JsText.TrimEmptyIffBlank` | frontend/src/App.js:44 | `input.trim()` is empty exactly when the input is only white space |
| `ChatList.CreateNewChat` | frontend/src/App.js:21-29 | exactly one chat `{id, messages: [], title: 'New Chat'}` is appended, the existing chats are unchanged, and the new id becomes active |
| `ChatList.CreateNewChatShows` | frontend/src/App.js:21-29 | after creating a chat the shown messages are empty, unless the new id collides with an existing chat, whose messages are then shown |
| `ChatList.TruncateTitle` | frontend/src/App.js:35-37 | a message of at most 30 characters is kept; a longer one becomes its first 30 characters and `...`; a title is never longer than 33 |
| `ChatList.UpdateChatTitle` | frontend/src/App.js:31-40 | only chats with the matching id change, and only their title; length, order, ids and all messages are kept |
| `ChatList.AppendMessage` | frontend/src/App.js:52-61 | the message is appended at the end of every chat with the matching id; length, order, ids, titles and every other chat are kept |
| `ChatList.FindChat` | frontend/src/App.js:109 | finds the position of the first chat with the given id, or reports that no chat has it |
| `ChatList.ActiveMessages` | frontend/src/App.js:109 | the messages of the first chat whose id is `activeChat`, or the empty list when there is none |
| `ChatList.UserMessage` | frontend/src/App.js:46-50 | the user message is `{role: 'user', content: input, timestamp}` with no error or failover flag |
| `ChatList.ReplyMessage` | frontend/src/App.js:73-103 | a parsed body gives an assistant message with `content = response` and the body's `isFailover` (both may be absent); a throw gives the fixed error text with `isError: true` |
| `ChatList.BeginSubmit` | frontend/src/App.js:42-64 | white-space-only input leaves the state unchanged and sends nothing; otherwise the user message is appended to the active chat only, the input is cleared, loading starts, and the text is sent for the active chat |
| `ChatList.FinishSubmit` | frontend/src/App.js:66-106 | exactly one reply message is appended to each chat whose id was active at submit time, nothing else in the list changes, and loading stops |
| `ChatList.TitleWrites` | frontend/src/App.js:52-57 | `chats.map` queues one `updateChatTitle` value per chat that has the active id and no messages yet: the number of writes equals the number of such chats, so a write is queued exactly when one exists; every queued value is the list renamed by `updateChatTitle(activeChat, input)` |
| `ChatList.SubmitWrites` | frontend/src/App.js:52-62 | the values handed to `setChats` before the next render: the title writes, then `updatedChats` last; there are at least two exactly when the active chat has no messages |
| `ChatList.Settle` | frontend/src/App.js:56-62 | React's rule for plain values handed to a setter before the next render: the last one is rendered and the earlier ones are lost; with none the list is kept |
| `ChatList.SubmitDiscardsTitleWrite` | frontend/src/App.js:52-62 | when the active chat gets its first message a renaming write is queued, but the last write, `updatedChats`, wins, and every chat keeps its title |
| `ChatList.FindChatSameIds` | frontend/src/App.js:109 | lists with the same ids in the same order have their first match at the same position |
| `ChatList.SubmitThenFinish` | frontend/src/App.js:42-109 | a submit followed by its reply adds exactly the user message and then the one reply to the shown messages |
| `ChatList.InitialFirstSubmit` | frontend/src/App.js:7-10 | the component starts with one empty chat, id 1, titled 'New Chat' and shown; its first message is sent for chat 1, becomes the only message shown, and the chat stays titled 'New Chat' |

## Left out

- Express, CORS and JSON set-up, `app.listen`, the generic error middleware and loading the environment (backend/server.js:1-10, 119-132). These are plumbing.
- The start-up probe `generateResponse` (backend/server.js:12-29). It is a network call whose result is only logged.
- The HTTP requests to OpenAI and Gemini (backend/server.js:37-47, 76-80). What they produced is an input: `PrimaryOutcome` and `GeminiOutcome`. The model does not capture that OpenAI is called through a method the client may not have. The primary outcome is a free input, so every case is covered.
- Logging (`console.warn`, `console.error`).
- Concurrency. The rate gate's check and update run before any `await`, so the handler is modelled as one sequential step.
- The clock. `now`, chat ids and timestamps are parameters. Chat ids come from `Date.now()` and can collide, so no lemma assumes they are unique.
- Number width. `now - lastRequestTime` is a JavaScript floating-point subtraction. It is modelled on unbounded integers, which is exact for millisecond clock values.
- A `message` that is present but not a string (a number, an object) is not modelled; the request body's `message` is an optional string.
- String length. JavaScript's `length` and `substring` count UTF-16 code units. `TruncateTitle` counts Dafny characters, which are Unicode scalar values. The two differ only for characters outside the Basic Multilingual Plane.
- React rendering: scrolling, the JSX, time formatting, the loading indicator and choosing a chat from the sidebar (frontend/src/App.js:11-19, 111-197).
- React's update queue is modelled only as far as `handleSubmit` uses it: plain values handed to `setChats` before the next render, of which the last one wins (`Settle`). This is a statement of React's behaviour, not something proved about it.
- JSON `null` and an absent property are not told apart in a response body. A `null` OpenAI content gives `{response: null}` and a Gemini part without text gives a body with no `response`; both are `response: None` in the model, and both reach the front end as a falsy `data.response`.
