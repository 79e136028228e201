# Prompt optimizer chat: a Dafny model of its data flow

The system is a small chat application. A single-page React view (`App`) lets
a user type a prompt, opens a server-sent-event stream to `/generate`, shows
the reply token by token, and renders replies that contain triple-backtick
fences as alternating prose and code sections. A Flask back end (app.py)
keeps one shared conversation history (the `Conversation` class of main.py),
formats each prompt, streams the Gemini model's reply as `token` events
followed by `done` (or `error` then `done`), and records the reply in the
history.

The model has six modules, one file each:

- `common.dfy` (`Common`): the optional value, the two roles, and the
  JavaScript string built-ins the view relies on: `split('\n')`, `trim()`
  (with ECMAScript's white-space and line-terminator set) and `includes`.
- `sections.dfy` (`Sections`): `renderModelResponse`. It has a specification
  (`Scan`, one `Step` per line, then `Flush` for the leftover text) and a
  method holding the source's `for` loop, proved against it. Lemmas say what
  the sections are.
- `chat.dfy` (`Chat`): the view's state machine. Each handler is a pure
  transition on `ChatState`. The class `App` keeps the same state in fields
  and updates it in place. Each of its handlers is proved to produce the pure
  transition, and each keeps `Consistent`: while a stream is open the view is
  loading and the last message shows the reply so far.
- `backend.dfy` (`Backend`): main.py's `Conversation`. It holds the seeded
  history and `generate`, whose chunk loop is a method proved against
  `ResponseText`.
- `server.dfy` (`Server`): app.py. It covers the `is_followup` parse, the
  streaming endpoint's own prompt format, `generate_stream` (a loop that
  emits events, proved against `StreamEvents`), and `generate_complete` with
  its newest-entry selection.
- `session.dfy` (`Session`): one exchange end to end. The server's events are
  delivered to the view until its handler closes the stream.

The Gemini call is a parameter of type `GeminiCall`. It maps the history it
is sent to a `ChunkStream`: the chunk texts in order, each possibly absent,
then possibly the message of an exception raised after them. Since the
history passed in already ends with the new user entry, the contracts show
that the prompt is recorded before the model is called. React's state
updaters are applied in the order the handlers issue them. The browser's
event delivery is `Chat.Deliver`: events reach `onmessage` in order until the
handler closes the stream.

The two back-end files format a first prompt differently. The streaming
endpoint writes a blank line after the header (`Server.FormatStreamPrompt`).
`generate` writes a single line feed (`Backend.FormatPrompt`). Both are kept,
and `Server.FirstPromptFormatsDiffer` states the difference.

Two behaviours of the source are worth knowing. First, only a line that trims
to exactly three backticks is a fence, so an opening fence with a language
tag (```` ```python ````) is kept as text, and the closing fence that follows
it then opens a code block (`Sections.TaggedFenceExample`). Second, `/generate_complete` can never answer
"No response generated yet.": `generate` either raises or leaves the reply as
the newest entry (`Server.LatestIsReply`).

## Model

| member | source | states |
|---|---|---|
| `Common.SplitLines` | frontend/src/App.jsx:198 | `split('\n')` gives at least one piece; no piece contains a line feed; there is one more piece than line feeds |
| `Common.JoinSplitLines` | frontend/src/App.jsx:198 | joining the pieces with line feeds gives back the original text |
| `Common.SplitJoinLines` | frontend/src/App.jsx:198 | splitting inverts joining, for pieces without line feeds |
| `Common.TrimStartSpec` | frontend/src/App.jsx:203 | the removed prefix is all white space, and the result starts with a non-white-space character or is empty |
| `Common.TrimEndSpec` | frontend/src/App.jsx:203 | the removed suffix is all white space, and the result ends with a non-white-space character or is empty |
| `Common.TrimSpec` | frontend/src/App.jsx:203 | `trim()` is the text between two white-space margins, and neither of its ends is white space |
| `Common.BlankIffAllWhitespace` | frontend/src/App.jsx:31 | `!prompt.trim()` holds exactly when every character of the prompt is white space |
| `Common.Includes` | frontend/src/App.jsx:160 | `includes` is true exactly when the pattern occurs at some position |
| `Sections.Render` | frontend/src/App.jsx:158-163 | a reply is rendered whole as markdown exactly when it has no triple backtick, and then unchanged |
| `Sections.RenderModelResponse` | frontend/src/App.jsx:158-229 | the loop over the lines computes `Render`: the scan state after each prefix of lines is `Scan` of that prefix |
| `Sections.ScanConcat` | frontend/src/App.jsx:200-221 | finished sections plus the current text hold exactly the non-fence lines read so far, each followed by a line feed |
| `Sections.ScanTextNonEmpty` | frontend/src/App.jsx:203-208 | a text section is pushed only when it is not empty |
| `Sections.ScanParity` | frontend/src/App.jsx:203-216 | the scan is inside a code block exactly when an odd number of fences has been read |
| `Sections.ScanCodeCount` | frontend/src/App.jsx:211-215 | every closing fence pushes one code section, empty or not, and nothing else pushes one |
| `Sections.ScanCurrentText` | frontend/src/App.jsx:205-220 | the text being built is exactly the lines after the last fence |
| `Sections.SectionsConcat` | frontend/src/App.jsx:200-229 | fence lines appear in no section: the sections concatenated are the other lines, in order, each followed by a line feed |
| `Sections.SectionsTextNonEmpty` | frontend/src/App.jsx:203-229 | no text section of the result is empty |
| `Sections.SectionsCodeCount` | frontend/src/App.jsx:211-229 | code sections = closed blocks (even empty ones) + 1 if a block is left open with text after its fence |
| `Sections.SectionsLeftover` | frontend/src/App.jsx:223-229 | non-empty text after the last fence ends the list, as code if the fences are unbalanced and as text otherwise; empty leftover adds nothing |
| `Sections.EmptyBlockExample` | frontend/src/App.jsx:211-215 | a fence followed at once by a closing fence renders as one empty code section |
| `Sections.TaggedFenceExample` | frontend/src/App.jsx:200-229 | a reply opening with a language-tagged fence renders its tag line and block as text, and the text after the closing fence as code |
| `Chat.FlagText` | frontend/src/App.jsx:54 | the URL flag is "true" exactly for a follow-up and "false" otherwise |
| `Chat.SetLastModelContent` | frontend/src/App.jsx:70-80 | only the last message changes, and only if it is a model message; the length is kept |
| `Chat.ApologizeIfEmpty` | frontend/src/App.jsx:96-105 | the apology replaces the last message only if it is an empty model message; nothing else changes |
| `Chat.TypeStep` | frontend/src/App.jsx:553 | typing changes the prompt field and nothing else |
| `Chat.SubmitStep` | frontend/src/App.jsx:29-146 | a blank prompt changes nothing; otherwise exactly the user message and a model message are appended after the unchanged list, the field is cleared, and the request carries the prompt and a follow-up flag that is true iff the list was non-empty; if the connection throws, loading stops and the model message shows the apology |
| `Chat.MessageStep` | frontend/src/App.jsx:61-110 | the reply so far grows by the token; the list keeps its length and all but its last message; `done` or an error stops loading and closes the stream, and anything else leaves both as they were; a token rewrites the last message, if it is the model's, to the reply so far, and an error then puts the apology into it only if it is still empty |
| `Chat.ConnectionErrorStep` | frontend/src/App.jsx:112-129 | loading stops, the stream is closed, and the apology replaces only an empty model message |
| `Chat.ClearStep` | frontend/src/App.jsx:148-155 | the list is emptied, loading stops and the stream is closed; the prompt field is kept |
| `Chat.StepsKeepConsistent` | frontend/src/App.jsx:13-155 | every transition keeps the view consistent: loading iff a stream is open, and then the last message is the model's reply so far |
| `Chat.TokensAccumulate` | frontend/src/App.jsx:65-81 | after any run of tokens the stream is still open, no message is added, earlier messages are unchanged, and the last message is the reply so far followed by all the tokens |
| `Chat.SubmitThenTokens` | frontend/src/App.jsx:39-81 | after a submit and any run of tokens, the list is the old list, the user's prompt, and a model message holding the tokens concatenated |
| `Chat.App.constructor` | frontend/src/App.jsx:14-16 | the view starts with an empty prompt, no messages and not loading |
| `Chat.App.SetPrompt` | frontend/src/App.jsx:553 | the in-place update performs `TypeStep` |
| `Chat.App.HandleSubmit` | frontend/src/App.jsx:29-146 | the in-place handler performs `SubmitStep`; a blank prompt leaves the object unchanged; otherwise two messages are appended to the unchanged list |
| `Chat.App.OnMessage` | frontend/src/App.jsx:61-110 | the in-place handler performs `MessageStep`; on a token, while the stream is open, the last message becomes the old reply plus the token |
| `Chat.App.OnConnectionError` | frontend/src/App.jsx:112-129 | the in-place handler performs `ConnectionErrorStep` and stops loading |
| `Chat.App.ClearConversation` | frontend/src/App.jsx:148-155 | the in-place handler performs `ClearStep`: no messages and not loading |
| `Chat.App.ApologizeInPlace` | frontend/src/App.jsx:96-105 | the shared error updater performs `ApologizeIfEmpty` on the list, and keeps the view consistent when called, as both error paths do, after the stream is closed and loading has stopped |
| `Backend.Seed` | main.py:16-77 | a new history has exactly two entries, user then model, forming one complete exchange |
| `Backend.Conversation.constructor` | main.py:13-77 | a new conversation's history is the seed |
| `Backend.FormatPrompt` | main.py:141 | a follow-up is sent unchanged; a first prompt is the one-line header followed by the unchanged prompt |
| `Backend.ResponseTextAppend` | main.py:165-172 | the reply accumulates in stream order: the reply to two parts of a stream is the first part's reply followed by the second's |
| `Backend.ResponseTextSkipsMissing` | main.py:172 | a chunk whose text is absent or empty adds nothing to the reply |
| `Backend.AfterTurn` | main.py:144-182 | the history grows by the user entry, then by the model entry holding the reply unless the call raised; earlier entries are unchanged |
| `Backend.TurnPairing` | main.py:144-182 | a call that succeeds keeps user and model entries alternating in complete pairs; one that raises leaves the history ending with the user entry |
| `Backend.Conversation.Generate` | main.py:139-182 | the user entry is appended before the model is called, with the history that includes it; the history then becomes `AfterTurn`, and the call's exception, if any, is passed on |
| `Server.Lower` | app.py:17 | lower-casing keeps the length and lowers each letter |
| `Server.IsFollowupParam` | app.py:17 | the flag is true iff the parameter is present and spells "true" in any case; a missing parameter means false |
| `Server.FormatStreamPrompt` | app.py:20-25 | a follow-up is sent unchanged; a first prompt is the header, a blank line, then the unchanged prompt |
| `Server.FirstPromptFormatsDiffer` | app.py:25 | the streaming endpoint's first-prompt format never equals `generate`'s; it is `generate`'s format for the prompt with one more line feed in front |
| `Server.TokensCarryResponse` | app.py:55-61 | no token event is empty, and the tokens concatenated are exactly the reply `generate` would record |
| `Server.TokenTextsAppend` | app.py:41-61 | tokens are sent in stream order |
| `Server.OneTokenPerTextChunk` | app.py:55-61 | each chunk with text sends exactly one token, and no other chunk sends any |
| `Server.StreamEnding` | app.py:63-79 | after the tokens come exactly one `done`, preceded by one `error` exactly when the call raised |
| `Server.GenerateStream` | app.py:19-79 | the user entry is recorded before the model is called; the events are the tokens then `done` (or `error`, `done`); the reply is recorded only on success |
| `Server.LatestResponse` | app.py:93-96 | the answer is the first part's text of the newest entry, or the placeholder when there is no entry or it has no parts |
| `Server.LatestIsReply` | app.py:90-96 | after a successful call the newest entry is the model's reply, so the placeholder is never returned |
| `Server.GenerateComplete` | app.py:84-100 | a missing body means an empty first prompt; the answer is the streamed reply on success and none when the call raised |
| `Session.FollowUpFlagRoundTrip` | frontend/src/App.jsx:54 | the server reads back exactly the follow-up flag the view wrote into the URL |
| `Session.DeliverAppend` | frontend/src/App.jsx:84-92 | events are delivered in order: two batches are the first then the second, and a view whose stream is closed receives none |
| `Session.EndingShown` | frontend/src/App.jsx:84-105 | delivering `done`, or `error` then `done`, to an open view closes it, stops loading and leaves the reply so far in the last message, or the apology when that reply is empty and the error message is not |
| `Session.ReplyShown` | frontend/src/App.jsx:61-110 | after a whole server stream, the view is idle and consistent, and only its last message changed: it shows the reply, or the apology if the call failed before any text with a non-empty error |
| `Session.SubmitThenStream` | frontend/src/App.jsx:29-110 | a submit followed by any whole stream appends exactly the user's prompt and the model message as shown, and leaves the view idle |
| `Session.SubmitAndStream` | frontend/src/App.jsx:29-110 | the request a submit sends is read by `/generate` as the typed prompt with the right follow-up flag; the model is called on the server's history plus that entry, and delivering its whole stream appends exactly the user's prompt and the model message as shown; on success that message equals the reply the server recorded |

## Left out

- The JSX rendering: markdown, syntax highlighting, layout, styling, the copy button and its clipboard call, and the landing page, footer and theme. They are presentation, with no state to model.
- The EventSource construction, the URL encoding and `JSON.parse`. The view's events are `Chat.ServerEvent` values. A payload that fails to parse is only logged by the source, so it is not modelled.
- JavaScript truthiness of `data.token` and `data.error` is modelled for strings only. A missing field or an empty string reads as "". Values of other JSON types are not modelled.
- React's asynchronous batching and effect clean-up. Updaters apply in issue order. The in-place mutation of `lastMessage`, which aliases the previous list's element, is modelled as replacing that element of a value sequence.
- Chat.App.OnMessage and Chat.App.OnConnectionError do not require an open stream. The browser never calls them on a closed one, and `Chat.Deliver` models that.
- The submit and input controls are disabled while loading. That lives in the JSX, so `HandleSubmit` is modelled for every state, as the handler itself is.
- Server.Lower lowers ASCII letters only. Python's `lower` also lowers other letters, but no other character lowers to a letter of "true", so the flag parse is unaffected.
- The Gemini client, its configuration (model name, temperature, top-p, top-k, token limit, system instruction) and the printing in `generate`. The client is replaced by the `GeminiCall` parameter.
- The wording of the seeded prompt and reply and of the system instruction. `Backend.SeedPrompt` and `Backend.SeedReply` are stand-ins; only the roles and the number of seeded entries are modelled.
- Flask, CORS, `Response`, `stream_with_context`, the `data: ...` wire text, and the lazy start of the generator. The streaming endpoint is modelled as if its generator runs to the end once the response is requested.
- Requests that share the global conversation concurrently. Calls are modelled one at a time.
- `generate_complete` with a non-empty JSON body that lacks `prompt` or `is_followup`, which raises a key error. `is_followup` values other than booleans are not modelled either.
- main.py's interactive `input()` loop.
