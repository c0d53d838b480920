# Interview turn controller of EntrevistAI-dor

EntrevistAI-dor is a browser app for practising a React job interview in
Spanish. The candidate presses a record button and speaks. Pressing it again
sends the conversation to a chat backend, speaks the interviewer's reply
aloud, and records the question and answer in the transcript.

This project models the turn controller inside the `App` component of
`src/App.tsx`, and proves what it does with its state:

- the recording flag;
- the live capture buffer, overwritten by the speech-recognition result listener;
- the committed chat transcript, which starts as a single system turn holding the interviewer persona;
- the result listeners attached under the current abort signal (`recordController`), which the stop handler revokes;
- the offered Spanish voices and the selected voice.

Modules, one per concern of the component:

- `Options`: `Option` (JavaScript `undefined`) and `Result` (a value or a thrown error).
- `Transcript`: roles, turns, the initial transcript, and the conversation shape (system turn first, then alternating user/assistant turns).
- `Recognition`: the listener's buffer computation, which is `join(" ")` of each result's first alternative. `Split` is its inverse, used for the round trip.
- `Voices`: the `startsWith("es")` filter, the default selection and the lookup by name.
- `Chat`: the HTTP exchange as an input value, the JSON body, and the checks of `response.ok`, `!data.message` and `typeof data.message.content`.
- `Interview`: the class `InterviewApp` with the handlers `Start`, `OnResult`, `Stop`, `InitSpeech` and `SelectVoice`, plus the pure functions that specify the stop handler (`Settle`, `Publish`) and a whole session (`Replay`).
- `Scenarios`: whole turns driven through the handlers.

Each handler is modelled as one atomic step. The results of the browser and
library calls are inputs to the handlers:

- whether `recognition.start()` succeeded;
- the result events;
- the outcome of `fetch` (`HttpExchange`);
- whether `EasySpeech.init` resolved, and the voices it lists;
- whether `EasySpeech.speak` resolved.

The model keeps these behaviours of the code:

- There is no empty-buffer guard. An empty user turn is sent like any other (`Scenarios.SilentTurns`).
- The buffer is never cleared, neither on start nor on stop. A turn in which nothing is recognised resends the previous text (`Scenarios.SilentTurns`).
- The flag is set on before `recognition.start()` runs. If that call throws, the component is left recording with no listener attached (`Start` with `captureStarted == false`), not idle.
- There are no separate Submitting or Speaking states and no persona switching. The flag goes off as the stop handler begins.
- Speech is awaited before the commit. If speaking rejects, the turn is not committed. If the voice is not found, only a warning is issued and the turn is committed.

## Model

| member | source | states |
|---|---|---|
| `Transcript.Initial` | src/App.tsx:35-38 | the transcript starts as exactly one system turn holding the persona, which is a conversation |
| `Transcript.Exchange` | src/App.tsx:85-88 | appending a question and answer grows the transcript by exactly two turns, user then assistant, leaving the earlier turns as they were |
| `Transcript.ExchangeKeepsConversation` | src/App.tsx:113-116 | after the draft gains its assistant turn, the transcript keeps the system turn first and user/assistant alternation |
| `Recognition.Join` | src/App.tsx:70 | JavaScript `join(" ")`: no segments give the empty text, otherwise the text starts with the first segment and is at least as long as the number of separators (one per further segment); pinned down by `JoinAppend` and the `Split` round trips |
| `Recognition.TopAlternatives` | src/App.tsx:67-69 | yields each result's first alternative in result order; it fails (the listener throws) exactly when some result has no alternative |
| `Recognition.ListenedBuffer` | src/App.tsx:66-72 | the listener produces a buffer exactly when every result has an alternative; an event with no results gives the empty text, and a single result gives its top transcript itself |
| `Recognition.JoinAppend` | src/App.tsx:70 | joining with one more segment appends a single space and that segment |
| `Recognition.JoinSplit` | src/App.tsx:70 | joining the space-separated segments of any text gives the text back |
| `Recognition.SplitJoin` | src/App.tsx:70 | segments without spaces are recovered, in order, from their space-joined text |
| `Recognition.ListenedBufferSegments` | src/App.tsx:67-72 | when no top transcript holds a space, splitting the buffer at spaces recovers each result's first-alternative transcript in result order (space-free case only) |
| `Recognition.ListenedBufferGrows` | src/App.tsx:67-72 | an event with one more result gives the previous buffer plus a space and the new result's top transcript |
| `Voices.SpanishVoices` | src/App.tsx:47 | the offered voices are exactly the listed voices whose language starts with "es", no more of them than were listed |
| `Voices.SpanishVoicesConcat` | src/App.tsx:47 | the filter keeps the original order (filtering a concatenation concatenates the filtered parts) |
| `Voices.SpanishVoicesKeepsSpanish` | src/App.tsx:47 | a list of Spanish voices only passes the filter unchanged |
| `Voices.SpanishVoicesIdempotent` | src/App.tsx:47 | filtering the offered voices again changes nothing |
| `Voices.DefaultSelection` | src/App.tsx:49-51 | with voices offered, the selection becomes the name of an offered voice; with none offered, it stays as it was |
| `Voices.FindVoice` | src/App.tsx:118 | finds the first voice whose name equals the selection, or reports that no voice has that name (an unset selection matches none) |
| `Voices.DefaultVoiceFound` | src/App.tsx:46-51 | the default selection always resolves to the first offered voice |
| `Chat.CheckedContent` | src/App.tsx:108-111 | a parsed body yields a string `message.content` exactly when it is an object whose `message` is an object with a string `content`; a `null` body (reading `.message` throws), a falsy or missing `message` and a non-string `content` all raise the format error |
| `Chat.ChatReply` | src/App.tsx:91-111 | the exchange yields the reply text exactly when the status is 2xx and the body is JSON with an object `message` whose `content` is a string; a rejected fetch, a non-2xx status (with that status) and any other body raise their errors |
| `Interview.Settle` | src/App.tsx:103-131 | the stop handler commits exactly when the reply is well-formed and, if the selected voice is found, speaking it resolves; a rejected speech is the only other failure after a good reply; a missing voice still commits, unspoken |
| `Interview.Publish` | src/App.tsx:113-131 | a committed stop publishes the old transcript plus the user turn and the assistant reply; any other ending leaves the transcript unchanged |
| `Interview.ReplayAppendOnly` | src/App.tsx:85-128 | over any sequence of stops the transcript only grows at its end, by exactly two turns per committed stop, and keeps its system turn first and its alternation |
| `Interview.Detach` | src/App.tsx:82 | aborting a signal detaches exactly the listeners registered with it; if all were, none remain |
| `Interview.InterviewApp.constructor` | src/App.tsx:29-39 | the component starts not recording, with an empty buffer, no listener, no voices, no selection and the single system turn |
| `Interview.InterviewApp.InitSpeech` | src/App.tsx:42-55 | a successful initialisation offers the Spanish voices and selects the first; a failed one changes nothing |
| `Interview.InterviewApp.SelectVoice` | src/App.tsx:140 | the picker sets the selected voice name |
| `Interview.InterviewApp.Start` | src/App.tsx:60-75 | start sets recording on and, when the recogniser starts, attaches one listener under the current signal; the buffer and the transcript are untouched |
| `Interview.InterviewApp.OnResult` | src/App.tsx:66-74 | a result event sets the buffer to the joined top alternatives only while a listener is attached; once recording has stopped, the buffer does not change |
| `Interview.InterviewApp.Stop` | src/App.tsx:77-133 | stop sets recording off, revokes every listener and installs a fresh signal, sends the old transcript plus one user turn holding the buffer (even an empty one), keeps the buffer, and commits per `Settle` and `Publish` |
| `Scenarios.SuccessfulTurn` | src/App.tsx:77-128 | a recognised "hola" answered with "respuesta" gives [system, user "hola", assistant "respuesta"] and recording off, committed after the voice warning |
| `Scenarios.FailedTurnThenLateResult` | src/App.tsx:82-106 | a 500 reply leaves the transcript as it was, and a result event after the stop does not reach the buffer |
| `Scenarios.RejectedSpeech` | src/App.tsx:118-131 | with a Spanish voice found but speech rejecting, nothing is committed |
| `Scenarios.SilentTurns` | src/App.tsx:60-88 | a stop before any result sends an empty user turn; a turn with no new result resends the previous buffer |

## Left out

- Web Speech API and EasySpeech calls are not modelled. This covers `recognition.start/stop`, `synth.cancel`, `EasySpeech.init/voices/speak`, the recogniser's `continuous` and `lang` settings, and the 5-second init timeout. These are browser and library capabilities; their outcomes are handler inputs.
- The `fetch` request itself is not modelled: the URL, the model name `llama2-uncensored`, `stream: false`, the headers, JSON serialisation and `response.text()`. This is network I/O. The request's `messages` is the `sent` result of `Stop`.
- Async interleaving is not modelled. In the source a second stop can start while an earlier stop is still waiting for the backend, and it reads the transcript captured before the earlier commit. A start pressed while an earlier stop is still speaking calls `synth.cancel()` (src/App.tsx:63), which can interrupt that stop's `EasySpeech.speak` (src/App.tsx:120); if the promise then rejects, the earlier stop commits nothing. The model sees this only as the `speakOk` input being false. Each handler here is one atomic step.
- React hooks, rendering, styling and the footer year are UI. The button's choice of handler (src/App.tsx:157) becomes the `requires` of `Start` and `Stop`.
- Console logging and the text of error messages are logging only. The errors are kept as `ChatError` and `StopReport` values.
- The text of the system prompt is an opaque constructor parameter.
- `Interview.InterviewApp.InitSpeech`: does not model `EasySpeech.voices()` throwing after a successful init, because the library call is a foreign capability.
