# Jinny voice assistant: conversation store and press-to-talk controller

Jinny is a browser voice assistant. The browser's speech recognizer turns a held button
press into a transcript, the page sends the transcript over socket.io to a Node server,
the server keeps a short per-connection conversation history and asks an OpenAI or Groq
chat model for a reply, and the page speaks the reply with the browser's synthesizer.

This project models the parts of that system with logic of their own and proves what
they guarantee:

- `Contexts` (server.js): the store `userContexts`, a table from socket id to a history
  array, as the class `Contexts.Store` over a `map<string, seq<Msg>>`. A session is seeded
  with the system prompt, grows by one timestamped entry per accepted transcript and is
  cut back to eleven entries from index 1, so the seed is never evicted. It is deleted on
  `reset-context`, by the disconnect timer and by the hourly sweep. The transcript handler
  (`OnTranscript`) appends only a non-blank trimmed transcript, always as a user turn.
- `Models` (server.js): the catalogue `AI_MODELS`, the model selection
  `data.model || 'llama-3.1-70b-versatile'`, routing to Groq or OpenAI, request shaping,
  reading the first choice, and `handleAIError`'s classification. The default id is not
  in the catalogue, so a transcript without a model ends in the generic error without
  reaching any provider. The page's transcript message never carries a model
  (public/script.js:87-90), so with this page every request ends that way.
- `Transcripts` and `PushToTalk` (public/script.js): the result handler's fold of
  recognizer results into a final text (each final segment plus one space) and an
  interim text, the emit guard on the trimmed final text, the transcript box's display
  rule, and the class `PushToTalk.Controller`. The controller holds the `isListening`
  flag, the log of start/stop calls on the recognizer, the status line, the button
  state, and the synthesizer queue.
- `Text`: JavaScript's `String.prototype.trim`, which both guards use; `Chat`: history
  entries and their `{role, content}` projection; `Options`: the optional value.

The clock (`Date.now()`) is a parameter `now`. The two timers are the methods
`Store.Expire` and `Store.Sweep(now)`. The provider SDKs are a function parameter
`complete: Request -> Completion` that answers with a list of choices or an error.

## Model

| member | source | states |
|---|---|---|
| Text.BlankAt | server.js:153 | a string is blank (what `trim` empties) iff every one of its characters is a JavaScript whitespace or line terminator |
| Text.BlankConcat | server.js:153 | a concatenation is blank iff both parts are |
| Text.Trim | public/script.js:85 | `trim()` yields a string no longer than its input that neither starts nor ends with whitespace |
| Text.TrimIsInfix | public/script.js:85 | `trim()` yields the piece of the input that sits between an all-whitespace prefix and an all-whitespace suffix |
| Text.TrimEmptyIff | server.js:153 | `trim()` yields the empty string iff the input is all whitespace |
| Chat.Project | server.js:274-277 | the Groq message list has the history's length and order, each entry keeping exactly its role and content |
| Models.SelectModel | server.js:156 | an absent or empty model field selects `llama-3.1-70b-versatile`; any other string is used as given |
| Models.Lookup | server.js:157 | the lookup yields an entry iff the id is a key of `AI_MODELS`, and then that key's entry |
| Models.Route | server.js:163 | a model goes to Groq iff its provider is `"groq"`; everything else goes to OpenAI |
| Models.BuildRequest | server.js:163-175 | Groq gets the projected history with top_p 1; OpenAI gets the raw history with presence 0.6, frequency 0.3, top_p 0.9; both get the model id and that model's temperature and max tokens |
| Models.ReadCompletion | server.js:285-290 | the reply is the first choice iff there is one; a rejection passes its error on; no choice raises Groq's "Invalid response" error or OpenAI's TypeError |
| Models.Classify | server.js:244-258 | status 429 gives the rate-limit message, else code ECONNREFUSED gives the connect message, else the generic message (each iff); details is always the error's message |
| Models.Respond | server.js:156-187 | an unknown model gives the generic missing-config error; a response is emitted iff the model is known and the provider returned a choice, carrying that choice and the model id; a rejection is classified; no choice gives the generic error with Groq's "Invalid response" or OpenAI's TypeError text |
| Models.DefaultModelFails | server.js:156-165 | a transcript without a model is answered with the generic error whatever the providers would say |
| Contexts.Appended | server.js:60-134 | after a push the history has at most 11 entries, ends with the pushed entry, keeps its first entry, and is exactly `[seed, entry]` for a new session |
| Contexts.CappedIsSuffix | server.js:128-131 | cutting back leaves min(length, 11) entries, keeps the first entry and, after it, exactly the last entries of the array, with nothing invented or reordered |
| Contexts.SurvivorsAreSuffix | server.js:126-131 | after a push every entry past index 0 is, in place, one of the grown array's last entries |
| Contexts.SurvivorsAreLatest | server.js:126-131 | the survivors are the first entry followed by the last ten of the older non-first entries and the new one, in order |
| Contexts.ReplayKeepsLatest | server.js:128-131 | after any non-empty run of pushes on a new session the history is the seed followed by the last ten pushed entries |
| Contexts.AppendKeepsWellFormed | server.js:61-131 | a push keeps a history well formed: 2 to 11 entries, the seed at index 0, a timestamp on every other entry |
| Contexts.Swept | server.js:219-224 | a session survives the sweep iff its last entry is missing, has no timestamp, or is at most an hour old; survivors are unchanged |
| Contexts.SweepIdempotent | server.js:216-225 | a second sweep at the same time changes nothing |
| Contexts.SweepAfterPush | server.js:120-124 | a session last pushed at time t is swept at `now` iff `now - t` exceeds an hour |
| Contexts.PushKeepsUserTurns | server.js:153-154 | pushing a user turn onto one session keeps every non-seed entry of every session a user turn |
| Contexts.Accepts | server.js:153 | a transcript is accepted iff `final` is present and holds a non-whitespace character |
| Contexts.Store.constructor | server.js:57 | the store starts empty |
| Contexts.Store.ManageHistory | server.js:60-134 | the session's array becomes the push result and is returned; no other session changes; every session stays well formed |
| Contexts.Store.Reset | server.js:192-195 | the session is removed (an absent one is a no-op), the others are unchanged, the reset notice is the reply, and only user turns stay stored |
| Contexts.Store.Expire | server.js:142-148 | the disconnect timer removes the session and nothing else, so only user turns stay stored |
| Contexts.Store.Sweep | server.js:216-225 | the table becomes exactly the sweep result, and only user turns stay stored |
| Contexts.Store.OnTranscript | server.js:150-189 | a blank or absent `final` changes nothing and emits nothing; otherwise the trimmed text is pushed as a user turn and the reply is computed from the new history; no non-user turn is ever stored |
| Transcripts.Collect | public/script.js:72-83 | the loop from `resultIndex` yields the final segments each followed by a space, and the non-final segments concatenated |
| Transcripts.FinalBlankIff | public/script.js:76-85 | the final text is blank iff every visited final segment is blank |
| Transcripts.FinalTextShape | public/script.js:76-83 | the final text is empty iff no visited result is final, and otherwise ends with a space |
| Transcripts.Emission | public/script.js:85-92 | a message is sent iff the final text holds a non-whitespace character, with the untrimmed final and interim texts |
| Transcripts.Display | public/script.js:94-95 | the box shows the final text with an empty gray span, or, with no final text, the interim text twice |
| PushToTalk.Controller.constructor | public/script.js:10 | the flag starts cleared, nothing was asked of the recognizer, the page is idle |
| PushToTalk.Controller.MouseDown | public/script.js:126-129 | pressing sets the flag and starts the recognizer |
| PushToTalk.Controller.MouseUp | public/script.js:131-134 | releasing clears the flag and stops the recognizer |
| PushToTalk.Controller.MouseLeave | public/script.js:136-141 | leaving stops and clears only when the flag was set, otherwise nothing changes |
| PushToTalk.Controller.OnStart | public/script.js:54-59 | the page shows "Listening" and "Release to Stop" |
| PushToTalk.Controller.OnEnd | public/script.js:61-70 | the recognizer is restarted iff the flag is set; otherwise the page returns to "Hold to Speak" |
| PushToTalk.Controller.OnError | public/script.js:98-103 | a `no-speech` error leaves the status alone; any other error is shown |
| PushToTalk.Controller.OnResult | public/script.js:72-96 | folds the results from `resultIndex` into final and interim texts, then publishes them |
| PushToTalk.Controller.Publish | public/script.js:85-95 | the transcript message is sent iff the final text holds a non-whitespace character, and then the status becomes "Processing"; otherwise nothing is sent and the status stays; the box always shows the display rule's text |
| PushToTalk.Controller.Speak | public/script.js:29-41 | the synthesizer is cancelled before the new utterance is queued, so it holds exactly that one |
| PushToTalk.Controller.OnGptResponse | public/script.js:105-111 | the response is shown, the status says "Speaking", and the text is spoken |
| PushToTalk.Controller.OnSpeechEnd | public/script.js:110-116 | once the utterance ends the synthesizer is idle and the page invites the next press |

## Left out

- public/js/location.js: geolocation, an HTTP request to Nominatim and `localStorage` writes, with no logic of their own.
- Express, socket.io and process set-up: static files, `listen`, the wiring of `emit` and `on`, the error middleware and the process-level error loggers (server.js:1-15, 137-140, 210-213, 228-240). Logging to the console is not modelled.
- `load-context` (server.js:197-207): it replaces the session's array with a plain object, which breaks later pushes and the sweep's `length`. It has no sensible semantics to model.
- The OpenAI and Groq SDK calls are the parameter `complete`. A provider that returns `null` as a message's content, or `choices` that is not an array, is not modelled. A missing `choices` counts as an empty one; on the OpenAI path the real error then reads `'0'` rather than `'message'`, so its details differ from the text the model gives.
- The timers: the hour delay and the hourly period are not modelled, only what happens when a timer fires (`Expire`, `Sweep(now)`). Nothing cancels the disconnect timer.
- Concurrency: other handlers that run while a provider call is awaited are not modelled. Each transcript is handled as one step.
- Models.Lookup: JavaScript property lookup also finds names inherited from `Object.prototype` (such as `toString`), which then route to OpenAI with undefined parameters. The model treats those names as unknown.
- PushToTalk.Controller.MouseDown: `recognition.start()` throws when recognition is already running. The model only records the call.
- The system prompt's text is shortened to its first sentence, and `temperature` is kept as a `real`. Only their identity matters here.
- Voice selection, the utterance's rate, pitch and volume, DOM and `innerHTML` updates, button creation, the Promise around `utterance.onend`, and the unsupported-browser alert (public/script.js:13-27, 37-39, 43-45, 119-123, 145-147) are UI glue.
- `final` and `model` are taken as strings. A truthy `final` that is not a string throws at `data.final.trim()` (server.js:153) before the `try`, so nothing is stored or sent: the same outcome as a rejected transcript.
- Strings are sequences of Unicode scalar values, not UTF-16 code units.
