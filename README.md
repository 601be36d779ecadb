# sts.ai chat core, modelled in Dafny

sts.ai is a speech-to-speech chat demo. It has a browser client that records the microphone, sends text or audio to a Flask speech backend, shows the reply with latency figures and plays synthesized speech. A language-model backend answers the text. This project models the parts of it with behaviour that can be stated:

- **The backend's chat log** (`chat_server.dfy`, module `ChatServer`): the module-level table `chat_history` from user id to that user's messages, bounded at 100 entries per user. It covers `store_chat_message`, `get_chat_history` and `clear_chat_history`, and the validation and store order of the `/chat/text` and `/chat/voice` handlers. The table is a class field of type `map<string, seq<Entry>>` that the methods update in place. Entry ids and timestamps are opaque parameters (`Stamp`).
- **The audio-activity classifier** (`activity.dfy`, module `Activity`): the per-frame loop of the voice visualiser. It ignores samples within 2 of the centre value 128, doubles the mean deviation of the others, clamps the result to [0, 100] and bands it into Active (> 30), Low (> 5) or Silent. Both clients run the same arithmetic, so one module serves both. The loop is a method over an `array` and is proved against a specification function. The band is also proved to be decided by integers alone (`2 * sum > 30 * count`, `2 * sum > 5 * count`).
- **The client transcript** (`chat_transcript.dfy`, module `ChatTranscript`): the record `addMessage` pushes, the `trim()` applied to a typed message, `formatTime`, and the plain-text export built in the `exportChat` loop. The two clients share this code.
- **What the clients read back from the backend** (`backend_replies.dfy`, module `BackendReplies`): parsed replies, cancellation and failure as input values, plus the records a voice exchange adds.
- **The current client** (`web_client.dfy`, module `WebClient`, from `frontend-web/src/js/main.js`): the transcript, the `isGeneratingResponse` flag and abort controller, the recording flag, the single playing-audio slot, and latency selection. The module-level `let` variables are the fields of one `Client` object, and each handler is a method that updates them. `handleTextMessage` is split at its `await` into `BeginTextMessage` and `FinishTextMessage`, so that interleavings of two submits and a stop can be stated.
- **The older client** (`legacy_client.dfy`, module `LegacyClient`, from `frontend/src/js/main.js`): the same transcript handling, with these differences:
  - there is no generating flag and no cancellation;
  - the language-model latency never reaches the voice path;
  - `stopAiVoice` tears the microphone down through `permanentlyStopMicrophone`.

Some behaviours of the code that a user would not expect:
- Pressing stop does not suppress the assistant's turn. The cancellation notice "Response generation was cancelled." is still appended (`WebClient.CancelledTurn`).
- A second submit (Enter while a reply is pending) is not rejected. Both user turns are recorded, and the first reply lowers the generating flag while the second request is still outstanding (`WebClient.OverlappingSubmits`).
- In the current client, the `pause` event of a replaced audio element arrives after its successor is installed and empties the playing slot. "Stop AI voice" then no longer pauses the audio that is still playing (`WebClient.StalePauseEvent`).
- In the older client, once the microphone has been granted and "Stop AI voice" pressed, the microphone can never record again. The analyser node, created only on a start that finds none (frontend/src/js/main.js:415), outlives the closed audio context, a new context is created for the next start, and connecting the new source to the old analyser fails (`LegacyClient.NoRecordingAfterStopAiVoice`).

## Model

| member | source | states |
|---|---|---|
| ChatServer.Appended | backend01-stt-tts/src/app.py:180-184 | the new entry is last; the log never exceeds 100; below 100 it is the old log plus the entry; at 100 or more it is the last 100 of old log plus entry, oldest dropped first |
| ChatServer.LogOf | backend01-stt-tts/src/app.py:145 | an unknown user has the empty log; a known user has exactly the stored log |
| ChatServer.Stored | backend01-stt-tts/src/app.py:168-184 | after a store the user's key exists and holds the appended, truncated log; every other user's log is unchanged and no other key appears |
| ChatServer.AppendedAllKeepsMostRecent | backend01-stt-tts/src/app.py:180-184 | after any number of appends to a bounded log it holds the most recent 100 of everything appended, in order |
| ChatServer.StoredAllLog | backend01-stt-tts/src/app.py:168-184 | storing a run of messages for one user appends them, in order, to that user's log |
| ChatServer.StoredAllKeepsOthers | backend01-stt-tts/src/app.py:168-184 | storing any run of messages for one user leaves every other user's log as it was |
| ChatServer.StoredBounded | backend01-stt-tts/src/app.py:183-184 | a store keeps every user's log at 100 entries or fewer |
| ChatServer.ExchangeEndsLog | backend01-stt-tts/src/app.py:52-53 | two stores in a row leave those two entries, in that order, at the end of the user's log |
| ChatServer.TypeName | backend01-stt-tts/src/app.py:52-53 | the stored `type` is "ai" exactly for the model's replies, and the two user kinds both begin with "user": a typed message is exactly "user", and the voice one is exactly "user_voice" |
| ChatServer.LlmAnswer | backend01-stt-tts/src/app.py:31-49 | on status 200 the reply text is the body's `response` (or "") and the latency is `latency.processing` (0 when the latency object or the field is absent); another status gives the "unable to get response" text with 0; no connection or an unparsable body gives the "unable to connect" text with 0 |
| ChatServer.ChatStore.constructor | backend01-stt-tts/src/app.py:13 | the table starts empty and bounded |
| ChatServer.ChatStore.StoreChatMessage | backend01-stt-tts/src/app.py:168-184 | the new table is `Stored` of the old one (key inserted, entry appended, sliced to the last 100) and stays bounded |
| ChatServer.ChatStore.GetChatHistory | backend01-stt-tts/src/app.py:141-153 | returns the user's log; for an unknown user it returns the empty list with count 0; count always equals the length of the history |
| ChatServer.ChatStore.ClearChatHistory | backend01-stt-tts/src/app.py:155-166 | the user is absent afterwards, nothing else changes, and the reply is the success message whether or not the user existed |
| ChatServer.ChatStore.HandleTextChat | backend01-stt-tts/src/app.py:19-64 | a body that is not a JSON object gives 500 and stores nothing; an empty or missing message gives 400 and stores nothing; otherwise it stores "user" then "ai" (the fallback text when the model fails) and reports the model's latency or 0 |
| ChatServer.ChatStore.HandleVoiceChat | backend01-stt-tts/src/app.py:66-118 | with no audio part, or an empty filename, it returns the matching 400 and stores nothing; otherwise it stores the placeholder transcription as "user_voice" then "I heard: " plus the transcription as "ai", and returns both |
| ChatServer.FirstTextExchange | backend01-stt-tts/src/app.py:19-64 | on an empty table a text exchange leaves exactly the user's message and the reply, even when the model cannot be reached |
| Activity.Deviation | frontend-web/src/js/main.js:605 | the deviation of a sample from 128 is at most 128 and is zero only for 128 itself |
| Activity.Clamp | frontend-web/src/js/main.js:613 | the result lies in [0, 100] and is the input whenever the input already does |
| Activity.ActivityLevel | frontend-web/src/js/main.js:612-613 | the activity of any frame lies in [0, 100] |
| Activity.BandOf | frontend-web/src/js/main.js:621-642 | Active exactly above 30, Low exactly above 5 up to 30, Silent exactly at 5 or below |
| Activity.BandOfCounts | frontend-web/src/js/main.js:621-642 | the same three bands stated on the integer sum and count: Active exactly when 2 * sum > 30 * count, Low exactly when 5 * count < 2 * sum <= 30 * count, Silent otherwise |
| Activity.SumBounds | frontend-web/src/js/main.js:604-610 | every contributing sample adds between 3 and 128 to the sum |
| Activity.CountZeroIffQuiet | frontend-web/src/js/main.js:604-610 | the count is zero exactly when no sample leaves the noise floor |
| Activity.ClampKeepsBand | frontend-web/src/js/main.js:613-642 | clamping to [0, 100] never changes the band |
| Activity.BandMatchesCounts | frontend-web/src/js/main.js:612-642 | the band of the clamped average equals the band decided on the integer sum and count |
| Activity.SilentIffQuiet | frontend-web/src/js/main.js:604-642 | a frame is Silent exactly when no sample deviates by more than 2, and then the activity is 0 |
| Activity.ClassifyFrame | frontend-web/src/js/main.js:601-642 | the loop's activity is the specified level of the buffer and its band is that level's band, equal to the integer banding; the older client's loop (frontend/src/js/main.js, lines 482-523) is the same |
| ChatTranscript.MessageRecord | frontend-web/src/js/main.js:295-300 | the record has role user exactly when `isUser`, and carries the given text, timestamp and latency |
| ChatTranscript.TrimStart | frontend-web/src/js/main.js:308 | the result is a suffix of the input and does not start with white space |
| ChatTranscript.TrimStartBlank | frontend-web/src/js/main.js:308 | everything removed from the front is white space |
| ChatTranscript.TrimEnd | frontend-web/src/js/main.js:308 | the result is a prefix of the input and does not end with white space |
| ChatTranscript.TrimEndBlank | frontend-web/src/js/main.js:308 | everything removed from the back is white space |
| ChatTranscript.Trim | frontend-web/src/js/main.js:308 | the trimmed text is no longer than the input and neither starts nor ends with white space |
| ChatTranscript.TrimInfix | frontend-web/src/js/main.js:308 | the trimmed text is a contiguous infix of the input, with only white space before it and after it |
| ChatTranscript.WhitespaceListed | frontend-web/src/js/main.js:308 | the white-space test used by trimming accepts exactly the listed ECMAScript white-space and line-terminator code points |
| ChatTranscript.TrimEmptyIffBlank | frontend-web/src/js/main.js:308-309 | a typed message is ignored exactly when every character is white space |
| ChatTranscript.UnitFor | frontend-web/src/js/main.js:125-133 | ms below 1000, s from 1000 to 59999, m from 60000 on |
| ChatTranscript.NatToDecimal | frontend-web/src/js/main.js:127 | the rendering of a whole number is a non-empty string of digits |
| ChatTranscript.DecimalRoundTrip | frontend-web/src/js/main.js:127 | reading the digits back gives the number |
| ChatTranscript.FormatTime | frontend-web/src/js/main.js:125-133 | every rendering ends with the unit suffix for its range ("ms", "s" or "m") |
| ChatTranscript.FormatTimeUnits | frontend/src/js/main.js:108-116 | a sub-second duration prints as its own digits followed by "ms"; longer ones print the two-decimal figure with "s" or "m" for their range |
| ChatTranscript.InferenceSuffix | frontend-web/src/js/main.js:457 | the " (Inference: ...)" suffix is present exactly on assistant records with nonzero latency |
| ChatTranscript.RecordLinesShape | frontend-web/src/js/main.js:449-458 | a record's export opens with "[time] Role: ", carries the content and the inference suffix, and ends in a blank line |
| ChatTranscript.ExportStartsWithHeader | frontend-web/src/js/main.js:447 | every export opens with the "Chat History" title block, and an empty transcript exports only that block |
| ChatTranscript.ExportAppend | frontend-web/src/js/main.js:447-461 | the export of a longer transcript is the export of any prefix followed by the remaining records' lines, so an earlier export is a prefix of a later one |
| ChatTranscript.ExportPush | frontend-web/src/js/main.js:447-461 | one more record adds exactly its line and a blank line to the export |
| ChatTranscript.ExportTextLoop | frontend-web/src/js/main.js:447-461 | the accumulating loop produces the header and then, for each record in order, "[time] Role: content", the suffix and a blank line; the older client's loop (frontend/src/js/main.js, lines 374-388) is the same |
| BackendReplies.OrZero | frontend-web/src/js/main.js:366-376 | `x \|\| 0` is nonzero exactly when the field is present and nonzero, and is then the field |
| BackendReplies.TextOf | frontend-web/src/js/main.js:823-833 | a present string field is itself; an absent one prints as "undefined" |
| BackendReplies.VoiceTurn | frontend-web/src/js/main.js:823-833 | a voice exchange adds two records, user then assistant; the user's content is "🎤 You said: " followed by the transcription (or "undefined") and has latency 0; the assistant's content is the reply text with the given latency; each carries its own timestamp |
| WebClient.SendToLLMResult | frontend-web/src/js/main.js:339-392 | the latency is the server's processing time when truthy, else the measured time; an abort gives the cancellation notice with 0; any other failure gives the error notice with 0 |
| WebClient.VoiceDisplay | frontend-web/src/js/main.js:815-821 | with a latency object the display shows the server's stt, llm and tts figures (each 0 when absent); without one it shows the measured STT time and zeros; the total is always the measured total |
| WebClient.VoiceLlmLatency | frontend-web/src/js/main.js:809-812 | the recorded inference time is the server's `latency.llm` exactly when that is present and nonzero, and 0 otherwise |
| WebClient.Client.constructor | frontend-web/src/js/main.js:42-86 | a fresh page has an empty transcript, no controller, no recorder, no stream and no playing audio |
| WebClient.Client.AddMessage | frontend-web/src/js/main.js:295-300 | exactly one record is appended and earlier records are unchanged |
| WebClient.Client.ClearChat | frontend-web/src/js/main.js:430-435 | the transcript is emptied when confirmed and unchanged otherwise |
| WebClient.Client.Welcome | frontend-web/src/js/main.js:71-76 | the greeting is appended as an assistant record with latency 0 |
| WebClient.Client.ExportChat | frontend-web/src/js/main.js:447-461 | the exported text is the specified export of the current transcript |
| WebClient.Client.BeginTextMessage | frontend-web/src/js/main.js:304-316 | blank input changes nothing; otherwise the flag goes up, the user's trimmed text is appended and a fresh controller becomes current, whether or not a reply was already pending |
| WebClient.Client.FinishTextMessage | frontend-web/src/js/main.js:316-336 | whatever the outcome, exactly one assistant record with `sendToLLM`'s text and latency is appended and the flag goes down |
| WebClient.Client.StopGeneratingResponse | frontend-web/src/js/main.js:1110-1118 | only while generating, the current controller is aborted; afterwards the flag is down, so a second call changes nothing |
| WebClient.Client.HandleTextMessage | frontend-web/src/js/main.js:304-336 | blank input changes nothing, including the controllers; otherwise one fresh controller becomes current and is aborted exactly when the user stops, the user record and then the assistant record are appended, and the flag ends down |
| WebClient.Client.AwaitReply | frontend-web/src/js/main.js:316-336 | while the reply is awaited a stop aborts exactly the current request; the reply is then recorded and the flag goes down |
| WebClient.Client.StartRecording | frontend-web/src/js/main.js:707-755 | the previous stream is released first; on permission a new stream and recorder are installed and recording is on, otherwise recording is unchanged |
| WebClient.Client.StopRecording | frontend-web/src/js/main.js:758-774 | only with a recorder while recording, the recorder is stopped; recording is off afterwards and the stream is kept |
| WebClient.Client.ToggleRecording | frontend-web/src/js/main.js:777-783 | when recording, it stops the current recorder and keeps stream and recorder; otherwise it releases the previous stream and, on permission, installs the new stream and recorder and starts recording, else leaves recording off |
| WebClient.Client.SendAudioToBackend | frontend-web/src/js/main.js:786-852 | a "success" reply appends the transcription and the reply with `latency.llm` or 0, and when a TTS file is named pauses the audio that was playing and plays the new one; another status or a failure appends nothing and leaves playback alone |
| WebClient.Client.PlayTTS | frontend-web/src/js/main.js:863-872 | the audio that was playing is paused and the new one becomes the single current audio |
| WebClient.Client.PlayRejected | frontend-web/src/js/main.js:930-1017 | a rejection that is a `NotAllowedError` or whose message includes "play" (the test at line 936) leaves the slot as it is for a retry on the next click or touch; any other rejection empties the slot |
| WebClient.InterruptedPlayRetries | frontend-web/src/js/main.js:936 | the retry test is not confined to a blocked autoplay: the `AbortError` of a `play()` interrupted by `pause()` passes it by its message, while the name `AbortError` alone does not |
| WebClient.IncludedBetween | frontend-web/src/js/main.js:936 | `includes` holds for any word placed between two strings |
| WebClient.Client.AudioStopped | frontend-web/src/js/main.js:896-920 | an `ended`, `pause` or `error` event of any element empties the playing slot |
| WebClient.Client.StopAiVoice | frontend-web/src/js/main.js:1064-1107 | the current audio, if any, is paused and dropped |
| WebClient.CancelledTurn | frontend-web/src/js/main.js:304-336 | a cancelled turn still records the user's text and then the cancellation notice, and ends not generating |
| WebClient.OverlappingSubmits | frontend-web/src/js/main.js:304-345 | a second submit while a reply is pending is recorded too; the first reply lowers the flag, after which stop no longer aborts the second request |
| WebClient.ReplacedPlayback | frontend-web/src/js/main.js:863-872 | two replies with audio leave exactly the second playing and the first paused |
| WebClient.StalePauseEvent | frontend-web/src/js/main.js:863-920 | after a replaced element's late pause event, stop pauses nothing and a third reply starts while the second was never paused |
| LegacyClient.SendToLLMResult | frontend/src/js/main.js:252-292 | the latency is the server's processing time when truthy, else the measured time; any exception gives the error notice with 0 |
| LegacyClient.VoiceDisplay | frontend/src/js/main.js:686-692 | the displayed LLM latency is always 0; STT and TTS come from the server's figures when present |
| LegacyClient.Client.constructor | frontend/src/js/main.js:40-62 | a fresh page has an empty transcript, no recorder, stream, source or audio context |
| LegacyClient.Client.AddMessage | frontend/src/js/main.js:243-248 | exactly one record is appended and earlier records are unchanged |
| LegacyClient.Client.ClearChat | frontend/src/js/main.js:357-362 | the transcript is emptied when confirmed and unchanged otherwise |
| LegacyClient.Client.Welcome | frontend/src/js/main.js:69-72 | the greeting is appended as an assistant record with latency 0 |
| LegacyClient.Client.ExportChat | frontend/src/js/main.js:374-388 | the exported text is the specified export of the current transcript |
| LegacyClient.Client.HandleTextMessage | frontend/src/js/main.js:295-319 | the reply is absent exactly for blank input, which changes nothing; otherwise exactly the user record and then the assistant record are appended |
| LegacyClient.Client.ReceiveReply | frontend/src/js/main.js:310-318 | once `sendToLLM` settles, its latency is shown and exactly its record is appended |
| LegacyClient.Client.SendAudioToBackend | frontend/src/js/main.js:663-718 | a "success" reply appends the transcription and the reply with latency 0; another status or a failure appends nothing |
| LegacyClient.Client.StartRecording | frontend/src/js/main.js:410-448 | on refusal nothing changes; on permission the new stream replaces the old one without releasing it, a missing context is created (with an analyser only if none exists) or an existing one resumed, and recording starts exactly when the analyser belongs to the current context; once the analyser is stale every later start fails and it stays stale |
| LegacyClient.Client.DataAvailable | frontend/src/js/main.js:602-606 | each chunk is appended to the recorded chunks |
| LegacyClient.Client.StopRecording | frontend/src/js/main.js:635-651 | only with a recorder while recording, the recorder is stopped; recording is off afterwards and the microphone stays held |
| LegacyClient.Client.PermanentlyStopMicrophone | frontend/src/js/main.js:555-584 | stream, source, audio context and recorder are all cleared, recording and speaking are off, the chunks are empty, the stream that was held is released, and the analyser is kept |
| LegacyClient.Client.StopAiVoice | frontend/src/js/main.js:721-725 | stopping the AI voice always tears the microphone down as above, leaving any analyser stale |
| LegacyClient.VoiceTurnLatency | frontend/src/js/main.js:694-699 | the assistant's record from a voice reply carries latency 0 even when the server reports one |
| LegacyClient.NoRecordingAfterStopAiVoice | frontend/src/js/main.js:410-448 | after a first recording and "Stop AI voice", a second start is reported as denied, does not record, and holds the newly granted stream; only the first stream was released |

## Left out

- DOM construction, styling, notifications, scrolling, modals and markdown rendering (`isMarkdownLike`, `marked`, `DOMPurify`, `hljs`) are user interface and foreign library calls.
- `fetch`, `FormData`, `Blob`, and Flask request/response plumbing and CORS are I/O. Replies are input values (`Outcome`, `LlmCall`, `TextBody`, `VoiceForm`), and the HTTP status of a handler's reply is its `Reply` constructor.
- `getUserMedia`, `MediaRecorder`, `AudioContext` and its analyser, and `requestAnimationFrame` are browser media and event-loop APIs. Streams, recorders, sources and audio elements are opaque numbered handles. Only the per-frame classification arithmetic of the visualiser is modelled.
- The one-shot click/touch retry listener that `playTTS` registers on a rejection, and the visualisation side of the `Audio` element's events are callback-driven and not modelled. The slot replacement, the rejection branch and the events' clearing of the slot (`AudioStopped`) are modelled.
- Floating point: `toFixed(2)` in `formatTime` and `toLocaleString()` in the export are opaque function parameters. Latencies are whole milliseconds. Progress-bar percentages, waveform coordinates and `round(... * 1000)` on the server are left out. The server's STT and TTS times are parameters.
- `uuid.uuid4()`, `datetime.now()` and `Date.now()` are opaque inputs.
- The JSON branch of `exportChat` and the download of the file are serialisation and I/O.
- `permanentlyStopMicrophone` in `frontend-web/src/js/main.js` is not modelled for the current client, because nothing in that file calls it.
- The `/voice/stop` route of the speech backend only echoes a constant reply, and the language-model backend (`backend02-llm`) only sleeps a random time and returns a constant; neither is part of this model.
- ChatServer.ChatStore.HandleTextChat: the request body is either a JSON object with string-or-absent `user_id` and `message`, or not an object (500). Non-string JSON values (numbers, `null`, lists) and the text of the 500 error are not modelled.
- ChatServer.ChatStore.HandleTextChat: each handler, and each `store_chat_message`, is modelled as one atomic step. `app.run(..., debug=True)` (backend01-stt-tts/src/app.py:187) serves requests on threads, and one page sends every request under its single `userId` (frontend-web/src/js/main.js:45). Two requests for that user can then interleave: another request's stores can fall between the two stores at lines 52-53 (or 97 and 101), so the user entry and the ai entry need not be adjacent (`ExchangeEndsLog` holds only for consecutive stores); the check-then-create at lines 170-171 and the append-then-truncate at lines 181-184 can race. These interleavings are not modelled.
- Activity.ActivityLevel: the JavaScript computes `(sum / count) * 2` in double precision; the model uses exact reals. The band is the same: the thresholds 15 and 2.5 on the average are exact doubles, and an average `sum / count` with `count` at most 1024 (the `fftSize`) that differs from either differs by at least 1/(2·1024), far more than the rounding error. The displayed percentage can differ from the exact value in its last bits.
- ChatServer.LlmAnswer: `latency.processing` is taken to be an integer; a JSON `null` response, or a latency field that is not an object, is not modelled.
- LegacyClient.Client.HandleTextMessage: it is modelled as one atomic step. In the browser a second submit can interleave at the `await` exactly as in the current client; this is stated only for `WebClient`.
- LegacyClient.Client.StartRecording: it is modelled as one atomic step. In the browser the `getUserMedia` and `resume` awaits (frontend/src/js/main.js, lines 427 and 433) come before `isRecording` is set (line 615), so a second click in between starts a second request; this interleaving is not modelled.
- WebClient.Client.StartRecording: it is modelled as one atomic step. In the browser the awaits at frontend-web/src/js/main.js lines 713 and 716 come before `isRecording` is set (line 738), so a second click in between starts a second request; this interleaving is not modelled.
- WebClient.Client.PlayTTS: the model assumes each audio handle is new (the browser creates a fresh element per reply). When the late `pause` event of the replaced element is delivered is left to the caller of `AudioStopped`; `StalePauseEvent` shows one such order.
- WebClient.Client.Welcome and LegacyClient.Client.Welcome: the 500 ms timer that calls them is not modelled. The scenario methods start from a freshly loaded page before it fires, so their transcripts start empty.
