# Live translation relay, modelled in Dafny

The application is a live speech-translation web page. The browser
(`app.js`, class `LiveTranslateApp`) records the microphone and converts
each buffer of float samples to clamped 16-bit integers. It sends the
samples to a relay server (`server.js`) and shows the messages the relay
sends back. The relay keeps one `RealtimeTranslator` per client connection:

- it forwards the audio to an upstream speech service as base64 PCM16;
- it turns the service's events into transcripts and speaker changes;
- it has each final transcript translated, sentence first and then word
  by word, and sends the results to the client.

The model has six modules:

- `Protocol`: the server-to-client messages. It also holds the ordering
  rule every client trace of the model keeps: a `speaker_change` is
  immediately followed by its final `transcript`, and a `word_translation`
  is immediately preceded by its `translation`. The rule holds because the
  model runs each pipeline to completion (see "## Left out"). The program
  itself guarantees only the weaker rule that a gloss is sent after its
  own translation.
- `JsText`: `String.prototype.trim` over the ECMAScript whitespace set,
  and the "blank transcript" test built on it.
- `Audio`: the payload encoder of `handleAudioData`. It covers ToInt16,
  the little-endian bytes of an `Int16Array`, and padded base64 as in
  section 4 of RFC 4648. A decoder is defined only to state the round trip.
- `Relay`: class `RealtimeTranslator` and the `start` / `audio` / `stop`
  dispatch, modelled as follows.
  - `Date.now()` is the parameter `now`.
  - The upstream sockets are a field of ready states. The last one is
    `openaiWs`; an earlier one stays in the list once a second `start`
    has replaced it.
  - Each translation-service call is an oracle answer (`Services`).
  - The three outbound channels are traces the methods append to:
    `toClient`, `toUpstream` and `requests`.
  - The pure functions `TranslationOutcome`, `SegmentOutcome` and
    `EventOutcome` say what one run of `translateText`,
    `handleTranscription` and `handleOpenAIMessage` sends and asks for.
    The methods are proved against them, and the lemmas state their
    properties.
- `Browser`: class `LiveTranslateApp`, modelled two ways.
  - `Receive` is a pure reducer over the server's messages, and
    `HandleRealtimeMessage` is proved to implement it.
  - `ConvertSamples` is the clamp loop of `setupAudioRecording`.
- `EndToEnd`: the two sides together.
  - What the page shows once it has received a segment's messages.
  - The audio frame from the clamp loop to the upstream payload and back.
  - The request stream the browser sends, and what the relay does with it.

Modelled as the code behaves:

- `currentTranscript` is replaced by each non-blank completed
  transcription; it is not appended to.
- A second `start` opens a second upstream socket. The first one is not
  closed, and its `close` event still clears `isConnected`.
- `stop` and a client disconnect only ask `openaiWs` to close.
  `isConnected` becomes false only when a socket's `close` event arrives.
  No per-turn state is reset.
- The 2000 ms speaker-change threshold (`silenceThreshold`) is measured
  from the last `speech_started`. That event usually opens the utterance
  being transcribed, so the rule measures utterance length plus
  transcription delay rather than silence. The model keeps this
  measurement.
- The audio buffer is committed only on `speech_stopped`; there is no
  periodic commit.
- Every `audio` frame overwrites the session's languages.
- Frames that arrive before the connection is open are dropped and not
  counted.
- A `response.audio_transcript.done` transcript is checked only for being
  non-empty. It is not trimmed, brings no speaker check, and does not
  update `currentTranscript`.
- A missing string field of an event is the empty string.
- `audioChunkCounter`, undefined until the first forwarded frame, starts
  at 0.
- An `input_audio_buffer.append` message is recorded by the frame it
  carries (`Relay.UpstreamMsg.Append(frame)`). Its `audio` field is
  `Audio.AudioPayload(frame)`.

## Model

| member | source | states |
|---|---|---|
| Protocol.DeliveredOrdered | server.js:346-350 | appending a block of messages that is ordered on its own and does not open with a gloss keeps the client trace ordered, whether the client socket is open (delivered) or not (dropped) |
| JsText.TrimSpec | server.js:191 | `trim` returns the slice of the input between a blank prefix and a blank suffix; the result neither starts nor ends with whitespace; it is empty exactly when the input is blank |
| Audio.ToInt16 | server.js:318 | a value stored in an Int16Array differs from the input by a multiple of 2^16 and is kept when already in range |
| Audio.StoreInt16 | server.js:318 | `new Int16Array(samples)` has one element per sample, each the sample's ToInt16 |
| Audio.Int16Bytes | server.js:318 | the buffer of n samples has 2n bytes |
| Audio.Int16BytesAt | server.js:318 | bytes 2i and 2i+1, read low byte first, are sample i modulo 2^16 (little-endian two's complement) |
| Audio.ReadInt16Bytes | server.js:318 | reading the buffer back as signed 16-bit values gives exactly what the Int16Array stored |
| Audio.Encode | server.js:319 | base64 of n bytes has 4 * ceil(n / 3) characters |
| Audio.EncodeAlphabet | server.js:319 | every character of the encoding is a base64 digit, except '=' padding in the last two positions |
| Audio.DecodeEncode | server.js:319 | decoding the padded base64 gives back every byte sequence exactly |
| Audio.AudioPayloadShape | server.js:318-319 | the `audio` field of n samples has 4 * ceil(2n / 3) characters, all digits except trailing padding |
| Audio.AudioPayloadRoundTrip | server.js:318-319 | the `audio` field decodes to the 2n little-endian bytes of the samples, which read back as the stored Int16Array |
| Relay.TranslationShape | server.js:211-225 | with empty text or equal languages, exactly one `translation` carrying the text and no service call; the service is asked exactly when there is text, a language change and an API client; one or two messages, never a speaker change, always ordered |
| Relay.TranslationFailures | server.js:219-260 | no API client: exactly one "Translation unavailable" error and no call; failed sentence call: exactly one "Translation failed" error and only the sentence request |
| Relay.TranslationSuccess | server.js:245-300 | a successful sentence translation sends its trimmed text first, then asks for the gloss; the gloss is sent after it only if it came back, and a failed gloss adds no message |
| Relay.SegmentOrdered | server.js:190-208 | a blank or missing completed transcript sends nothing and asks nothing; any segment's messages keep the client ordering rules |
| Relay.SegmentShape | server.js:193-207 | for a non-blank segment, a `speaker_change` is sent iff more than 2000 ms have passed since the last speech start and a transcript has already been shown; it comes first; the final transcript follows, then exactly the translation pipeline of the same text; no transcript shown yet means no speaker change |
| Relay.EventOrdered | server.js:142-188 | every upstream event's messages keep the ordering rules and do not open with a gloss |
| Relay.EventEffects | server.js:142-188 | only a completed transcription can bring a speaker change; the translation service is called iff the event is a non-blank completed transcription or a non-empty `audio_transcript.done`, the languages differ and there is an API client |
| Relay.RealtimeTranslator.constructor | server.js:60-70 | a new session: not connected, no socket, empty transcript, both languages "sv", last speech time now, counter 0, nothing sent |
| Relay.RealtimeTranslator.SendToClient | server.js:346-350 | a message reaches the client trace iff the client socket is open |
| Relay.RealtimeTranslator.SendToOpenAI | server.js:340-344 | a message is written to `openaiWs` iff it exists and is open, else dropped |
| Relay.RealtimeTranslator.Connect | server.js:72-92 | without an API key, exactly one "API key not configured" error and no socket; with one, a new socket in the connecting state, even when one exists already |
| Relay.RealtimeTranslator.OnUpstreamOpen | server.js:94-115 | the session becomes connected and the `session.update` handshake goes out on `openaiWs` |
| Relay.RealtimeTranslator.OnUpstreamClose | server.js:126-129 | the closing of any upstream socket, old or current, clears `isConnected` |
| Relay.RealtimeTranslator.OnUpstreamError | server.js:131-134 | an upstream socket error is reported to the client as "OpenAI connection error: " and the message |
| Relay.RealtimeTranslator.GetWordByWordTranslation | server.js:264-301 | without an API client nothing is asked or sent; otherwise one gloss request, and the gloss is sent only if it came back; a failure is swallowed |
| Relay.RealtimeTranslator.TranslateText | server.js:210-262 | the client receives exactly the messages of TranslationOutcome and the service receives exactly its requests |
| Relay.RealtimeTranslator.AnnounceSegment | server.js:193-204 | the speaker-change check uses the transcript shown before; `currentTranscript` becomes the new segment; the change (when due) and then the final transcript are sent |
| Relay.RealtimeTranslator.HandleTranscription | server.js:190-208 | `currentTranscript` becomes the segment iff it is not blank; the client receives exactly SegmentOutcome's messages and the service its requests; the session invariant (ordered client trace, counter equal to forwarded frames) is kept |
| Relay.RealtimeTranslator.ProcessSpeechEnd | server.js:303-310 | a `commit` is written iff connected with `openaiWs` open |
| Relay.RealtimeTranslator.OnTranscriptDelta | server.js:160-169 | a non-empty delta is sent as a partial transcript; an empty one sends nothing |
| Relay.RealtimeTranslator.OnTranscriptDone | server.js:171-181 | a non-empty transcript is sent as final and translated, with no speaker check and no update of `currentTranscript` |
| Relay.RealtimeTranslator.OnServiceError | server.js:183-186 | a service error is forwarded with its message, or "Unknown error" when it has none |
| Relay.RealtimeTranslator.HandleOpenAIMessage | server.js:142-188 | only `speech_started` moves the last speech time; only `speech_stopped` commits, and only when connected; only a non-blank completed transcription replaces `currentTranscript`; the client and the service receive exactly EventOutcome's messages and requests; the session invariant is kept |
| Relay.RealtimeTranslator.HandleAudioData | server.js:312-338 | the languages are always overwritten; the frame is forwarded as one `append` message on `openaiWs`, and counted, iff connected with `openaiWs` open; otherwise nothing is sent and the counter is unchanged |
| Relay.RealtimeTranslator.Disconnect | server.js:352-356 | a connecting or open `openaiWs` starts closing; nothing else changes, `isConnected` included |
| Relay.RealtimeTranslator.OnClientClose | server.js:392-395 | the client channel is closed and `openaiWs` is asked to close |
| Relay.RealtimeTranslator.HandleClientMessage | server.js:363-390 | `start` connects, `audio` is handled as a frame, `stop` moves a connecting or open `openaiWs` to closing and leaves the other sockets and the client trace as they were, another type changes nothing, and a message that does not parse is answered with "Server error: " and the parser's message |
| Browser.Initial | app.js:7-10 | the client starts with an empty transcript, an empty translation and speaker 1 |
| Browser.Receive | app.js:141-203 | a final transcript appends its text; a partial one is shown after the kept transcript without being kept; a translation replaces the previous one; a gloss replaces the pane with exactly its pairs; a speaker change adds one to the counter and a blank line to both texts; an error only shows a status; another type changes nothing |
| Browser.SpeakerCountsChanges | app.js:197-198 | after any trace the speaker counter is its start plus the number of speaker changes received |
| Browser.TranscriptOnlyGrows | app.js:161-173 | the kept transcript is never shortened or rewritten by any trace |
| Browser.QuietTraceKeepsTexts | app.js:141-158 | errors, partial transcripts, glosses and unknown types leave the transcript, the translation and the speaker counter unchanged |
| Browser.Clamp | app.js:121 | the clamp keeps in-range values and saturates at -32768 and 32767 |
| Browser.ConvertSamples | app.js:117-122 | the Int16Array has one element per sample, each the clamped sample |
| Browser.LiveTranslateApp.constructor | app.js:2-15 | the object's reducer view is the initial state |
| Browser.LiveTranslateApp.ShowStatus | app.js:51-55 | the status line shows the message with its kind |
| Browser.LiveTranslateApp.UpdateTranscript | app.js:161-173 | a final text is appended and shown; a partial one is shown after the kept transcript, which is unchanged |
| Browser.LiveTranslateApp.UpdateTranslation | app.js:175-181 | the translation is replaced, not appended to |
| Browser.LiveTranslateApp.UpdateWordByWord | app.js:183-195 | the pane is cleared, then holds exactly the received pairs in order |
| Browser.LiveTranslateApp.HandleSpeakerChange | app.js:197-203 | the speaker counter goes up by exactly one, and both texts gain a blank line |
| Browser.LiveTranslateApp.HandleRealtimeMessage | app.js:141-159 | the object's new state is Receive of its old state and the message |
| Browser.LiveTranslateApp.ClearTranscripts | app.js:233-239 | both texts are emptied and the three panes show their placeholders; the speaker counter is kept |
| EndToEnd.TranslationOnScreen | server.js:210-262 | after a translation pipeline the page keeps its transcript, and shows the text itself (same languages), the trimmed answer and any gloss, or the unchanged translation with the error in the status line |
| EndToEnd.SegmentOnScreen | server.js:190-208 | after a non-blank segment the page's transcript gains a blank line iff a speaker change was due, then the segment; the speaker counter moves with it; the translation pane shows the text, the answer, or the old text and an error |
| EndToEnd.FrameRoundTrip | server.js:318-319 | a frame from the browser's clamp loop reaches the speech service intact: its payload decodes to bytes that read back as exactly the clamped samples |
| EndToEnd.SentAsWritten | app.js:114-131 | while recording the browser sends one `audio` request per buffer, carrying its clamped samples, and nothing else |
| EndToEnd.ForwardedBuffers | server.js:329-332 | the `append` messages for the browser's requests carry, one per buffer and in order, exactly the buffers' clamped samples |
| EndToEnd.ServeWithoutStart | server.js:363-390 | requests without `start`, on a session with no upstream socket, open none and forward nothing |
| EndToEnd.ServeFrames | server.js:374-376 | `audio` requests on an open connection are each forwarded, in order, on the current socket, and counted |
| EndToEnd.BrowserSessionAsWritten | app.js:79-85 | with the requests the browser sends, the relay never opens an upstream socket and forwards no frame, whatever the API key |
| EndToEnd.SentCorrected | app.js:79-85 | a client that asks for the connection sends `start` first, then the same `audio` requests |
| EndToEnd.BrowserSessionCorrected | server.js:368-376 | with `start` first and an API key, once the upstream socket has opened, every recorded frame is forwarded in order after the handshake and counted |

## Left out

- HTTP and Express setup, CORS, static files, `/health` and `server.listen` (server.js:1-29, 402-417): I/O plumbing.
- WebSocket construction and the OpenAI client calls (server.js:45-47, 87-92, 229-243, 271-288): each service call is an oracle answer, a socket is a ready state, and the prompt texts and language names (server.js:53-57) are not behaviour.
- The `catch` branch of `connect` ("Failed to connect to OpenAI", server.js:136-139): it is reached only when the WebSocket constructor throws, which is not part of this model.
- JSON parsing and serialisation of wire messages: the message kinds are datatypes. An upstream message that does not parse is only logged (server.js:117-124), so it is not an event here.
- The gloss reply is modelled as a list of pairs, or as a failure. A reply that parses as JSON of another shape would be forwarded as it is; that case is not modelled.
- Relay.RealtimeTranslator.HandleClientMessage: the parse-error reply at server.js:386-389 is modelled only for a message that does not parse (`Malformed`). It goes through the same open-socket check as `sendToClient`, because `ws.send` on a closed socket delivers nothing.
- Interleaving during the awaits of `translateText` (server.js:228-242, 253, 271-288): each upstream event's pipeline runs to completion in one step, with no other upstream event, audio frame or client close in between. The program can interleave those there, so the model does not capture two consequences:
  - a partial transcript (server.js:160-168), or the next segment's `speaker_change` and `transcript` (server.js:196-204), can reach the client between a `translation` (server.js:247) and its `word_translation` (server.js:292). Protocol.Ordered's "immediately preceded" holds only for the model; the program guarantees only that a gloss follows its own translation.
  - an `audio` frame can overwrite the languages (server.js:313-314) before the gloss request is made. The gloss request's languages can then differ from the sentence request's, whereas Relay.TranslationSuccess states they are the same.
- Cancelling in-flight calls on `stop`: the code does not do this either.
- Console logging, including the every-500th-chunk and every-100th-drop logs (server.js:325-327, 334-336), and the client socket's `error` handler, which only logs (server.js:397-399).
- The float arithmetic `Math.floor(audioData[i] * 32768)` (app.js:121): floating point. The floored integers are the input, and only the clamp is modelled.
- The DOM, innerHTML, scrolling, buttons, microphone, AudioContext, `startListening`, `stopListening`, `hideStatus` and `updateLanguageLabels` in app.js: UI.
- debug_server.js is not part of this model: it is a stub responder around socket sends. quick_test.js is not part of this model either: it is a timer-driven network smoke test.
- Strings are sequences of Unicode scalar values, not UTF-16 code units. Length is used only to test for emptiness, and every trimmed whitespace character is a single code unit, so this affects nothing here.
- Times and the forwarded-frame counter are unbounded integers. JavaScript numbers cannot overflow at these magnitudes.
- The host byte order of `Int16Array` is taken as little-endian, as on the hosts Node runs on.
- EndToEnd.BrowserSessionCorrected: the `start` request is handed straight to `connect`, as the dispatch does at server.js:369-372, and the upstream `open` event is taken to arrive before the first frame. Frames that arrive earlier are dropped, as HandleAudioData states.

## Findings

| source | as written | input that shows it | evidently intended | confidence | as-written member | corrected member |
|---|---|---|---|---|---|---|
| app.js:79-85 | when its socket opens, the browser starts recording and sends only `audio` requests; it never sends `start`, and the relay opens the upstream connection only on `start` (server.js:369-372) | any session from the page, with or without an API key: every recorded buffer arrives while `isConnected` is false and is dropped, so no transcript or translation ever comes back | send `{type: 'start'}` when the socket opens, before the audio, as quick_test.js:7 does | high; not executed | EndToEnd.BrowserSessionAsWritten | EndToEnd.BrowserSessionCorrected |
