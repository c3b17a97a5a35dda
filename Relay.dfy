/** The per-connection relay session of server.js: class RealtimeTranslator
    and the dispatch of the client's `start` / `audio` / `stop` requests.

    Its inputs are explicit: the time `now` replaces `Date.now()`, the
    ready states of the upstream sockets are fields, each call to the
    translation service is an oracle answer (`Services`), and the three
    outbound channels (to the client, to the upstream speech service, to the
    translation service) are traces the methods append to. */
module Relay {
  import opened Protocol
  import JsText

  /** Milliseconds between the last `speech_started` and a completed
      transcript beyond which the transcript is announced as a new
      speaker's. That event usually opens the utterance being transcribed,
      so this measures the utterance's length plus the transcription delay,
      not the silence before it. */
  const SilenceThreshold: int := 2000

  const KeyMissing := "OpenAI API key not configured. Please add OPENAI_API_KEY to the environment variables."
  const TranslationUnavailable := "Translation unavailable - OpenAI API key not configured"
  const TranslationFailed := "Translation failed"
  const UnknownError := "Unknown error"
  const ConnectionErrorPrefix := "OpenAI connection error: "
  const ServerErrorPrefix := "Server error: "

  /** WebSocket readyState of an upstream socket. */
  datatype ReadyState = Connecting | Open | Closing | Closed

  /** Messages the relay sends to the upstream speech service. */
  datatype UpstreamMsg =
    | SessionUpdate            // `session.update`, the configuration handshake
    | Append(frame: seq<int>)  // `input_audio_buffer.append`; its `audio` field is Audio.AudioPayload(frame)
    | Commit                   // `input_audio_buffer.commit`

  /** An upstream message and the index of the socket it was written to. */
  datatype Delivery = Delivery(socket: nat, msg: UpstreamMsg)

  /** A request to the translation service: translate `text` from `source`
      to `target`, as a sentence or as a word-by-word gloss. */
  datatype ServiceRequest =
    | SentenceRequest(text: string, source: string, target: string)
    | GlossRequest(text: string, source: string, target: string)

  /** The outcome of one translation-service call. `CallFailed` covers a
      rejected call and a reply that cannot be read (for the gloss, one that
      is not a JSON array of pairs). */
  datatype Reply<T> = Answer(value: T) | CallFailed

  /** What the translation service answers for one segment, should it be
      asked: the sentence translation and the gloss. */
  datatype Services = Services(sentence: Reply<string>, gloss: Reply<seq<WordPair>>)

  /** What one run of a pipeline produces: client messages and service
      requests, each in the order they were made. */
  datatype Pipeline = Pipeline(sent: seq<ClientMsg>, requests: seq<ServiceRequest>)

  /** Events of the upstream speech service, by their `type` field. A missing
      string field is the empty string. */
  datatype UpstreamEvent =
    | SpeechStarted                             // input_audio_buffer.speech_started
    | SpeechStopped                             // input_audio_buffer.speech_stopped
    | TranscriptionCompleted(transcript: string) // conversation.item.input_audio_transcription.completed
    | TranscriptDelta(delta: string)            // response.audio_transcript.delta
    | TranscriptDone(transcript: string)        // response.audio_transcript.done
    | ServiceError(detail: string)              // error, with error.message
    | OtherEvent(kind: string)

  /** Client requests, by their `type` field; `Malformed` is a message that
      does not parse, with the parser's error text. */
  datatype Request =
    | Start
    | AudioFrame(data: seq<int>, inputLanguage: string, outputLanguage: string)
    | Stop
    | Unrecognised(kind: string)
    | Malformed(detail: string)

  /** The speaker-change rule: strictly more than the threshold since the
      last `speech_started`, and a transcript already shown. */
  predicate SpeakerChangeDue(now: int, lastSpeechTime: int, currentTranscript: string)
  {
    now - lastSpeechTime > SilenceThreshold && |currentTranscript| > 0
  }

  /** What `translateText(text)` sends and asks, given the languages, whether
      an API client exists, and the service's answers. TranslationShape,
      TranslationFailures and TranslationSuccess state what it is. */
  function TranslationOutcome(text: string, source: string, target: string, hasApiKey: bool, svc: Services): Pipeline
  {
    if text == [] || source == target then
      Pipeline([Translation(text)], [])
    else if !hasApiKey then
      Pipeline([Error(TranslationUnavailable)], [])
    else
      var asked := [SentenceRequest(text, source, target)];
      match svc.sentence
      case CallFailed => Pipeline([Error(TranslationFailed)], asked)
      case Answer(raw) =>
        var glossed := asked + [GlossRequest(text, source, target)];
        match svc.gloss
        case CallFailed => Pipeline([Translation(JsText.Trim(raw))], glossed)
        case Answer(words) => Pipeline([Translation(JsText.Trim(raw)), WordTranslation(words)], glossed)
  }

  /** Same language or nothing to translate: the text itself, and no call.
      The service is asked only when there is text, a language change and a
      client. One message or two are sent, in order, never a speaker change. */
  lemma TranslationShape(text: string, source: string, target: string, hasApiKey: bool, svc: Services)
    ensures var r := TranslationOutcome(text, source, target, hasApiKey, svc);
      && (text == [] || source == target ==> r == Pipeline([Translation(text)], []))
      && (r.requests == [] <==> (text == [] || source == target || !hasApiKey))
      && 1 <= |r.sent| <= 2 && SpeakerChange !in r.sent && Ordered(r.sent)
  {
  }

  /** The failures of `translateText`: without an API client, or when the
      sentence call fails, exactly one error is sent, and nothing else. */
  lemma TranslationFailures(text: string, source: string, target: string, hasApiKey: bool, svc: Services)
    requires text != [] && source != target
    ensures var r := TranslationOutcome(text, source, target, hasApiKey, svc);
      && (!hasApiKey ==> r.sent == [Error(TranslationUnavailable)] && r.requests == [])
      && (hasApiKey && svc.sentence.CallFailed? ==>
            r.sent == [Error(TranslationFailed)] && r.requests == [SentenceRequest(text, source, target)])
  {
  }

  /** A successful sentence translation: its trimmed text is sent first, then
      the gloss is asked for and sent only if it came back; a failed gloss
      adds no message. */
  lemma TranslationSuccess(text: string, source: string, target: string, svc: Services)
    requires text != [] && source != target && svc.sentence.Answer?
    ensures var r := TranslationOutcome(text, source, target, true, svc);
      && r.sent[0] == Translation(JsText.Trim(svc.sentence.value))
      && r.requests == [SentenceRequest(text, source, target), GlossRequest(text, source, target)]
      && (svc.gloss.Answer? ==> r.sent == [r.sent[0], WordTranslation(svc.gloss.value)])
      && (svc.gloss.CallFailed? ==> r.sent == [r.sent[0]])
  {
  }

  /** The messages that open a non-blank segment: a speaker change when due,
      then the final transcript. */
  function SegmentHead(transcript: string, now: int, lastSpeechTime: int, currentTranscript: string): seq<ClientMsg>
  {
    (if SpeakerChangeDue(now, lastSpeechTime, currentTranscript) then [SpeakerChange] else [])
      + [Transcript(transcript, true)]
  }

  /** What `handleTranscription(transcript)` sends and asks for one completed
      segment. SegmentOrdered and SegmentShape state what it is. */
  function SegmentOutcome(transcript: string, now: int, lastSpeechTime: int, currentTranscript: string,
                          source: string, target: string, hasApiKey: bool, svc: Services): Pipeline
  {
    if JsText.IsBlank(transcript) then Pipeline([], [])
    else
      var t := TranslationOutcome(transcript, source, target, hasApiKey, svc);
      Pipeline(SegmentHead(transcript, now, lastSpeechTime, currentTranscript) + t.sent, t.requests)
  }

  /** A blank transcript is dropped without a message or a request, and the
      messages of any segment keep the client's ordering rules. */
  lemma SegmentOrdered(transcript: string, now: int, lastSpeechTime: int, currentTranscript: string,
                       source: string, target: string, hasApiKey: bool, svc: Services)
    ensures var r := SegmentOutcome(transcript, now, lastSpeechTime, currentTranscript, source, target, hasApiKey, svc);
      && (JsText.IsBlank(transcript) ==> r == Pipeline([], []))
      && Ordered(r.sent)
  {
    if !JsText.IsBlank(transcript) {
      var t := TranslationOutcome(transcript, source, target, hasApiKey, svc);
      TranslationShape(transcript, source, target, hasApiKey, svc);
      OrderedConcat(SegmentHead(transcript, now, lastSpeechTime, currentTranscript), t.sent);
    }
  }

  /** A non-blank segment: a `speaker_change` is sent exactly when the
      speaker-change rule holds, and then first; the final transcript
      follows, then the translation pipeline of the same text. So the first
      transcript of a session, with nothing shown yet, never brings one. */
  lemma SegmentShape(transcript: string, now: int, lastSpeechTime: int, currentTranscript: string,
                     source: string, target: string, hasApiKey: bool, svc: Services)
    requires !JsText.IsBlank(transcript)
    ensures var r := SegmentOutcome(transcript, now, lastSpeechTime, currentTranscript, source, target, hasApiKey, svc);
      var t := TranslationOutcome(transcript, source, target, hasApiKey, svc);
      var k := if SpeakerChangeDue(now, lastSpeechTime, currentTranscript) then 1 else 0;
      && (SpeakerChange in r.sent <==> SpeakerChangeDue(now, lastSpeechTime, currentTranscript))
      && (currentTranscript == [] ==> SpeakerChange !in r.sent)
      && k + 1 < |r.sent|
      && (k == 1 ==> r.sent[0] == SpeakerChange)
      && r.sent[k] == Transcript(transcript, true)
      && r.sent[k + 1..] == t.sent
      && r.requests == t.requests
  {
    var r := SegmentOutcome(transcript, now, lastSpeechTime, currentTranscript, source, target, hasApiKey, svc);
    var t := TranslationOutcome(transcript, source, target, hasApiKey, svc);
    var change := if SpeakerChangeDue(now, lastSpeechTime, currentTranscript) then [SpeakerChange] else [];
    TranslationShape(transcript, source, target, hasApiKey, svc);
    assert SegmentHead(transcript, now, lastSpeechTime, currentTranscript) == change + [Transcript(transcript, true)];
    assert r.sent == change + [Transcript(transcript, true)] + t.sent;
    assert r.sent[|change| + 1..] == t.sent;
  }

  /** What `handleOpenAIMessage(message)` sends to the client and asks of the
      translation service, by event type. A `speech_started` or
      `speech_stopped` event, and an event of another type, send nothing. */
  function EventOutcome(evt: UpstreamEvent, now: int, lastSpeechTime: int, currentTranscript: string,
                        source: string, target: string, hasApiKey: bool, svc: Services): Pipeline
  {
    match evt
    case TranscriptionCompleted(transcript) =>
      SegmentOutcome(transcript, now, lastSpeechTime, currentTranscript, source, target, hasApiKey, svc)
    case TranscriptDelta(delta) =>
      Pipeline(if delta == [] then [] else [Transcript(delta, false)], [])
    case TranscriptDone(transcript) =>
      if transcript == [] then Pipeline([], [])
      else
        var t := TranslationOutcome(transcript, source, target, hasApiKey, svc);
        Pipeline([Transcript(transcript, true)] + t.sent, t.requests)
    case ServiceError(detail) =>
      Pipeline([Error(if detail == [] then UnknownError else detail)], [])
    case _ => Pipeline([], [])
  }

  /** Every event's messages keep the client's ordering rules and do not
      open with a gloss, so they can be appended to any ordered trace. */
  lemma EventOrdered(evt: UpstreamEvent, now: int, lastSpeechTime: int, currentTranscript: string,
                     source: string, target: string, hasApiKey: bool, svc: Services)
    ensures var r := EventOutcome(evt, now, lastSpeechTime, currentTranscript, source, target, hasApiKey, svc);
      Ordered(r.sent) && (r.sent != [] ==> !r.sent[0].WordTranslation?)
  {
    match evt
    case TranscriptionCompleted(transcript) =>
      SegmentOrdered(transcript, now, lastSpeechTime, currentTranscript, source, target, hasApiKey, svc);
      var r := SegmentOutcome(transcript, now, lastSpeechTime, currentTranscript, source, target, hasApiKey, svc);
      assert r.sent != [] ==> ChangeIsFollowed(r.sent, 0) && GlossIsPreceded(r.sent, 0);
    case TranscriptDone(transcript) =>
      if transcript != [] {
        TranslationShape(transcript, source, target, hasApiKey, svc);
        var t := TranslationOutcome(transcript, source, target, hasApiKey, svc);
        OrderedConcat([Transcript(transcript, true)], t.sent);
      }
    case _ =>
  }

  /** Only a completed transcription brings a speaker change. Only a final
      transcript (a non-blank completed transcription, or a non-empty
      `response.audio_transcript.done`) in a language other than the target,
      with an API client, makes a call to the translation service. Partial
      transcripts, errors and speech events never do either. */
  lemma EventEffects(evt: UpstreamEvent, now: int, lastSpeechTime: int, currentTranscript: string,
                     source: string, target: string, hasApiKey: bool, svc: Services)
    ensures var r := EventOutcome(evt, now, lastSpeechTime, currentTranscript, source, target, hasApiKey, svc);
      && (SpeakerChange in r.sent ==> evt.TranscriptionCompleted?)
      && (r.requests != [] <==>
            && ((evt.TranscriptionCompleted? && !JsText.IsBlank(evt.transcript))
                || (evt.TranscriptDone? && evt.transcript != []))
            && source != target && hasApiKey)
  {
    match evt
    case TranscriptionCompleted(transcript) =>
      if !JsText.IsBlank(transcript) {
        SegmentShape(transcript, now, lastSpeechTime, currentTranscript, source, target, hasApiKey, svc);
        TranslationShape(transcript, source, target, hasApiKey, svc);
        assert transcript != [];
      }
    case TranscriptDone(transcript) =>
      if transcript != [] {
        TranslationShape(transcript, source, target, hasApiKey, svc);
      }
    case _ =>
  }

  /** Number of `input_audio_buffer.append` messages in an upstream trace. */
  function Appends(t: seq<Delivery>): nat
  {
    if t == [] then 0
    else Appends(t[..|t| - 1]) + (if t[|t| - 1].msg.Append? then 1 else 0)
  }

  /** The state of one client connection on the server. */
  class RealtimeTranslator {
    /** Whether the server process has an OpenAI API key (and so a client). */
    const hasApiKey: bool
    /** Whether the client's socket is open; `sendToClient` drops otherwise. */
    var clientOpen: bool
    /** Every upstream socket this session has created, in order; the last
        one is `openaiWs`. */
    var sockets: seq<ReadyState>
    var isConnected: bool
    var currentTranscript: string
    var inputLanguage: string
    var outputLanguage: string
    var lastSpeechTime: int
    /** `audioChunkCounter`: frames forwarded upstream. */
    var audioChunkCounter: nat
    /** Messages delivered to the client, in order. */
    var toClient: seq<ClientMsg>
    /** Messages written to upstream sockets, in order. */
    var toUpstream: seq<Delivery>
    /** Requests made to the translation service, in order. */
    var requests: seq<ServiceRequest>

    /** The upstream half of the session invariant: a connection flag
        implies a socket, every upstream write went to a socket of this
        session, and the counter counts exactly the forwarded frames. */
    ghost predicate UpstreamValid()
      reads this`isConnected, this`sockets, this`toUpstream, this`audioChunkCounter
    {
      && (isConnected ==> |sockets| > 0)
      && (forall d | d in toUpstream :: d.socket < |sockets|)
      && audioChunkCounter == Appends(toUpstream)
    }

    /** The session invariant: the upstream half, and the client trace is
        ordered. */
    ghost predicate Valid()
      reads this`isConnected, this`sockets, this`toUpstream, this`audioChunkCounter, this`toClient
    {
      UpstreamValid() && Ordered(toClient)
    }

    /** Whether `openaiWs` exists and is open. */
    predicate UpstreamOpen()
      reads this`sockets
    {
      |sockets| > 0 && sockets[|sockets| - 1] == Open
    }

    /** A session for a newly connected client, created at time `now`. */
    constructor(hasApiKey: bool, now: int)
      ensures Valid()
      ensures this.hasApiKey == hasApiKey && clientOpen
      ensures sockets == [] && !isConnected && audioChunkCounter == 0
      ensures currentTranscript == "" && inputLanguage == "sv" && outputLanguage == "sv"
      ensures lastSpeechTime == now
      ensures toClient == [] && toUpstream == [] && requests == []
    {
      this.hasApiKey := hasApiKey;
      clientOpen := true;
      sockets := [];
      isConnected := false;
      currentTranscript := "";
      inputLanguage := "sv";
      outputLanguage := "sv";
      lastSpeechTime := now;
      audioChunkCounter := 0;
      toClient := [];
      toUpstream := [];
      requests := [];
    }

    /** `sendToClient`. */
    method SendToClient(m: ClientMsg)
      modifies this`toClient
      ensures Delivered(toClient, old(toClient), clientOpen, [m])
    {
      if clientOpen {
        toClient := toClient + [m];
      }
    }

    /** `sendToOpenAI`: written to `openaiWs` when it is open, else dropped. */
    method SendToOpenAI(m: UpstreamMsg)
      modifies this`toUpstream
      ensures toUpstream == old(toUpstream) + (if UpstreamOpen() then [Delivery(|sockets| - 1, m)] else [])
    {
      if UpstreamOpen() {
        toUpstream := toUpstream + [Delivery(|sockets| - 1, m)];
      }
    }

    /** `connect`: without an API key, one error and nothing else; otherwise
        a new upstream socket, even when one already exists. */
    method Connect()
      requires Valid()
      modifies this`sockets, this`toClient
      ensures Valid()
      ensures !hasApiKey ==> sockets == old(sockets) && Delivered(toClient, old(toClient), clientOpen, [Error(KeyMissing)])
      ensures hasApiKey ==> sockets == old(sockets) + [Connecting] && toClient == old(toClient)
    {
      if !hasApiKey {
        SendToClient(Error(KeyMissing));
        DeliveredOrdered(toClient, old(toClient), clientOpen, [Error(KeyMissing)]);
        return;
      }
      sockets := sockets + [Connecting];
    }

    /** The upstream socket's `open` handler: the session is connected and
        the configuration handshake goes out on `openaiWs`. */
    method OnUpstreamOpen(k: nat)
      requires Valid() && k < |sockets| && sockets[k] == Connecting
      modifies this`sockets, this`isConnected, this`toUpstream
      ensures Valid()
      ensures sockets == old(sockets)[k := Open] && isConnected
      ensures toUpstream == old(toUpstream) + (if UpstreamOpen() then [Delivery(|sockets| - 1, SessionUpdate)] else [])
    {
      sockets := sockets[k := Open];
      isConnected := true;
      SendToOpenAI(SessionUpdate);
      AppendsConcat(old(toUpstream), if UpstreamOpen() then [Delivery(|sockets| - 1, SessionUpdate)] else []);
    }

    /** The upstream socket's `close` handler: whichever socket closed, the
        session is no longer connected. */
    method OnUpstreamClose(k: nat)
      requires Valid() && k < |sockets| && sockets[k] != Closed
      modifies this`sockets, this`isConnected
      ensures Valid()
      ensures sockets == old(sockets)[k := Closed] && !isConnected
    {
      sockets := sockets[k := Closed];
      isConnected := false;
    }

    /** The upstream socket's `error` handler. */
    method OnUpstreamError(detail: string)
      requires Valid()
      modifies this`toClient
      ensures Valid()
      ensures Delivered(toClient, old(toClient), clientOpen, [Error(ConnectionErrorPrefix + detail)])
    {
      SendToClient(Error(ConnectionErrorPrefix + detail));
      DeliveredOrdered(toClient, old(toClient), clientOpen, [Error(ConnectionErrorPrefix + detail)]);
    }

    /** `getWordByWordTranslation`: asks for a gloss and forwards it; a
        failure is swallowed. */
    method GetWordByWordTranslation(text: string, gloss: Reply<seq<WordPair>>)
      modifies this`toClient, this`requests
      ensures !hasApiKey ==> toClient == old(toClient) && requests == old(requests)
      ensures hasApiKey ==> requests == old(requests) + [GlossRequest(text, inputLanguage, outputLanguage)]
      ensures hasApiKey ==>
        Delivered(toClient, old(toClient), clientOpen, if gloss.Answer? then [WordTranslation(gloss.value)] else [])
    {
      if !hasApiKey {
        return;
      }
      requests := requests + [GlossRequest(text, inputLanguage, outputLanguage)];
      match gloss {
        case Answer(words) => SendToClient(WordTranslation(words));
        case CallFailed =>
      }
    }

    /** `translateText`. */
    method TranslateText(text: string, svc: Services)
      modifies this`toClient, this`requests
      ensures Delivered(toClient, old(toClient), clientOpen,
                        TranslationOutcome(text, inputLanguage, outputLanguage, hasApiKey, svc).sent)
      ensures requests == old(requests) + TranslationOutcome(text, inputLanguage, outputLanguage, hasApiKey, svc).requests
    {
      if text == [] || inputLanguage == outputLanguage {
        SendToClient(Translation(text));
        return;
      }
      if !hasApiKey {
        SendToClient(Error(TranslationUnavailable));
        return;
      }
      requests := requests + [SentenceRequest(text, inputLanguage, outputLanguage)];
      match svc.sentence {
        case CallFailed =>
          SendToClient(Error(TranslationFailed));
        case Answer(raw) =>
          SendToClient(Translation(JsText.Trim(raw)));
          GetWordByWordTranslation(text, svc.gloss);
      }
    }

    /** The first half of `handleTranscription` for a non-blank segment: a
        speaker change when due, then the final transcript, which replaces
        `currentTranscript`. */
    method AnnounceSegment(transcript: string, now: int)
      modifies this`currentTranscript, this`toClient
      ensures currentTranscript == transcript
      ensures Delivered(toClient, old(toClient), clientOpen,
                        SegmentHead(transcript, now, lastSpeechTime, old(currentTranscript)))
    {
      if SpeakerChangeDue(now, lastSpeechTime, currentTranscript) {
        SendToClient(SpeakerChange);
      }
      currentTranscript := transcript;
      SendToClient(Transcript(transcript, true));
    }

    /** `handleTranscription`: for a non-blank segment, a speaker change when
        due, the final transcript, which replaces `currentTranscript`, and the
        translation pipeline. `lastSpeechTime` is not touched. */
    method HandleTranscription(transcript: string, now: int, svc: Services)
      requires Valid()
      modifies this`currentTranscript, this`toClient, this`requests
      ensures Valid()
      ensures currentTranscript == if JsText.IsBlank(transcript) then old(currentTranscript) else transcript
      ensures Delivered(toClient, old(toClient), clientOpen,
                        SegmentOutcome(transcript, now, lastSpeechTime, old(currentTranscript),
                                       inputLanguage, outputLanguage, hasApiKey, svc).sent)
      ensures requests == old(requests) +
        SegmentOutcome(transcript, now, lastSpeechTime, old(currentTranscript),
                       inputLanguage, outputLanguage, hasApiKey, svc).requests
    {
      SegmentOrdered(transcript, now, lastSpeechTime, currentTranscript,
                     inputLanguage, outputLanguage, hasApiKey, svc);
      if JsText.IsBlank(transcript) {
        return;
      }
      ghost var head := SegmentHead(transcript, now, lastSpeechTime, currentTranscript);
      ghost var t := TranslationOutcome(transcript, inputLanguage, outputLanguage, hasApiKey, svc);
      ghost var p := SegmentOutcome(transcript, now, lastSpeechTime, currentTranscript,
                                    inputLanguage, outputLanguage, hasApiKey, svc);
      assert p.sent == head + t.sent && p.requests == t.requests;
      AnnounceSegment(transcript, now);
      TranslateText(transcript, svc);
      assert requests == old(requests) + t.requests;
      if clientOpen {
        assert toClient == old(toClient) + p.sent;
      }
      DeliveredOrdered(toClient, old(toClient), clientOpen, p.sent);
    }

    /** `processSpeechEnd`: commit the upstream audio buffer if connected. */
    method ProcessSpeechEnd()
      modifies this`toUpstream
      requires Valid()
      ensures Valid()
      ensures toUpstream == old(toUpstream) +
        (if isConnected && UpstreamOpen() then [Delivery(|sockets| - 1, Commit)] else [])
    {
      if isConnected {
        SendToOpenAI(Commit);
        AppendsConcat(old(toUpstream), if UpstreamOpen() then [Delivery(|sockets| - 1, Commit)] else []);
      }
    }

    /** The `response.audio_transcript.delta` case: a non-empty delta is
        forwarded as a partial transcript. */
    method OnTranscriptDelta(delta: string, ghost now: int, ghost svc: Services)
      requires Valid()
      modifies this`toClient
      ensures Valid()
      ensures Delivered(toClient, old(toClient), clientOpen,
                        EventOutcome(TranscriptDelta(delta), now, lastSpeechTime, currentTranscript,
                                     inputLanguage, outputLanguage, hasApiKey, svc).sent)
    {
      if delta != [] {
        SendToClient(Transcript(delta, false));
      }
      DeliveredOrdered(toClient, old(toClient), clientOpen, if delta == [] then [] else [Transcript(delta, false)]);
    }

    /** The `response.audio_transcript.done` case: a non-empty transcript is
        sent as final and translated; no speaker check, no trim, and
        `currentTranscript` is not updated. */
    method OnTranscriptDone(transcript: string, now: int, svc: Services)
      requires Valid()
      modifies this`toClient, this`requests
      ensures Valid()
      ensures Delivered(toClient, old(toClient), clientOpen,
                        EventOutcome(TranscriptDone(transcript), now, lastSpeechTime, currentTranscript,
                                     inputLanguage, outputLanguage, hasApiKey, svc).sent)
      ensures requests == old(requests) +
        EventOutcome(TranscriptDone(transcript), now, lastSpeechTime, currentTranscript,
                     inputLanguage, outputLanguage, hasApiKey, svc).requests
    {
      if transcript != [] {
        SendToClient(Transcript(transcript, true));
        TranslateText(transcript, svc);
        ghost var t := TranslationOutcome(transcript, inputLanguage, outputLanguage, hasApiKey, svc);
        ghost var r := EventOutcome(TranscriptDone(transcript), now, lastSpeechTime, currentTranscript,
                                    inputLanguage, outputLanguage, hasApiKey, svc);
        assert r.sent == [Transcript(transcript, true)] + t.sent;
        if clientOpen {
          assert toClient == old(toClient) + r.sent;
        }
        EventOrdered(TranscriptDone(transcript), now, lastSpeechTime, currentTranscript,
                     inputLanguage, outputLanguage, hasApiKey, svc);
        DeliveredOrdered(toClient, old(toClient), clientOpen, r.sent);
      }
    }

    /** The `error` case: the service's message, or "Unknown error". */
    method OnServiceError(detail: string, ghost now: int, ghost svc: Services)
      requires Valid()
      modifies this`toClient
      ensures Valid()
      ensures Delivered(toClient, old(toClient), clientOpen,
                        EventOutcome(ServiceError(detail), now, lastSpeechTime, currentTranscript,
                                     inputLanguage, outputLanguage, hasApiKey, svc).sent)
    {
      SendToClient(Error(if detail == [] then UnknownError else detail));
      DeliveredOrdered(toClient, old(toClient), clientOpen, [Error(if detail == [] then UnknownError else detail)]);
    }

    /** `handleOpenAIMessage`: `speech_started` records the time, and
        `speech_stopped` commits the audio buffer; every event sends and asks
        what EventOutcome says. */
    method HandleOpenAIMessage(evt: UpstreamEvent, now: int, svc: Services)
      requires Valid()
      modifies this`lastSpeechTime, this`currentTranscript, this`toClient, this`toUpstream, this`requests
      ensures Valid()
      ensures lastSpeechTime == if evt.SpeechStarted? then now else old(lastSpeechTime)
      ensures toUpstream == old(toUpstream) +
        (if evt.SpeechStopped? && isConnected && UpstreamOpen() then [Delivery(|sockets| - 1, Commit)] else [])
      ensures currentTranscript ==
        if evt.TranscriptionCompleted? && !JsText.IsBlank(evt.transcript) then evt.transcript
        else old(currentTranscript)
      ensures Delivered(toClient, old(toClient), clientOpen,
                        EventOutcome(evt, now, old(lastSpeechTime), old(currentTranscript),
                                     inputLanguage, outputLanguage, hasApiKey, svc).sent)
      ensures requests == old(requests) +
        EventOutcome(evt, now, old(lastSpeechTime), old(currentTranscript),
                     inputLanguage, outputLanguage, hasApiKey, svc).requests
    {
      match evt {
        case SpeechStarted =>
          lastSpeechTime := now;
        case SpeechStopped =>
          ProcessSpeechEnd();
        case TranscriptionCompleted(transcript) =>
          HandleTranscription(transcript, now, svc);
        case TranscriptDelta(delta) =>
          OnTranscriptDelta(delta, now, svc);
        case TranscriptDone(transcript) =>
          OnTranscriptDone(transcript, now, svc);
        case ServiceError(detail) =>
          OnServiceError(detail, now, svc);
        case OtherEvent(_) =>
      }
    }

    /** `handleAudioData`: the frame's languages always overwrite the
        session's; the frame is forwarded in an `append` message, and
        counted, only while connected with `openaiWs` open. */
    method HandleAudioData(data: seq<int>, source: string, target: string)
      requires Valid()
      modifies this`inputLanguage, this`outputLanguage, this`audioChunkCounter, this`toUpstream
      ensures Valid()
      ensures inputLanguage == source && outputLanguage == target
      ensures isConnected && UpstreamOpen() ==>
        && audioChunkCounter == old(audioChunkCounter) + 1
        && toUpstream == old(toUpstream) + [Delivery(|sockets| - 1, Append(data))]
      ensures !(isConnected && UpstreamOpen()) ==>
        audioChunkCounter == old(audioChunkCounter) && toUpstream == old(toUpstream)
    {
      inputLanguage := source;
      outputLanguage := target;
      if isConnected && UpstreamOpen() {
        audioChunkCounter := audioChunkCounter + 1;
        SendToOpenAI(Append(data));
        AppendsConcat(old(toUpstream), [Delivery(|sockets| - 1, Append(data))]);
      }
    }

    /** `disconnect`: closes `openaiWs` if there is one; the connection flag
        waits for the socket's `close` event. */
    method Disconnect()
      requires Valid()
      modifies this`sockets
      ensures Valid()
      ensures |sockets| == |old(sockets)|
      ensures old(UpstreamOpen()) || (|sockets| > 0 && old(sockets)[|sockets| - 1] == Connecting) ==>
        sockets == old(sockets)[|sockets| - 1 := Closing]
      ensures !(old(UpstreamOpen()) || (|sockets| > 0 && old(sockets)[|sockets| - 1] == Connecting)) ==>
        sockets == old(sockets)
    {
      if |sockets| > 0 {
        var last := |sockets| - 1;
        if sockets[last] == Connecting || sockets[last] == Open {
          sockets := sockets[last := Closing];
        }
      }
    }

    /** The client socket's `close` handler. */
    method OnClientClose()
      requires Valid()
      modifies this`clientOpen, this`sockets
      ensures Valid()
      ensures !clientOpen && |sockets| == |old(sockets)|
      ensures old(UpstreamOpen()) || (|sockets| > 0 && old(sockets)[|sockets| - 1] == Connecting) ==>
        sockets == old(sockets)[|sockets| - 1 := Closing]
      ensures !(old(UpstreamOpen()) || (|sockets| > 0 && old(sockets)[|sockets| - 1] == Connecting)) ==>
        sockets == old(sockets)
    {
      clientOpen := false;
      Disconnect();
    }

    /** The client socket's `message` handler: `start`, `audio`, `stop`;
        other types are ignored, and a message that does not parse is
        answered with a server error. */
    method HandleClientMessage(req: Request)
      requires Valid()
      modifies this`sockets, this`toClient, this`inputLanguage, this`outputLanguage,
               this`audioChunkCounter, this`toUpstream
      ensures Valid()
      ensures req.Start? && !hasApiKey ==>
        sockets == old(sockets) && Delivered(toClient, old(toClient), clientOpen, [Error(KeyMissing)])
      ensures req.Start? && hasApiKey ==> sockets == old(sockets) + [Connecting] && toClient == old(toClient)
      ensures req.AudioFrame? ==>
        && inputLanguage == req.inputLanguage && outputLanguage == req.outputLanguage
        && sockets == old(sockets) && toClient == old(toClient)
        && toUpstream == old(toUpstream) +
             (if isConnected && UpstreamOpen() then [Delivery(|sockets| - 1, Append(req.data))] else [])
      ensures !req.AudioFrame? ==>
        && inputLanguage == old(inputLanguage) && outputLanguage == old(outputLanguage)
        && toUpstream == old(toUpstream) && audioChunkCounter == old(audioChunkCounter)
      ensures req.Stop? ==> toClient == old(toClient) && |sockets| == |old(sockets)|
      ensures req.Stop? && (old(UpstreamOpen()) || (|sockets| > 0 && old(sockets)[|sockets| - 1] == Connecting)) ==>
        sockets == old(sockets)[|sockets| - 1 := Closing]
      ensures req.Stop? && !(old(UpstreamOpen()) || (|sockets| > 0 && old(sockets)[|sockets| - 1] == Connecting)) ==>
        sockets == old(sockets)
      ensures req.Unrecognised? ==> sockets == old(sockets) && toClient == old(toClient)
      ensures req.Malformed? ==>
        sockets == old(sockets) && Delivered(toClient, old(toClient), clientOpen, [Error(ServerErrorPrefix + req.detail)])
    {
      match req {
        case Start =>
          Connect();
        case AudioFrame(data, source, target) =>
          HandleAudioData(data, source, target);
        case Stop =>
          Disconnect();
        case Unrecognised(_) =>
        case Malformed(detail) =>
          SendToClient(Error(ServerErrorPrefix + detail));
          DeliveredOrdered(toClient, old(toClient), clientOpen, [Error(ServerErrorPrefix + detail)]);
      }
    }
  }

  /** The append count of two traces in a row is the sum of their counts. */
  lemma {:induction false} AppendsConcat(a: seq<Delivery>, b: seq<Delivery>)
    ensures Appends(a + b) == Appends(a) + Appends(b)
    decreases |b|
  {
    if b != [] {
      AppendsConcat(a, b[..|b| - 1]);
      assert (a + b)[..|a + b| - 1] == a + b[..|b| - 1];
    } else {
      assert a + b == a;
    }
  }
}
