/** The two halves of the application together: what the page shows once
    it has received what the relay sends for a segment, the audio frames
    from the browser's conversion loop to the upstream payload, and the
    request stream the browser sends to the relay. */
module EndToEnd {
  import opened Protocol
  import opened Relay
  import Audio
  import JsText
  import Browser

  /** Receiving one message is `Receive`. */
  lemma ReceiveOne(v: Browser.View, m: ClientMsg)
    ensures Browser.ReceiveAll(v, [m]) == Browser.Receive(v, m)
  {
    assert [m][1..] == [];
  }

  /** Receiving two messages is receiving one, then the other. */
  lemma ReceiveTwo(v: Browser.View, m: ClientMsg, n: ClientMsg)
    ensures Browser.ReceiveAll(v, [m, n]) == Browser.Receive(Browser.Receive(v, m), n)
  {
    assert [m, n][1..] == [n];
    ReceiveOne(Browser.Receive(v, m), n);
  }

  /** What the page shows after the translation pipeline of one text, from
      view `v`: the transcript is untouched; the translation is replaced by
      the text itself (same languages), by the trimmed answer of the
      service, or is kept while the status line shows the error; a gloss
      that came back fills the gloss pane. */
  lemma TranslationOnScreen(v: Browser.View, text: string, source: string, target: string,
                            hasApiKey: bool, svc: Services)
    requires text != []
    ensures var r := Browser.ReceiveAll(v, TranslationOutcome(text, source, target, hasApiKey, svc).sent);
      && r.transcript == v.transcript && r.speaker == v.speaker
      && (source == target ==> r.translation == text)
      && (source != target && hasApiKey && svc.sentence.Answer? ==>
            r.translation == JsText.Trim(svc.sentence.value)
            && (svc.gloss.Answer? ==> r.page.wordByWord == Browser.GlossPairs(svc.gloss.value))
            && (svc.gloss.CallFailed? ==> r.page.wordByWord == v.page.wordByWord))
      && (source != target && !hasApiKey ==>
            r.translation == v.translation
            && r.page.status == Browser.Shown(Browser.ErrorPrefix + TranslationUnavailable, "error"))
      && (source != target && hasApiKey && svc.sentence.CallFailed? ==>
            r.translation == v.translation
            && r.page.status == Browser.Shown(Browser.ErrorPrefix + TranslationFailed, "error"))
  {
    var t := TranslationOutcome(text, source, target, hasApiKey, svc);
    if |t.sent| == 1 {
      ReceiveOne(v, t.sent[0]);
    } else {
      assert t.sent == [t.sent[0], t.sent[1]];
      ReceiveTwo(v, t.sent[0], t.sent[1]);
    }
  }

  /** One non-blank completed transcription, end to end: the page's
      transcript gains a blank line exactly when a speaker change was due,
      then the segment's text, and the speaker counter moves with it; the
      translation pane then shows what TranslationOnScreen says. */
  lemma {:induction false} SegmentOnScreen(v: Browser.View, transcript: string, now: int, lastSpeechTime: int,
                                           currentTranscript: string, source: string, target: string,
                                           hasApiKey: bool, svc: Services)
    requires !JsText.IsBlank(transcript)
    ensures var r := Browser.ReceiveAll(v, SegmentOutcome(transcript, now, lastSpeechTime, currentTranscript,
                                                          source, target, hasApiKey, svc).sent);
      var due := SpeakerChangeDue(now, lastSpeechTime, currentTranscript);
      var sep := if due then "\n\n" else "";
      && r.transcript == v.transcript + sep + transcript
      && r.speaker == v.speaker + (if due then 1 else 0)
      && (source == target ==> r.translation == transcript)
      && (source != target && hasApiKey && svc.sentence.Answer? ==>
            r.translation == JsText.Trim(svc.sentence.value))
      && (source != target && !(hasApiKey && svc.sentence.Answer?) ==>
            r.translation == v.translation + sep && r.page.status.Shown?)
  {
    var due := SpeakerChangeDue(now, lastSpeechTime, currentTranscript);
    var sep := if due then "\n\n" else "";
    var head := SegmentHead(transcript, now, lastSpeechTime, currentTranscript);
    var t := TranslationOutcome(transcript, source, target, hasApiKey, svc);
    assert transcript != [] by {
      assert !JsText.IsJsWhitespace(transcript[0]) || !JsText.IsBlank(transcript);
    }
    Browser.ReceiveAllConcat(v, head, t.sent);
    var w := Browser.ReceiveAll(v, head);
    if due {
      assert head == [SpeakerChange, Transcript(transcript, true)];
      ReceiveTwo(v, SpeakerChange, Transcript(transcript, true));
      assert w.transcript == v.transcript + "\n\n" + transcript;
    } else {
      assert head == [Transcript(transcript, true)];
      ReceiveOne(v, Transcript(transcript, true));
      assert w.transcript == v.transcript + transcript;
    }
    assert w.translation == v.translation + sep;
    TranslationOnScreen(w, transcript, source, target, hasApiKey, svc);
  }

  /** The samples of one frame as the browser's conversion loop stores
      them, from the floored float samples. */
  function Clamped(floored: seq<int>): (r: seq<Audio.Int16>)
    ensures |r| == |floored|
  {
    seq(|floored|, i requires 0 <= i < |floored| => Browser.Clamp(floored[i]))
  }

  /** A frame from the browser reaches the speech service intact: the
      `append` payload decodes to its 2n little-endian bytes, and reading
      them back as int16 gives exactly the clamped samples. */
  lemma FrameRoundTrip(floored: seq<int>)
    ensures var samples := Clamped(floored);
      && Audio.Decode(Audio.AudioPayload(samples)) == Audio.Some(Audio.Int16Bytes(samples))
      && Audio.ReadInt16(Audio.Int16Bytes(samples)) == samples
  {
    var samples := Clamped(floored);
    Audio.AudioPayloadRoundTrip(samples);
    assert Audio.StoreInt16(samples) == samples;
  }

  /** One buffer of the browser's recording: its floored samples and the
      languages selected when it was processed. */
  datatype Buffer = Buffer(floored: seq<int>, source: string, target: string)

  /** What app.js sends on its server socket while recording: one `audio`
      request per processed buffer, and nothing else. */
  function SentAsWritten(buffers: seq<Buffer>): (r: seq<Request>)
    ensures |r| == |buffers|
    ensures forall i | 0 <= i < |r| :: r[i].AudioFrame? && r[i].data == Clamped(buffers[i].floored)
    decreases |buffers|
  {
    if buffers == [] then []
    else
      var b := buffers[|buffers| - 1];
      SentAsWritten(buffers[..|buffers| - 1]) + [AudioFrame(Clamped(b.floored), b.source, b.target)]
  }

  /** What a client that asks for the upstream connection sends: `start`
      when its socket opens, then the same `audio` requests. */
  function SentCorrected(buffers: seq<Buffer>): (r: seq<Request>)
    ensures |r| == |buffers| + 1 && r[0] == Start && r[1..] == SentAsWritten(buffers)
  {
    [Start] + SentAsWritten(buffers)
  }

  /** The `append` messages the relay writes to socket `k` for the `audio`
      requests of a stream, in order; other requests add none. */
  function Forwarded(k: nat, reqs: seq<Request>): seq<Delivery>
    decreases |reqs|
  {
    if reqs == [] then []
    else
      var last := reqs[|reqs| - 1];
      Forwarded(k, reqs[..|reqs| - 1])
        + (if last.AudioFrame? then [Delivery(k, Append(last.data))] else [])
  }

  /** The `append` messages for the browser's requests carry, one per
      buffer and in order, exactly the buffers' clamped samples, whose
      payloads FrameRoundTrip decodes. */
  lemma {:induction false} ForwardedBuffers(k: nat, buffers: seq<Buffer>)
    ensures var f := Forwarded(k, SentAsWritten(buffers));
      && |f| == |buffers|
      && forall i | 0 <= i < |buffers| :: f[i] == Delivery(k, Append(Clamped(buffers[i].floored)))
    decreases |buffers|
  {
    if buffers != [] {
      var front := buffers[..|buffers| - 1];
      ForwardedBuffers(k, front);
      var r := SentAsWritten(buffers);
      assert r[..|r| - 1] == SentAsWritten(front);
    }
  }

  /** One more `audio` request adds its `append` message. */
  lemma ForwardedStep(k: nat, reqs: seq<Request>, n: nat)
    requires n < |reqs| && reqs[n].AudioFrame?
    ensures Forwarded(k, reqs[..n + 1]) == Forwarded(k, reqs[..n]) + [Delivery(k, Append(reqs[n].data))]
  {
    assert reqs[..n + 1][..n] == reqs[..n];
  }

  /** The client socket's `message` handler applied to a stream of
      requests without `start`, with no upstream event in between, on a
      session that has no upstream socket: none is opened and nothing is
      forwarded. */
  method ServeWithoutStart(t: RealtimeTranslator, reqs: seq<Request>)
    requires t.Valid() && Start !in reqs && t.sockets == []
    modifies t
    ensures t.Valid()
    ensures t.sockets == [] && t.toUpstream == old(t.toUpstream) && t.audioChunkCounter == old(t.audioChunkCounter)
  {
    for n := 0 to |reqs|
      invariant t.Valid()
      invariant t.sockets == [] && t.toUpstream == old(t.toUpstream) && t.audioChunkCounter == old(t.audioChunkCounter)
    {
      assert reqs[n] != Start;
      t.HandleClientMessage(reqs[n]);
    }
  }

  /** The client socket's `message` handler applied to a stream of `audio`
      requests, with no upstream event in between, on an open connection:
      every frame is forwarded on the current socket, in order, and
      counted. */
  method ServeFrames(t: RealtimeTranslator, reqs: seq<Request>)
    requires t.Valid() && t.isConnected && t.UpstreamOpen()
    requires forall i | 0 <= i < |reqs| :: reqs[i].AudioFrame?
    modifies t
    ensures t.Valid()
    ensures t.sockets == old(t.sockets) && t.isConnected
    ensures t.toUpstream == old(t.toUpstream) + Forwarded(|t.sockets| - 1, reqs)
    ensures t.audioChunkCounter == old(t.audioChunkCounter) + |reqs|
  {
    ghost var k := |t.sockets| - 1;
    for n := 0 to |reqs|
      invariant t.Valid()
      invariant t.sockets == old(t.sockets) && t.isConnected
      invariant t.toUpstream == old(t.toUpstream) + Forwarded(k, reqs[..n])
      invariant t.audioChunkCounter == old(t.audioChunkCounter) + n
    {
      ForwardedStep(k, reqs, n);
      t.HandleClientMessage(reqs[n]);
    }
    assert reqs[..|reqs|] == reqs && k == |t.sockets| - 1;
  }

  /** The session app.js drives, as written: whatever the API key and
      whatever buffers are recorded, no upstream socket is ever opened, so
      no upstream event can arrive and not one frame is forwarded. */
  method BrowserSessionAsWritten(hasApiKey: bool, now: int, buffers: seq<Buffer>) returns (t: RealtimeTranslator)
    ensures t.Valid()
    ensures t.sockets == [] && !t.isConnected
    ensures t.toUpstream == [] && t.audioChunkCounter == 0
  {
    t := new RealtimeTranslator(hasApiKey, now);
    ServeWithoutStart(t, SentAsWritten(buffers));
  }

  /** The session a client that sends `start` drives: the dispatch hands
      `start` to `connect`, which with an API key opens one upstream
      socket; once it has opened, every recorded frame is forwarded on it,
      in order, after the configuration handshake (ForwardedBuffers says
      what each message carries). */
  method BrowserSessionCorrected(now: int, buffers: seq<Buffer>) returns (t: RealtimeTranslator)
    ensures t.Valid()
    ensures t.sockets == [Open] && t.isConnected
    ensures t.toUpstream == [Delivery(0, SessionUpdate)] + Forwarded(0, SentAsWritten(buffers))
    ensures t.audioChunkCounter == |buffers|
  {
    var reqs := SentCorrected(buffers);
    t := new RealtimeTranslator(true, now);
    assert reqs[0] == Start;
    t.Connect();
    assert t.sockets == [Connecting] && t.toUpstream == [];
    t.OnUpstreamOpen(0);
    assert t.sockets == [Open] && t.UpstreamOpen() && t.toUpstream == [Delivery(0, SessionUpdate)];
    ServeFrames(t, reqs[1..]);
  }
}
