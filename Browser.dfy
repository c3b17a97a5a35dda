/** The browser side of app.js: class LiveTranslateApp as a reducer over the
    server's messages, and the sample conversion of `setupAudioRecording`.
    The DOM is reduced to what the reducer writes into it: the text of the
    original and translated panes, the gloss pane and the status line. */
module Browser {
  import opened Protocol
  import Audio

  /** The word-by-word pane: a text, or the received pairs in order. */
  datatype GlossView = GlossText(text: string) | GlossPairs(words: seq<WordPair>)

  /** The status line: hidden, or a message of some kind. */
  datatype Status = Hidden | Shown(message: string, kind: string)

  /** What the page shows. */
  datatype Page = Page(originalText: string, translatedText: string, wordByWord: GlossView, status: Status)

  /** The reducer's state: the fields of LiveTranslateApp it updates and
      the page it shows them on. */
  datatype View = View(transcript: string, translation: string, speaker: int, page: Page)

  const OriginalPlaceholder := "Press \"Start Listening\" to begin transcription..."
  const TranslationPlaceholder := "Translation will appear here..."
  const GlossPlaceholder := "Word-by-word translations will appear here..."
  const ErrorPrefix := "Error: "

  /** The state right after the constructor, on a page showing `page`. */
  function Initial(page: Page): (v: View)
    ensures v.transcript == "" && v.translation == "" && v.speaker == 1 && v.page == page
  {
    View("", "", 1, page)
  }

  /** `handleRealtimeMessage` as a function of the view. */
  function Receive(v: View, m: ClientMsg): (r: View)
    // the speaker counter moves by one on speaker_change, and only then
    ensures r.speaker == v.speaker + (if m.SpeakerChange? then 1 else 0)
    // the transcript only grows: by the text of a final transcript, by a
    // blank line on speaker_change
    ensures m.Transcript? && m.isFinal ==> r.transcript == v.transcript + m.text
    ensures m.SpeakerChange? ==> r.transcript == v.transcript + "\n\n" && r.translation == v.translation + "\n\n"
    ensures !(m.Transcript? && m.isFinal) && !m.SpeakerChange? ==> r.transcript == v.transcript
    // a partial transcript is shown after the accumulated one, not kept
    ensures m.Transcript? && !m.isFinal ==> r.page.originalText == v.transcript + m.text
    // a translation replaces the previous one
    ensures m.Translation? ==> r.translation == m.text && r.page.translatedText == m.text
    ensures !m.Translation? && !m.SpeakerChange? ==> r.translation == v.translation
    // a gloss replaces the pane's content with exactly its pairs
    ensures m.WordTranslation? ==> r.page.wordByWord == GlossPairs(m.words)
    ensures !m.WordTranslation? ==> r.page.wordByWord == v.page.wordByWord
    // an error only shows a status; a message of another type changes nothing
    ensures m.Error? ==> r == v.(page := v.page.(status := Shown(ErrorPrefix + m.message, "error")))
    ensures m.Other? ==> r == v
  {
    match m
    case Transcript(text, isFinal) =>
      if isFinal then
        var t := v.transcript + text;
        v.(transcript := t, page := v.page.(originalText := t))
      else
        v.(page := v.page.(originalText := v.transcript + text))
    case Translation(text) =>
      v.(translation := text, page := v.page.(translatedText := text))
    case WordTranslation(words) =>
      v.(page := v.page.(wordByWord := GlossPairs(words)))
    case SpeakerChange =>
      var t := v.transcript + "\n\n";
      var u := v.translation + "\n\n";
      v.(speaker := v.speaker + 1, transcript := t, translation := u,
         page := v.page.(originalText := t, translatedText := u))
    case Error(message) =>
      v.(page := v.page.(status := Shown(ErrorPrefix + message, "error")))
    case Other(_) => v
  }

  /** The messages of a trace received in order. */
  function ReceiveAll(v: View, ms: seq<ClientMsg>): View
    decreases |ms|
  {
    if ms == [] then v else ReceiveAll(Receive(v, ms[0]), ms[1..])
  }

  /** Number of speaker changes in a trace. */
  function SpeakerChanges(ms: seq<ClientMsg>): nat
  {
    if ms == [] then 0 else (if ms[0].SpeakerChange? then 1 else 0) + SpeakerChanges(ms[1..])
  }

  /** Receiving two traces in a row is receiving their concatenation. */
  lemma {:induction false} ReceiveAllConcat(v: View, a: seq<ClientMsg>, b: seq<ClientMsg>)
    ensures ReceiveAll(v, a + b) == ReceiveAll(ReceiveAll(v, a), b)
    decreases |a|
  {
    if a != [] {
      assert (a + b)[0] == a[0] && (a + b)[1..] == a[1..] + b;
      ReceiveAllConcat(Receive(v, a[0]), a[1..], b);
    } else {
      assert a + b == b;
    }
  }

  /** The speaker counter is its starting value plus the number of
      speaker changes received. */
  lemma {:induction false} SpeakerCountsChanges(v: View, ms: seq<ClientMsg>)
    ensures ReceiveAll(v, ms).speaker == v.speaker + SpeakerChanges(ms)
    decreases |ms|
  {
    if ms != [] {
      SpeakerCountsChanges(Receive(v, ms[0]), ms[1..]);
    }
  }

  /** The accumulated transcript is never shortened or rewritten: what was
      shown before any trace is a prefix of what is kept after it. */
  lemma {:induction false} TranscriptOnlyGrows(v: View, ms: seq<ClientMsg>)
    ensures v.transcript <= ReceiveAll(v, ms).transcript
    decreases |ms|
  {
    if ms != [] {
      var w := Receive(v, ms[0]);
      TranscriptOnlyGrows(w, ms[1..]);
      assert v.transcript <= w.transcript;
    }
  }

  /** A trace with no speaker change, no final transcript and no translation
      leaves both texts and the speaker counter as they were. */
  lemma {:induction false} QuietTraceKeepsTexts(v: View, ms: seq<ClientMsg>)
    requires forall i | 0 <= i < |ms| :: ms[i].Error? || ms[i].Other? || ms[i].WordTranslation? || (ms[i].Transcript? && !ms[i].isFinal)
    ensures var r := ReceiveAll(v, ms);
      r.transcript == v.transcript && r.translation == v.translation && r.speaker == v.speaker
    decreases |ms|
  {
    if ms != [] {
      QuietTraceKeepsTexts(Receive(v, ms[0]), ms[1..]);
    }
  }

  /** `Math.max(-32768, Math.min(32767, x))`. */
  function Clamp(x: int): (r: Audio.Int16)
    ensures -32768 <= x <= 32767 ==> r == x
    ensures x < -32768 ==> r == -32768
    ensures x > 32767 ==> r == 32767
  {
    if x < -32768 then -32768 else if x > 32767 then 32767 else x
  }

  /** The conversion loop of `setupAudioRecording`: each floored sample is
      clamped and stored into a new Int16Array of the same length. */
  method ConvertSamples(floored: seq<int>) returns (int16Array: array<Audio.Int16>)
    ensures int16Array.Length == |floored|
    ensures forall i | 0 <= i < |floored| :: int16Array[i] == Clamp(floored[i])
  {
    int16Array := new Audio.Int16[|floored|];
    for i := 0 to |floored|
      invariant forall j | 0 <= j < i :: int16Array[j] == Clamp(floored[j])
    {
      int16Array[i] := Audio.ToInt16(Clamp(floored[i]));
    }
  }

  /** The client's state and page. */
  class LiveTranslateApp {
    var currentTranscript: string
    var currentTranslation: string
    var currentSpeaker: int
    var originalText: string
    var translatedText: string
    var wordByWordText: GlossView
    var status: Status

    /** The reducer's view of this object. */
    function Snapshot(): View
      reads this
    {
      View(currentTranscript, currentTranslation, currentSpeaker,
           Page(originalText, translatedText, wordByWordText, status))
    }

    /** The constructor, on a page that shows `page`. */
    constructor(page: Page)
      ensures Snapshot() == Initial(page)
    {
      currentTranscript := "";
      currentTranslation := "";
      currentSpeaker := 1;
      originalText := page.originalText;
      translatedText := page.translatedText;
      wordByWordText := page.wordByWord;
      status := page.status;
    }

    /** `showStatus`. */
    method ShowStatus(message: string, kind: string)
      modifies this`status
      ensures status == Shown(message, kind)
    {
      status := Shown(message, kind);
    }

    /** `updateTranscript`: a final text is appended to the transcript; a
        partial one is only shown after it. */
    method UpdateTranscript(text: string, isFinal: bool)
      modifies this`currentTranscript, this`originalText
      ensures isFinal ==> currentTranscript == old(currentTranscript) + text && originalText == currentTranscript
      ensures !isFinal ==> currentTranscript == old(currentTranscript) && originalText == currentTranscript + text
    {
      if isFinal {
        currentTranscript := currentTranscript + text;
        originalText := currentTranscript;
      } else {
        var partialText := currentTranscript + text;
        originalText := partialText;
      }
    }

    /** `updateTranslation`: the new text replaces the old. */
    method UpdateTranslation(text: string)
      modifies this`currentTranslation, this`translatedText
      ensures currentTranslation == text && translatedText == text
    {
      currentTranslation := text;
      translatedText := currentTranslation;
    }

    /** `updateWordByWord`: the pane is cleared, then filled with one entry
        per pair, in order. */
    method UpdateWordByWord(words: seq<WordPair>)
      modifies this`wordByWordText
      ensures wordByWordText == GlossPairs(words)
    {
      wordByWordText := GlossPairs([]);
      for i := 0 to |words|
        invariant wordByWordText == GlossPairs(words[..i])
      {
        wordByWordText := GlossPairs(wordByWordText.words + [words[i]]);
      }
      assert words[..|words|] == words;
    }

    /** `handleSpeakerChange`: the next speaker, and a blank line in both
        texts. */
    method HandleSpeakerChange()
      modifies this`currentSpeaker, this`currentTranscript, this`currentTranslation, this`originalText, this`translatedText
      ensures currentSpeaker == old(currentSpeaker) + 1
      ensures currentTranscript == old(currentTranscript) + "\n\n" && originalText == currentTranscript
      ensures currentTranslation == old(currentTranslation) + "\n\n" && translatedText == currentTranslation
    {
      currentSpeaker := currentSpeaker + 1;
      currentTranscript := currentTranscript + "\n\n";
      currentTranslation := currentTranslation + "\n\n";
      originalText := currentTranscript;
      translatedText := currentTranslation;
    }

    /** `handleRealtimeMessage`. */
    method HandleRealtimeMessage(m: ClientMsg)
      modifies this
      ensures Snapshot() == Receive(old(Snapshot()), m)
    {
      match m {
        case Transcript(text, isFinal) => UpdateTranscript(text, isFinal);
        case Translation(text) => UpdateTranslation(text);
        case WordTranslation(words) => UpdateWordByWord(words);
        case SpeakerChange => HandleSpeakerChange();
        case Error(message) => ShowStatus(ErrorPrefix + message, "error");
        case Other(_) =>
      }
    }

    /** `clearTranscripts`: both texts and all three panes are reset; the
        speaker counter is kept. */
    method ClearTranscripts()
      modifies this`currentTranscript, this`currentTranslation, this`originalText, this`translatedText, this`wordByWordText
      ensures currentTranscript == "" && currentTranslation == ""
      ensures originalText == OriginalPlaceholder && translatedText == TranslationPlaceholder
      ensures wordByWordText == GlossText(GlossPlaceholder)
    {
      currentTranscript := "";
      currentTranslation := "";
      originalText := OriginalPlaceholder;
      translatedText := TranslationPlaceholder;
      wordByWordText := GlossText(GlossPlaceholder);
    }
  }
}
