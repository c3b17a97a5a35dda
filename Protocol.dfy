/** The messages the relay server sends to the browser client (the JSON
    objects of server.js `sendToClient`), and the ordering that every trace of
    them keeps. */
module Protocol {

  /** One entry of a word-by-word gloss: `{original, translated}`. */
  datatype WordPair = WordPair(original: string, translated: string)

  /** Server-to-client message kinds. */
  datatype ClientMsg =
    | Transcript(text: string, isFinal: bool)
    | Translation(text: string)
    | WordTranslation(words: seq<WordPair>)
    | SpeakerChange
    | Error(message: string)
    | Other(kind: string)   // a type this server never sends

  /** Message i opens a speaker change that message i + 1 completes with
      the final transcript of the new speaker. */
  predicate ChangeIsFollowed(t: seq<ClientMsg>, i: nat)
    requires i < |t|
  {
    t[i].SpeakerChange? ==> i + 1 < |t| && t[i + 1].Transcript? && t[i + 1].isFinal
  }

  /** Message i, if a gloss, comes right after a sentence translation. */
  predicate GlossIsPreceded(t: seq<ClientMsg>, i: nat)
    requires i < |t|
  {
    t[i].WordTranslation? ==> 0 < i && t[i - 1].Translation?
  }

  /** The two ordering rules a client relies on:
      a `speaker_change` is immediately followed by the final `transcript`
      that triggered it, and a `word_translation` is immediately preceded by
      the `translation` of the same segment. */
  predicate Ordered(t: seq<ClientMsg>)
  {
    forall i | 0 <= i < |t| :: ChangeIsFollowed(t, i) && GlossIsPreceded(t, i)
  }

  /** Appending a block that is ordered on its own and does not open with a
      gloss keeps a trace ordered. */
  lemma {:induction false} OrderedConcat(a: seq<ClientMsg>, b: seq<ClientMsg>)
    requires Ordered(a) && Ordered(b)
    requires b != [] ==> !b[0].WordTranslation?
    ensures Ordered(a + b)
  {
    var t := a + b;
    forall i | 0 <= i < |t|
      ensures ChangeIsFollowed(t, i) && GlossIsPreceded(t, i)
    {
      if i < |a| {
        assert ChangeIsFollowed(a, i) && GlossIsPreceded(a, i);
        assert t[i] == a[i];
        if i + 1 < |a| { assert t[i + 1] == a[i + 1]; }
        if 0 < i { assert t[i - 1] == a[i - 1]; }
      } else {
        assert ChangeIsFollowed(b, i - |a|) && GlossIsPreceded(b, i - |a|);
        assert t[i] == b[i - |a|];
        if i + 1 < |t| { assert t[i + 1] == b[i - |a| + 1]; }
        if |a| < i { assert t[i - 1] == b[i - |a| - 1]; }
      }
    }
  }

  /** `after` is the client trace `before` once a block of messages has been
      sent: `sendToClient` delivers them while the client socket is open and
      drops them all otherwise. */
  predicate Delivered(after: seq<ClientMsg>, before: seq<ClientMsg>, clientOpen: bool, msgs: seq<ClientMsg>)
  {
    && (clientOpen ==> after == before + msgs)
    && (!clientOpen ==> after == before)
  }

  /** Delivering an ordered block that does not open with a gloss keeps the
      client trace ordered. */
  lemma DeliveredOrdered(after: seq<ClientMsg>, before: seq<ClientMsg>, clientOpen: bool, msgs: seq<ClientMsg>)
    requires Delivered(after, before, clientOpen, msgs)
    requires Ordered(before) && Ordered(msgs) && (msgs != [] ==> !msgs[0].WordTranslation?)
    ensures Ordered(after)
  {
    if clientOpen {
      OrderedConcat(before, msgs);
    }
  }
}
