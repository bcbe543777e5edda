/** The upload page's processing run: every silence-bounded chunk of the call
    is transcribed, labelled with a speaker role, analysed when the speaker
    sounds like the customer, and appended to a transcript that the run
    first clears. */
module Pipeline {
  import opened Wrappers
  import opened Text
  import opened Classifier

  /** The speaker label of a transcript entry ("Customer" / "Sales Agent"). */
  datatype Role = Customer | SalesAgent

  /** Phrases whose presence marks an utterance as the customer's. */
  const CustomerCues: seq<string> := ["i want", "price", "show me", "hello"]

  /** The lower-cased utterance contains one of the customer cues. */
  ghost predicate SoundsLikeCustomer(text: string) {
    exists w :: w in CustomerCues && IsSubstring(w, Lower(text))
  }

  /** The role heuristic: "Sales Agent" unless a customer cue occurs. */
  function RoleOf(text: string): (r: Role)
    ensures r == Customer <==> SoundsLikeCustomer(text)
    ensures r == SalesAgent <==> !SoundsLikeCustomer(text)
  {
    if MentionsAny(Lower(text), CustomerCues) then Customer else SalesAgent
  }

  /** The role heuristic does not depend on letter case. */
  lemma RoleOfIgnoresCase(text: string)
    ensures RoleOf(Lower(text)) == RoleOf(text)
  {
  }

  /** One transcript entry, `{"role", "text", "analysis"}`. */
  datatype Entry<R> = Entry(role: Role, text: string, analysis: Option<Reply<R>>)

  /** What happens to one chunk: the text recognised in it, or `None` when
      recognition raised, and the record the hosted model would return for
      it, or `None` when that call would fail. */
  datatype Chunk<R> = Chunk(recognised: Option<string>, answer: Option<R>)

  /** An entry agrees with the heuristic and the analysis rules: the role is
      the one the cues give, only customer entries are analysed, a rule-engine
      analysis is the one for the entry's text, and a model analysis only
      appears when the credential is usable. */
  ghost predicate Consistent<R>(e: Entry<R>, apiKey: Option<string>) {
    && (e.role == Customer <==> SoundsLikeCustomer(e.text))
    && (e.analysis.Some? <==> e.role == Customer)
    && (e.analysis.Some? && e.analysis.value.FromRules? ==>
          e.analysis.value.analysis == LegacyRuleEngine(e.text))
    && (e.analysis.Some? && e.analysis.value.FromModel? ==> KeyUsable(apiKey))
  }

  /** The entry appended for one recognised utterance. */
  function EntryFor<R>(text: string, apiKey: Option<string>, answer: Option<R>): (e: Entry<R>)
    ensures e.text == text
    ensures Consistent(e, apiKey)
    ensures e.analysis.Some? ==> e.analysis.value == AnalyzeWithGroq(text, apiKey, answer)
  {
    var role := RoleOf(text);
    var analysis := if role == Customer then Some(AnalyzeWithGroq(text, apiKey, answer)) else None;
    Entry(role, text, analysis)
  }

  /** The texts of the chunks whose recognition succeeded, in chunk order. */
  function Recognised<R>(chunks: seq<Chunk<R>>): (texts: seq<string>)
    ensures |texts| <= |chunks|
    ensures forall t :: t in texts ==> exists c :: c in chunks && c.recognised == Some(t)
  {
    if |chunks| == 0 then []
    else
      var last := chunks[|chunks| - 1];
      Recognised(chunks[..|chunks| - 1]) + (if last.recognised.Some? then [last.recognised.value] else [])
  }

  /** The entries a processing run appends, chunk by chunk. */
  function Transcribe<R>(chunks: seq<Chunk<R>>, apiKey: Option<string>): (t: seq<Entry<R>>)
    ensures |t| == |Recognised(chunks)|
    ensures forall i :: 0 <= i < |t| ==> t[i].text == Recognised(chunks)[i]
    ensures forall i :: 0 <= i < |t| ==> Consistent(t[i], apiKey)
  {
    if |chunks| == 0 then []
    else
      var last := chunks[|chunks| - 1];
      Transcribe(chunks[..|chunks| - 1], apiKey)
        + (match last.recognised
           case Some(text) => [EntryFor(text, apiKey, last.answer)]
           case None => [])
  }

  /** The transcript of a call split in two is the first half's transcript
      followed by the second half's: chunks are handled independently and
      their entries keep chunk order. */
  lemma {:induction false} TranscribeConcat<R>(a: seq<Chunk<R>>, b: seq<Chunk<R>>, apiKey: Option<string>)
    ensures Transcribe(a + b, apiKey) == Transcribe(a, apiKey) + Transcribe(b, apiKey)
    decreases |b|
  {
    if |b| == 0 {
      assert a + b == a;
    } else {
      var b' := b[..|b| - 1];
      assert (a + b)[..|a + b| - 1] == a + b';
      assert (a + b)[|a + b| - 1] == b[|b| - 1];
      TranscribeConcat(a, b', apiKey);
    }
  }

  /** The recognised texts of a call split in two are the first half's
      followed by the second half's. */
  lemma {:induction false} RecognisedConcat<R>(a: seq<Chunk<R>>, b: seq<Chunk<R>>)
    ensures Recognised(a + b) == Recognised(a) + Recognised(b)
    decreases |b|
  {
    if |b| == 0 {
      assert a + b == a;
    } else {
      var b' := b[..|b| - 1];
      assert (a + b)[..|a + b| - 1] == a + b';
      assert (a + b)[|a + b| - 1] == b[|b| - 1];
      RecognisedConcat(a, b');
    }
  }

  /** A recognised chunk's text sits in the recognised texts right after
      those of the chunks before it; an unrecognised chunk adds nothing. */
  lemma RecognisedChunk<R>(chunks: seq<Chunk<R>>, k: int)
    requires 0 <= k < |chunks|
    ensures chunks[k].recognised.None? ==> Recognised(chunks[..k + 1]) == Recognised(chunks[..k])
    ensures chunks[k].recognised.Some? ==>
      && |Recognised(chunks[..k])| < |Recognised(chunks)|
      && Recognised(chunks)[|Recognised(chunks[..k])|] == chunks[k].recognised.value
  {
    assert chunks[..k + 1][..k] == chunks[..k];
    assert chunks == chunks[..k + 1] + chunks[k + 1..];
    RecognisedConcat(chunks[..k + 1], chunks[k + 1..]);
  }

  /** Each recognised chunk contributes exactly the entry `EntryFor` builds
      from its own text and its own model answer, at the position right after
      the entries of the chunks before it. */
  lemma TranscribeChunk<R>(chunks: seq<Chunk<R>>, k: int, apiKey: Option<string>)
    requires 0 <= k < |chunks|
    ensures chunks[k].recognised.None? ==>
      Transcribe(chunks[..k + 1], apiKey) == Transcribe(chunks[..k], apiKey)
    ensures chunks[k].recognised.Some? ==>
      && |Recognised(chunks[..k])| < |Transcribe(chunks, apiKey)|
      && Transcribe(chunks, apiKey)[|Recognised(chunks[..k])|]
           == EntryFor(chunks[k].recognised.value, apiKey, chunks[k].answer)
  {
    assert chunks[..k + 1][..k] == chunks[..k];
    assert chunks == chunks[..k + 1] + chunks[k + 1..];
    TranscribeConcat(chunks[..k + 1], chunks[k + 1..], apiKey);
    RecognisedChunk(chunks, k);
  }

  /** When every chunk is recognised, the recognised texts are the chunks'
      texts, one per chunk. */
  lemma {:induction false} RecognisedAll<R>(chunks: seq<Chunk<R>>)
    requires forall i :: 0 <= i < |chunks| ==> chunks[i].recognised.Some?
    ensures |Recognised(chunks)| == |chunks|
    ensures forall i :: 0 <= i < |chunks| ==> Recognised(chunks)[i] == chunks[i].recognised.value
  {
    if |chunks| > 0 {
      var init := chunks[..|chunks| - 1];
      RecognisedAll(init);
      assert Recognised(chunks) == Recognised(init) + [chunks[|chunks| - 1].recognised.value];
    }
  }

  /** When every chunk is recognised there is exactly one entry per chunk,
      and entry i is the one built from chunk i's text and model answer. */
  lemma AllRecognised<R>(chunks: seq<Chunk<R>>, apiKey: Option<string>)
    requires forall i :: 0 <= i < |chunks| ==> chunks[i].recognised.Some?
    ensures |Transcribe(chunks, apiKey)| == |chunks|
    ensures forall i :: 0 <= i < |chunks| ==>
      Transcribe(chunks, apiKey)[i] == EntryFor(chunks[i].recognised.value, apiKey, chunks[i].answer)
  {
    RecognisedAll(chunks);
    forall i | 0 <= i < |chunks|
      ensures Transcribe(chunks, apiKey)[i] == EntryFor(chunks[i].recognised.value, apiKey, chunks[i].answer)
    {
      RecognisedAll(chunks[..i]);
      TranscribeChunk(chunks, i, apiKey);
    }
  }

  /** Without a usable credential the hosted model is never consulted: the
      transcript depends only on what was recognised. */
  lemma {:induction false} TranscribeIgnoresModelWithoutKey<R>(c1: seq<Chunk<R>>, c2: seq<Chunk<R>>, apiKey: Option<string>)
    requires !KeyUsable(apiKey)
    requires |c1| == |c2|
    requires forall i :: 0 <= i < |c1| ==> c1[i].recognised == c2[i].recognised
    ensures Transcribe(c1, apiKey) == Transcribe(c2, apiKey)
    decreases |c1|
  {
    if |c1| > 0 {
      TranscribeIgnoresModelWithoutKey(c1[..|c1| - 1], c2[..|c2| - 1], apiKey);
    }
  }

  /** The part of the session state the upload page reads and writes. The
      live page's entries have a shape of their own (`L`); the upload run only
      has to leave them alone. */
  datatype Session<L, R> = Session(
    liveTranscript: seq<L>,
    transcript: seq<Entry<R>>,
    activeKey: Option<string>)

  /** "Start Processing": clear the upload transcript, then append one entry
      per recognised chunk; the live transcript and the credential are left
      as they were. */
  method ProcessUpload<L, R>(session: Session<L, R>, chunks: seq<Chunk<R>>) returns (next: Session<L, R>)
    ensures next.transcript == Transcribe(chunks, session.activeKey)
    ensures next.liveTranscript == session.liveTranscript
    ensures next.activeKey == session.activeKey
  {
    next := session.(transcript := []);
    var apiKey := next.activeKey;
    for k := 0 to |chunks|
      invariant next == session.(transcript := Transcribe(chunks[..k], apiKey))
    {
      assert chunks[..k + 1][..k] == chunks[..k];
      match chunks[k].recognised {
        case Some(text) =>
          var role := RoleOf(text);
          var analysis := None;
          if role == Customer {
            analysis := Some(AnalyzeWithGroq(text, apiKey, chunks[k].answer));
          }
          next := next.(transcript := next.transcript + [Entry(role, text, analysis)]);
        case None =>
      }
    }
    assert chunks[..|chunks|] == chunks;
  }
}
