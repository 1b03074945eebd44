/** The browser text-to-speech service: cutting a reply into chunks the
    speech engine accepts, choosing a Persian voice, and the module-level
    queue that speaks the chunks one after another. The speech engine is
    observed through the effects the service asks of it. */
module Tts {
  import opened Wrappers
  import opened Js

  // ---------------------------------------------------------------------
  // Sentences

  /** The sentence terminators of the splitting pattern. */
  predicate IsTerminator(c: char)
  {
    c == '.' || c == '!' || c == '?'
  }

  /** The length of the longest prefix whose characters are terminators
      (`stops`) or are not (`!stops`). */
  function LeadingRun(s: string, stops: bool): (n: nat)
    ensures n <= |s|
    ensures forall i :: 0 <= i < n ==> IsTerminator(s[i]) == stops
    ensures n < |s| ==> IsTerminator(s[n]) != stops
  {
    if s != [] && IsTerminator(s[0]) == stops then 1 + LeadingRun(s[1..], stops) else 0
  }

  /** A sentence in the sense of the pattern `[^.!?]+[.!?]*`: a non-empty
      run of other characters followed by terminators only. */
  predicate IsSentence(s: string)
  {
    var n := LeadingRun(s, false);
    n > 0 && forall i :: n <= i < |s| ==> IsTerminator(s[i])
  }

  /** The matches of the pattern in a string that does not start with a
      terminator: each takes the longest run of other characters and the
      terminators after it. */
  function SentencesFrom(s: string): (ss: seq<string>)
    requires s == [] || !IsTerminator(s[0])
    decreases |s|
  {
    if s == [] then []
    else
      var n := LeadingRun(s, false);
      var m := LeadingRun(s[n..], true);
      [s[..n + m]] + SentencesFrom(s[n + m..])
  }

  /** `text.match(/[^.!?]+[.!?]*|[^.!?\n]+(?:\n|$)/g) || []`. Terminators
      at the very start of the text match neither alternative and are
      skipped; every later terminator is taken by the sentence before it
      (the second alternative never matches where the first fails). */
  function Sentences(text: string): seq<string>
  {
    SentencesFrom(text[LeadingRun(text, true)..])
  }

  /** The first match is a sentence, and what follows it starts with a
      character that is not a terminator. */
  lemma HeadSentence(s: string)
    requires s != [] && !IsTerminator(s[0])
    ensures var n := LeadingRun(s, false); var m := LeadingRun(s[n..], true);
      IsSentence(s[..n + m]) && (s[n + m..] == [] || !IsTerminator(s[n + m..][0]))
  {
    var n := LeadingRun(s, false);
    var m := LeadingRun(s[n..], true);
    var head := s[..n + m];
    LeadingRunOfPrefix(s, n + m, false);
    forall i | n <= i < |head| ensures IsTerminator(head[i]) {
      assert head[i] == s[n..][i - n];
    }
    if n + m < |s| {
      assert s[n + m..][0] == s[n..][m];
    }
  }

  lemma {:induction false} SentencesFromCover(s: string)
    requires s == [] || !IsTerminator(s[0])
    ensures Concat(SentencesFrom(s)) == s
    ensures forall k :: 0 <= k < |SentencesFrom(s)| ==> IsSentence(SentencesFrom(s)[k])
    decreases |s|
  {
    if s != [] {
      var n := LeadingRun(s, false);
      var m := LeadingRun(s[n..], true);
      var head := s[..n + m];
      var rest := s[n + m..];
      HeadSentence(s);
      SentencesFromCover(rest);
      var ss := SentencesFrom(s);
      assert ss == [head] + SentencesFrom(rest);
      assert ss[0] == head && ss[1..] == SentencesFrom(rest);
      assert Concat(ss) == head + Concat(SentencesFrom(rest));
      assert s == head + rest;
    }
  }

  /** A prefix at least as long as the run has the same run. */
  lemma {:induction false} LeadingRunOfPrefix(s: string, k: nat, stops: bool)
    requires LeadingRun(s, stops) <= k <= |s|
    ensures LeadingRun(s[..k], stops) == LeadingRun(s, stops)
    decreases k
  {
    if LeadingRun(s, stops) > 0 {
      assert s[..k][1..] == s[1..][..k - 1];
      LeadingRunOfPrefix(s[1..], k - 1, stops);
    }
  }

  /** No text is lost in sentence splitting except the terminators before
      the first sentence, and every piece has the shape of a sentence. */
  lemma SentencesCoverText(text: string)
    ensures Concat(Sentences(text)) == text[LeadingRun(text, true)..]
    ensures forall k :: 0 <= k < |Sentences(text)| ==> IsSentence(Sentences(text)[k])
  {
    SentencesFromCover(text[LeadingRun(text, true)..]);
  }

  // ---------------------------------------------------------------------
  // Chunks

  const MaxChunkLength: nat := 200

  /** The word-packing loop for an over-long sentence, from the chunk being
      built: a word that would take the chunk past the limit closes it
      (trimmed) and starts the next one; what is left at the end is kept
      when it is not blank. */
  function PackWords(words: seq<string>, current: string): seq<string>
    decreases |words|
  {
    if words == [] then (if Trim(current) != "" then [Trim(current)] else [])
    else if Utf16Length(current + " " + words[0]) > MaxChunkLength then [Trim(current)] + PackWords(words[1..], words[0])
    else PackWords(words[1..], current + " " + words[0])
  }

  /** The chunks one sentence contributes before filtering. */
  function SentenceChunks(sentence: string): seq<string>
  {
    if Utf16Length(sentence) <= MaxChunkLength then [Trim(sentence)] else PackWords(Split(sentence, ' '), "")
  }

  /** The chunks of a list of sentences, in order. */
  function AllSentenceChunks(ss: seq<string>): seq<string>
  {
    if ss == [] then [] else AllSentenceChunks(ss[..|ss| - 1]) + SentenceChunks(ss[|ss| - 1])
  }

  lemma AllSentenceChunksSnoc(ss: seq<string>, k: nat)
    requires k < |ss|
    ensures AllSentenceChunks(ss[..k + 1]) == AllSentenceChunks(ss[..k]) + SentenceChunks(ss[k])
  {
    assert ss[..k + 1][..k] == ss[..k];
  }

  /** `chunks.filter(c => c)`. */
  function NonEmpty(cs: seq<string>): (r: seq<string>)
    ensures forall k :: 0 <= k < |r| ==> r[k] != ""
    ensures forall c :: c in r <==> c in cs && c != ""
  {
    if cs == [] then [] else NonEmpty(cs[..|cs| - 1]) + (if cs[|cs| - 1] != "" then [cs[|cs| - 1]] else [])
  }

  /** Dropping the empty chunks distributes over concatenation, so the
      kept chunks stay in their order. */
  lemma {:induction false} NonEmptyAppend(a: seq<string>, b: seq<string>)
    ensures NonEmpty(a + b) == NonEmpty(a) + NonEmpty(b)
    decreases |b|
  {
    if b == [] {
      assert a + b == a;
    } else {
      var init := b[..|b| - 1];
      NonEmptyAppend(a, init);
      assert (a + b)[..|a + b| - 1] == a + init;
      assert (a + b)[|a + b| - 1] == b[|b| - 1];
    }
  }

  /** A list without empty chunks is kept whole. */
  lemma {:induction false} NonEmptyKeepsFull(cs: seq<string>)
    requires forall k :: 0 <= k < |cs| ==> cs[k] != ""
    ensures NonEmpty(cs) == cs
  {
    if cs != [] {
      NonEmptyKeepsFull(cs[..|cs| - 1]);
      assert cs[..|cs| - 1] + [cs[|cs| - 1]] == cs;
    }
  }

  /** What `chunkText` returns. */
  function Chunks(text: string): seq<string>
  {
    if Utf16Length(text) <= MaxChunkLength then [text] else NonEmpty(AllSentenceChunks(Sentences(text)))
  }

  /** The word loop of `chunkText` for a sentence over the limit. */
  method PackSentence(sentence: string) returns (pushed: seq<string>)
    ensures pushed == PackWords(Split(sentence, ' '), "")
  {
    pushed := [];
    var current := "";
    var words := Split(sentence, ' ');
    for w := 0 to |words|
      invariant pushed + PackWords(words[w..], current) == PackWords(words, "")
    {
      assert words[w..][1..] == words[w + 1..];
      if Utf16Length(current + " " + words[w]) > MaxChunkLength {
        pushed := pushed + [Trim(current)];
        current := words[w];
      } else {
        current := current + " " + words[w];
      }
    }
    assert words[|words|..] == [];
    if |Trim(current)| > 0 {
      pushed := pushed + [Trim(current)];
    }
  }

  /** The final `filter(c => c)`. */
  method DropEmpty(cs: seq<string>) returns (kept: seq<string>)
    ensures kept == NonEmpty(cs)
  {
    kept := [];
    for i := 0 to |cs|
      invariant kept == NonEmpty(cs[..i])
    {
      assert cs[..i + 1][..i] == cs[..i];
      if cs[i] != "" {
        kept := kept + [cs[i]];
      }
    }
    assert cs[..|cs|] == cs;
  }

  /** `chunkText`: the sentence loop, with the word loop for sentences
      that are too long. */
  method ChunkText(text: string) returns (chunks: seq<string>)
    ensures chunks == Chunks(text)
  {
    if Utf16Length(text) <= MaxChunkLength {
      return [text];
    }
    var sentences := Sentences(text);
    var pushed: seq<string> := [];
    for k := 0 to |sentences|
      invariant pushed == AllSentenceChunks(sentences[..k])
    {
      var sentence := sentences[k];
      var piece;
      if Utf16Length(sentence) <= MaxChunkLength {
        piece := [Trim(sentence)];
      } else {
        piece := PackSentence(sentence);
      }
      AllSentenceChunksSnoc(sentences, k);
      pushed := pushed + piece;
    }
    assert sentences[..|sentences|] == sentences;
    chunks := DropEmpty(pushed);
  }

  /** A chunk that is within the limit, or a single word with no space to
      break at. */
  predicate Fits(c: string)
  {
    Utf16Length(c) <= MaxChunkLength || ' ' !in c
  }

  /** The string has no whitespace at either end. */
  predicate IsTrimmed(c: string)
  {
    c != [] ==> !IsWhitespace(c[0]) && !IsWhitespace(c[|c| - 1])
  }

  /** Trimming adds no character. */
  lemma TrimKeepsOut(s: string, c: char)
    requires c !in s
    ensures c !in Trim(s)
  {
    TrimIsSlice(s);
    var i, k :| 0 <= i <= k <= |s| && Trim(s) == s[i..k];
  }

  lemma TrimFits(s: string)
    requires Fits(s)
    ensures Fits(Trim(s)) && IsTrimmed(Trim(s))
  {
    TrimHasNoOuterWhitespace(s);
    TrimIsSlice(s);
    var i, k :| 0 <= i <= k <= |s| && Trim(s) == s[i..k];
    Utf16LengthSlice(s, i, k);
    if Utf16Length(Trim(s)) > MaxChunkLength {
      TrimKeepsOut(s, ' ');
    }
  }

  lemma {:induction false} PackWordsFit(words: seq<string>, current: string)
    requires forall k :: 0 <= k < |words| ==> ' ' !in words[k]
    requires Fits(current)
    ensures forall c :: c in PackWords(words, current) ==> Fits(c) && IsTrimmed(c)
    decreases |words|
  {
    TrimFits(current);
    if words != [] {
      if Utf16Length(current + " " + words[0]) > MaxChunkLength {
        PackWordsFit(words[1..], words[0]);
      } else {
        PackWordsFit(words[1..], current + " " + words[0]);
      }
    }
  }

  lemma {:induction false} AllSentenceChunksFit(ss: seq<string>)
    ensures forall c :: c in AllSentenceChunks(ss) ==> Fits(c) && IsTrimmed(c)
  {
    if ss != [] {
      AllSentenceChunksFit(ss[..|ss| - 1]);
      var s := ss[|ss| - 1];
      if Utf16Length(s) <= MaxChunkLength {
        TrimFits(s);
      } else {
        SplitJoin(s, ' ');
        PackWordsFit(Split(s, ' '), "");
      }
    }
  }

  /** What chunking promises: a text within the limit is spoken as it is;
      a longer one is cut into non-empty trimmed chunks, each within the
      limit unless it is one word too long to break. */
  lemma ChunksFit(text: string)
    ensures Utf16Length(text) <= MaxChunkLength ==> Chunks(text) == [text]
    ensures forall c :: c in Chunks(text) ==> Fits(c)
    ensures Utf16Length(text) > MaxChunkLength ==> forall c :: c in Chunks(text) ==> c != "" && IsTrimmed(c)
  {
    if Utf16Length(text) > MaxChunkLength {
      AllSentenceChunksFit(Sentences(text));
    }
  }

  /** When every sentence is within the limit, the chunks are the
      sentences, trimmed, blank ones dropped. */
  lemma ShortSentenceIsOneChunk(s: string)
    requires Utf16Length(s) <= MaxChunkLength
    ensures SentenceChunks(s) == [Trim(s)]
  {
  }

  lemma {:induction false} ShortSentencesAreChunks(ss: seq<string>)
    requires forall k :: 0 <= k < |ss| ==> Utf16Length(ss[k]) <= MaxChunkLength
    ensures |AllSentenceChunks(ss)| == |ss|
    ensures forall k :: 0 <= k < |ss| ==> AllSentenceChunks(ss)[k] == Trim(ss[k])
  {
    if ss != [] {
      var init := ss[..|ss| - 1];
      ShortSentencesAreChunks(init);
      ShortSentenceIsOneChunk(ss[|ss| - 1]);
      var pre := AllSentenceChunks(init);
      assert AllSentenceChunks(ss) == pre + [Trim(ss[|ss| - 1])];
      forall k | 0 <= k < |ss| - 1 ensures AllSentenceChunks(ss)[k] == Trim(ss[k]) {
        assert AllSentenceChunks(ss)[k] == pre[k];
        assert init[k] == ss[k];
      }
    }
  }

  // ---------------------------------------------------------------------
  // Voices

  datatype Voice = Voice(name: string, lang: string)

  /** The index of the first voice whose language is exactly `lang`, or
      the length of the list when there is none. */
  function IndexOfLang(voices: seq<Voice>, lang: string): (i: nat)
    ensures i <= |voices|
    ensures i < |voices| ==> voices[i].lang == lang
    ensures forall j :: 0 <= j < i ==> voices[j].lang != lang
  {
    if voices == [] then 0
    else if voices[0].lang == lang then 0
    else 1 + IndexOfLang(voices[1..], lang)
  }

  /** The index of the first voice whose language starts with `prefix`. */
  function IndexOfLangPrefix(voices: seq<Voice>, prefix: string): (i: nat)
    ensures i <= |voices|
    ensures i < |voices| ==> StartsWith(voices[i].lang, prefix)
    ensures forall j :: 0 <= j < i ==> !StartsWith(voices[j].lang, prefix)
  {
    if voices == [] then 0
    else if StartsWith(voices[0].lang, prefix) then 0
    else 1 + IndexOfLangPrefix(voices[1..], prefix)
  }

  /** The voice `getPersianVoice` settles on once voices are listed: the
      first `fa-IR` voice, else the first `fa-*` voice, else none. */
  function FindPersianVoice(voices: seq<Voice>): (r: Option<Voice>)
  {
    var i := IndexOfLang(voices, "fa-IR");
    if i < |voices| then Some(voices[i])
    else
      var k := IndexOfLangPrefix(voices, "fa-");
      if k < |voices| then Some(voices[k]) else None
  }

  /** The chosen voice is a Persian voice from the list; there is none
      exactly when no listed voice is Persian; an exact `fa-IR` voice is
      preferred, and among those the first is taken; without one, the
      first `fa-*` voice is taken. */
  lemma FindPersianVoiceChoice(voices: seq<Voice>)
    ensures var r := FindPersianVoice(voices);
      && (r.Some? ==> r.value in voices && StartsWith(r.value.lang, "fa-"))
      && (r.None? <==> forall j :: 0 <= j < |voices| ==> !StartsWith(voices[j].lang, "fa-"))
      && (forall j :: 0 <= j < |voices| && voices[j].lang == "fa-IR" ==>
            r.Some? && r.value.lang == "fa-IR" && exists i :: 0 <= i <= j && r.value == voices[i])
      && ((forall j :: 0 <= j < |voices| ==> voices[j].lang != "fa-IR") && r.Some? ==>
            r.value == voices[IndexOfLangPrefix(voices, "fa-")])
  {
    var i := IndexOfLang(voices, "fa-IR");
    if i < |voices| {
      assert voices[i].lang[..3] == "fa-";
    } else {
      forall j | 0 <= j < |voices| && StartsWith(voices[j].lang, "fa-")
        ensures FindPersianVoice(voices).Some?
      {
        assert IndexOfLangPrefix(voices, "fa-") <= j;
      }
    }
  }

  /** `/[؀-ۿ]/.test(text)`: a character of the Arabic block. */
  predicate HasPersianChars(text: string)
  {
    exists i :: 0 <= i < |text| && '\U{600}' <= text[i] <= '\U{6FF}'
  }

  // ---------------------------------------------------------------------
  // The speech queue

  datatype Utterance = Utterance(text: string, lang: string, rate: real, pitch: real, voice: Option<Voice>)

  /** The utterances built from the chunks: Persian, normal rate and
      pitch, with the loaded voice when there is one. */
  function Utterances(chunks: seq<string>, voice: Option<Voice>): (us: seq<Utterance>)
    ensures |us| == |chunks|
    ensures forall k :: 0 <= k < |us| ==> us[k] == Utterance(chunks[k], "fa-IR", 1.0, 1.0, voice)
  {
    if chunks == [] then [] else [Utterance(chunks[0], "fa-IR", 1.0, 1.0, voice)] + Utterances(chunks[1..], voice)
  }

  /** Which of the caller's callbacks were given. */
  datatype Callbacks = Callbacks(onStart: bool, onEnd: bool, onError: bool)

  const NoCallbacks := Callbacks(false, false, false)

  /** What the service asks of the engine and of its caller. */
  datatype Effect = Spoke(utterance: Utterance) | Cancelled | Started | Ended | Failed(message: string)

  const UnsupportedMessage: string := "متاسفانه مرورگر شما از قابلیت گفتار پشتیبانی نمی‌کند."
  const NoPersianVoiceMessage: string := "صدای فارسی برای تولید گفتار در مرورگر شما یافت نشد."
  const SynthesisFailedMessage: string := "خطایی در موتور تولید گفتار مرورگر شما رخ داد. لطفاً صفحه را رفرش کرده و دوباره امتحان کنید."
  const EngineErrorPrefix: string := "An error occurred during speech synthesis: "

  /** The message an utterance's `onerror` reports for an engine error
      code. */
  function UtteranceErrorMessage(code: string): (m: string)
    ensures code == "synthesis-failed" ==> m == SynthesisFailedMessage
    ensures code != "synthesis-failed" ==> m == EngineErrorPrefix + code
  {
    if code == "synthesis-failed" then SynthesisFailedMessage else EngineErrorPrefix + code
  }

  /** Distinct error codes other than `synthesis-failed` give distinct
      messages, each of which names its code. */
  lemma UtteranceErrorMessageNamesCode(a: string, b: string)
    requires a != "synthesis-failed" && b != "synthesis-failed"
    ensures EndsWith(UtteranceErrorMessage(a), a)
    ensures a != b ==> UtteranceErrorMessage(a) != UtteranceErrorMessage(b)
  {
    var ma := UtteranceErrorMessage(a);
    assert ma[|ma| - |a|..] == a;
  }

  function IfFired(given: bool, e: Effect): seq<Effect>
  {
    if given then [e] else []
  }

  /** The service's module state: the queue of utterances still to be
      spoken, the one being spoken, the caller's callbacks, and the cached
      voice lookup. `supported` is whether the browser has speech
      synthesis; `effects` is what the service has done so far. */
  class SpeechService {
    const supported: bool
    var queue: seq<Utterance>
    var current: Option<Utterance>
    var callbacks: Callbacks
    var voiceCache: Option<Option<Voice>>
    var effects: seq<Effect>

    /** Nothing waits while nothing is spoken, and nothing is spoken
        without an engine. */
    predicate Valid()
      reads this
    {
      && (current.None? ==> queue == [])
      && (!supported ==> current.None?)
    }

    /** The utterances not yet finished, the current one first. */
    function Pending(): seq<Utterance>
      reads this
    {
      (if current.Some? then [current.value] else []) + queue
    }

    constructor(supported: bool)
      ensures this.supported == supported
      ensures queue == [] && current == None && callbacks == NoCallbacks
      ensures voiceCache == None && effects == []
      ensures Valid()
    {
      this.supported := supported;
      queue := [];
      current := None;
      callbacks := NoCallbacks;
      voiceCache := None;
      effects := [];
    }

    /** The voice the lookup settles on: the cached one, or the one found
        among `available` (the voices listed when loading finishes; empty
        when the 1.5 s wait runs out first). */
    function ResolvedVoice(available: seq<Voice>): Option<Voice>
      reads this
    {
      if voiceCache.Some? then voiceCache.value
      else if supported then FindPersianVoice(available)
      else None
    }

    /** `getPersianVoice`: the first call settles the lookup for good. */
    method PersianVoice(available: seq<Voice>) returns (voice: Option<Voice>)
      modifies this
      ensures voice == old(ResolvedVoice(available))
      ensures voiceCache == Some(voice)
      ensures queue == old(queue) && current == old(current) && callbacks == old(callbacks) && effects == old(effects)
    {
      if voiceCache.Some? {
        voice := voiceCache.value;
      } else if !supported {
        voice := None;
        voiceCache := Some(voice);
      } else {
        voice := FindPersianVoice(available);
        voiceCache := Some(voice);
      }
    }

    /** `speakNextChunk`: hands the next utterance to the engine, or, with
        the queue empty, reports the end. */
    method SpeakNextChunk()
      requires supported
      modifies this
      ensures Valid()
      ensures old(queue) == [] ==> current == None && queue == [] && effects == old(effects) + IfFired(callbacks.onEnd, Ended)
      ensures old(queue) != [] ==> current == Some(old(queue)[0]) && queue == old(queue)[1..]
                                   && effects == old(effects) + [Spoke(old(queue)[0])]
      ensures callbacks == old(callbacks) && voiceCache == old(voiceCache)
    {
      if queue == [] {
        effects := effects + IfFired(callbacks.onEnd, Ended);
        current := None;
        return;
      }
      current := Some(queue[0]);
      queue := queue[1..];
      effects := effects + [Spoke(current.value)];
    }

    /** `stop`: empties the queue, forgets the callbacks, detaches the
        current utterance and cancels the engine; without an engine it does
        nothing. */
    method Stop()
      requires Valid()
      modifies this
      ensures Valid()
      ensures supported ==> queue == [] && current == None && callbacks == NoCallbacks
                            && effects == old(effects) + [Cancelled]
      ensures !supported ==> queue == old(queue) && current == old(current) && callbacks == old(callbacks)
                             && effects == old(effects)
      ensures voiceCache == old(voiceCache)
    {
      if supported {
        queue := [];
        callbacks := NoCallbacks;
        current := None;
        effects := effects + [Cancelled];
      }
    }

    /** `speak` up to its `await getPersianVoice()`: it stops what is
        playing; without an engine it reports that; blank text reports the
        end; otherwise the caller's callbacks are stored and `waiting` says
        the call now waits for the voice. */
    method BeginSpeak(text: string, given: Callbacks) returns (waiting: bool)
      requires Valid()
      modifies this
      ensures Valid() && voiceCache == old(voiceCache)
      ensures waiting <==> supported && !IsBlank(text)
      ensures !supported ==> queue == old(queue) && current == old(current) && callbacks == old(callbacks)
                             && effects == old(effects) + IfFired(given.onError, Failed(UnsupportedMessage))
      ensures supported ==> Pending() == []
      ensures supported && IsBlank(text) ==>
        callbacks == NoCallbacks && effects == old(effects) + [Cancelled] + IfFired(given.onEnd, Ended)
      ensures waiting ==> callbacks == given && effects == old(effects) + [Cancelled]
    {
      Stop();
      waiting := false;
      if !supported {
        effects := effects + IfFired(given.onError, Failed(UnsupportedMessage));
        return;
      }
      if IsBlank(text) {
        effects := effects + IfFired(given.onEnd, Ended);
        return;
      }
      callbacks := given;
      waiting := true;
    }

    /** `speak` after the voice has loaded. Other calls may have run during
        the wait, so this step reads the module state as it is now: the
        missing-voice error goes to the caller's own `onError`, but the new
        queue replaces whatever is queued, and the start or end is reported
        through the callbacks stored now. */
    method ResumeSpeak(text: string, given: Callbacks, voice: Option<Voice>)
      requires Valid() && supported
      modifies this
      ensures Valid() && callbacks == old(callbacks) && voiceCache == old(voiceCache)
      ensures HasPersianChars(text) && voice.None? ==>
        queue == old(queue) && current == old(current)
        && effects == old(effects) + IfFired(given.onError, Failed(NoPersianVoiceMessage))
      ensures !(HasPersianChars(text) && voice.None?) ==>
        var us := Utterances(Chunks(text), voice);
        && (us == [] ==> queue == [] && current == old(current)
                         && effects == old(effects) + IfFired(callbacks.onEnd, Ended))
        && (us != [] ==> Pending() == us
                         && effects == old(effects) + IfFired(callbacks.onStart, Started) + [Spoke(us[0])])
    {
      if HasPersianChars(text) && voice.None? {
        effects := effects + IfFired(given.onError, Failed(NoPersianVoiceMessage));
        return;
      }
      var chunks := ChunkText(text);
      StartQueue(Utterances(chunks, voice));
    }

    /** `speak(text, options)` when nothing else runs while it waits for
        the voice: `given` says which callbacks the caller passed,
        `available` which voices the browser lists. */
    method Speak(text: string, given: Callbacks, available: seq<Voice>)
      requires Valid()
      modifies this
      ensures Valid()
      ensures !supported ==> queue == old(queue) && current == old(current) && callbacks == old(callbacks)
                             && voiceCache == old(voiceCache)
                             && effects == old(effects) + IfFired(given.onError, Failed(UnsupportedMessage))
      ensures supported && IsBlank(text) ==>
        Pending() == [] && callbacks == NoCallbacks && voiceCache == old(voiceCache)
        && effects == old(effects) + [Cancelled] + IfFired(given.onEnd, Ended)
      ensures supported && !IsBlank(text) ==> callbacks == given && voiceCache == Some(old(ResolvedVoice(available)))
      ensures supported && !IsBlank(text) && HasPersianChars(text) && old(ResolvedVoice(available)).None? ==>
        Pending() == [] && effects == old(effects) + [Cancelled] + IfFired(given.onError, Failed(NoPersianVoiceMessage))
      ensures supported && !IsBlank(text) && !(HasPersianChars(text) && old(ResolvedVoice(available)).None?) ==>
        var us := Utterances(Chunks(text), old(ResolvedVoice(available)));
        && Pending() == us
        && (us == [] ==> effects == old(effects) + [Cancelled] + IfFired(given.onEnd, Ended))
        && (us != [] ==> effects == old(effects) + [Cancelled] + IfFired(given.onStart, Started) + [Spoke(us[0])])
    {
      var waiting := BeginSpeak(text, given);
      if waiting {
        var voice := PersianVoice(available);
        ResumeSpeak(text, given, voice);
      }
    }

    /** A `stop` while `speak` waits for the voice does not cancel it: the
        chunks are queued and the first is spoken after all, while the
        caller hears of neither the start nor the end. */
    method StopDuringVoiceWait(text: string, given: Callbacks, available: seq<Voice>)
      requires Valid() && supported && !IsBlank(text) && !HasPersianChars(text)
      modifies this
      ensures var us := Utterances(Chunks(text), old(ResolvedVoice(available)));
        && Pending() == us && callbacks == NoCallbacks
        && effects == old(effects) + [Cancelled, Cancelled] + (if us == [] then [] else [Spoke(us[0])])
    {
      var waiting := BeginSpeak(text, given);
      Stop();
      var voice := PersianVoice(available);
      ResumeSpeak(text, given, voice);
    }

    /** The end of `speak`: the chunks' utterances replace the queue; the
        start is reported and the first is spoken, or, with nothing to
        speak, the end is reported. */
    method StartQueue(us: seq<Utterance>)
      requires Valid() && supported
      modifies this
      ensures Valid()
      ensures callbacks == old(callbacks) && voiceCache == old(voiceCache)
      ensures us == [] ==> queue == [] && current == old(current) && effects == old(effects) + IfFired(callbacks.onEnd, Ended)
      ensures us != [] ==> Pending() == us && effects == old(effects) + IfFired(callbacks.onStart, Started) + [Spoke(us[0])]
    {
      queue := us;
      if queue != [] {
        effects := effects + IfFired(callbacks.onStart, Started);
        SpeakNextChunk();
      } else {
        effects := effects + IfFired(callbacks.onEnd, Ended);
      }
    }

    /** The engine finished the current utterance: its `onend` speaks the
        next one. After `stop` no handler is attached and nothing happens. */
    method OnUtteranceEnd()
      requires Valid()
      modifies this
      ensures Valid()
      ensures old(current).None? ==> queue == old(queue) && current == old(current) && effects == old(effects)
      ensures old(current).Some? ==> Pending() == old(Pending())[1..]
      ensures old(current).Some? && old(queue) == [] ==> effects == old(effects) + IfFired(callbacks.onEnd, Ended)
      ensures old(current).Some? && old(queue) != [] ==> effects == old(effects) + [Spoke(old(queue)[0])]
      ensures callbacks == old(callbacks) && voiceCache == old(voiceCache)
    {
      if current.Some? {
        SpeakNextChunk();
      }
    }

    /** The engine failed on the current utterance: its `onerror` reports
        the message and stops everything, so the rest is never spoken and no
        end is reported. */
    method OnUtteranceError(code: string)
      requires Valid()
      modifies this
      ensures Valid()
      ensures old(current).None? ==>
        queue == old(queue) && current == old(current) && callbacks == old(callbacks) && effects == old(effects)
      ensures old(current).Some? ==>
        Pending() == [] && callbacks == NoCallbacks
        && effects == old(effects) + IfFired(old(callbacks).onError, Failed(UtteranceErrorMessage(code))) + [Cancelled]
      ensures voiceCache == old(voiceCache)
    {
      if current.Some? {
        effects := effects + IfFired(callbacks.onError, Failed(UtteranceErrorMessage(code)));
        Stop();
      }
    }
  }
}
