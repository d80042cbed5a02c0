/**
 * `summarize_transcript(transcript, max_words)`: one summarizer call per chunk,
 * the summaries joined with spaces, then cut to `max_words` words.
 * The summarization model itself is a parameter about which nothing is assumed.
 */
module Summarization {
  import opened Text
  import opened Chunking

  /** `min_length=40` of every call. */
  const MinLength := 40

  /** The arguments of one call `summarizer(chunk, max_length=..., min_length=..., do_sample=...)`. */
  datatype SummarizerCall = SummarizerCall(text: string, maxLength: int, minLength: int, doSample: bool)

  /** The summarization model: the `summary_text` it returns for a call. */
  type Model = SummarizerCall -> string

  /** The `text` of each call, in order. */
  function CallTexts(calls: seq<SummarizerCall>): (texts: seq<string>)
    ensures |texts| == |calls|
    ensures forall i :: 0 <= i < |calls| ==> texts[i] == calls[i].text
  {
    if calls == [] then [] else [calls[0].text] + CallTexts(calls[1..])
  }

  /** The calls `summarize_transcript` makes, in the order it makes them. */
  function SummarizerCalls(transcript: string, maxWords: int): (calls: seq<SummarizerCall>)
    ensures |calls| == (|Words(transcript)| + ChunkSize - 1) / ChunkSize
    ensures calls == [] <==> Words(transcript) == []
    ensures forall i :: 0 <= i < |calls| ==>
              calls[i].maxLength == 2 * maxWords && calls[i].minLength == MinLength && !calls[i].doSample
    ensures forall i :: 0 <= i < |calls| ==> 0 < |Words(calls[i].text)| <= ChunkSize
    ensures WordsOfAll(CallTexts(calls)) == Words(transcript)
  {
    var chunks := ChunkText(transcript);
    var calls := seq(|chunks|, i requires 0 <= i < |chunks| => SummarizerCall(chunks[i], maxWords * 2, MinLength, false));
    assert CallTexts(calls) == chunks;
    calls
  }

  /** The per-chunk summaries, in chunk order. */
  function Summaries(model: Model, transcript: string, maxWords: int): seq<string> {
    var calls := SummarizerCalls(transcript, maxWords);
    seq(|calls|, i requires 0 <= i < |calls| => model(calls[i]))
  }

  function Max0(n: int): int { if n >= 0 then n else 0 }

  /** Python's `s[:k]`: a negative `k` counts from the end. */
  function PyHead<T>(s: seq<T>, k: int): seq<T> {
    if k >= 0 then (if k <= |s| then s[..k] else s)
    else if |s| + k >= 0 then s[..|s| + k] else []
  }

  /**
   * The trimming step: when `joined` has more than `maxWords` words, its first
   * `maxWords` words re-joined with single spaces; otherwise `joined` untouched.
   */
  function Truncate(joined: string, maxWords: int): (r: string)
    ensures Words(r) <= Words(joined)
    ensures maxWords >= 0 ==> |Words(r)| == if |Words(joined)| <= maxWords then |Words(joined)| else maxWords
    ensures maxWords < 0 ==> |Words(r)| == if |Words(joined)| + maxWords >= 0 then |Words(joined)| + maxWords else 0
    ensures |Words(joined)| <= maxWords ==> r == joined
  {
    var ws := Words(joined);
    if |ws| > maxWords then
      var kept := PyHead(ws, maxWords);
      assert forall i :: 0 <= i < |kept| ==> kept[i] == ws[i];
      JoinWordsRoundTrip(kept);
      Join(kept)
    else joined
  }

  /** `summarize_transcript(transcript, max_words)` with `summarizer` given as `model`. */
  function SummarizeTranscript(model: Model, transcript: string, maxWords: int): (summary: string)
    ensures maxWords >= 0 ==> |Words(summary)| <= maxWords
    ensures maxWords >= 0 ==>
              |Words(summary)| == Min(|WordsOfAll(Summaries(model, transcript, maxWords))|, maxWords)
    ensures maxWords < 0 ==>
              |Words(summary)| == Max0(|WordsOfAll(Summaries(model, transcript, maxWords))| + maxWords)
    ensures Words(summary) <= WordsOfAll(Summaries(model, transcript, maxWords))
    ensures |WordsOfAll(Summaries(model, transcript, maxWords))| <= maxWords ==>
              summary == Join(Summaries(model, transcript, maxWords))
    ensures Words(transcript) == [] ==> summary == ""
  {
    var summaries := Summaries(model, transcript, maxWords);
    WordsOfJoin(summaries);
    Truncate(Join(summaries), maxWords)
  }

  /**
   * Each summary comes from exactly one call, the `i`-th summary from the
   * call on the `i`-th chunk, with `max_length = 2 * max_words`; that chunk
   * is `" ".join(words[i:i+300])` for the `i = 300*k` of the chunking loop.
   */
  lemma SummariesFollowChunks(model: Model, transcript: string, maxWords: int)
    ensures |Summaries(model, transcript, maxWords)| == |ChunkText(transcript)|
    ensures forall i :: 0 <= i < |ChunkText(transcript)| ==>
              Summaries(model, transcript, maxWords)[i]
                == model(SummarizerCall(ChunkText(transcript)[i], 2 * maxWords, MinLength, false))
    ensures forall i :: 0 <= i < |Summaries(model, transcript, maxWords)| ==>
              i * ChunkSize < |Words(transcript)| &&
              Summaries(model, transcript, maxWords)[i]
                == model(SummarizerCall(Join(Words(transcript)[i * ChunkSize..Min(i * ChunkSize + ChunkSize, |Words(transcript)|)]),
                                        2 * maxWords, MinLength, false))
  {
    var summaries := Summaries(model, transcript, maxWords);
    var chunks := ChunkText(transcript);
    assert |summaries| == |chunks|;
    forall i | 0 <= i < |summaries|
      ensures i * ChunkSize < |Words(transcript)|
      ensures summaries[i]
                == model(SummarizerCall(Join(Words(transcript)[i * ChunkSize..Min(i * ChunkSize + ChunkSize, |Words(transcript)|)]),
                                        2 * maxWords, MinLength, false))
    {
      ChunkIsJoinedSlice(transcript, i);
      assert summaries[i] == model(SummarizerCall(chunks[i], 2 * maxWords, MinLength, false));
    }
  }
}
