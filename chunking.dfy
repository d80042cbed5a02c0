/**
 * `chunk_text(text, chunk_size=300)`: the words of `text`, cut into consecutive
 * windows of 300 words, each window re-joined with single spaces.
 */
module Chunking {
  import opened Text

  /** The default window, `chunk_size=300`; every caller uses it. */
  const ChunkSize := 300

  function Min(a: int, b: int): int { if a <= b then a else b }

  /**
   * The windows of `ws`: all of 300 words except the last, which holds the
   * remaining 1 to 300 words; nothing is dropped, repeated or reordered.
   */
  function ChunkWords(ws: seq<string>): (cs: seq<seq<string>>)
    ensures |cs| == (|ws| + ChunkSize - 1) / ChunkSize
    ensures forall k :: 0 <= k < |cs| ==> 0 < |cs[k]| <= ChunkSize
    ensures forall k :: 0 <= k < |cs| - 1 ==> |cs[k]| == ChunkSize
    ensures Flatten(cs) == ws
    decreases |ws|
  {
    if ws == [] then []
    else if |ws| <= ChunkSize then
      [ws]
    else
      var rest := ChunkWords(ws[ChunkSize..]);
      assert ws == ws[..ChunkSize] + ws[ChunkSize..];
      [ws[..ChunkSize]] + rest
  }

  /**
   * Window `k` is the slice `words[i:i+300]`, `i = 300*k`, of the loop
   * `for i in range(0, len(words), 300)`.
   */
  lemma {:induction false} ChunksAreRangeSlices(ws: seq<string>, k: nat)
    requires k < |ChunkWords(ws)|
    ensures k * ChunkSize < |ws|
    ensures ChunkWords(ws)[k] == ws[k * ChunkSize..Min(k * ChunkSize + ChunkSize, |ws|)]
  {
    ChunkIsFirstOfRest(ws, k);
    var rest := ws[k * ChunkSize..];
    var n := Min(ChunkSize, |rest|);
    FirstChunk(rest);
    assert k * ChunkSize + n == Min(k * ChunkSize + ChunkSize, |ws|);
    TakeOfDrop(ws, k * ChunkSize, n);
  }

  /** The first `n` elements after `a` are the slice from `a` to `a + n`. */
  lemma TakeOfDrop<T>(s: seq<T>, a: nat, n: nat)
    requires a + n <= |s|
    ensures s[a..][..n] == s[a..a + n]
  {
  }

  /** The first window is the first 300 words, or all of them when there are fewer. */
  lemma FirstChunk(ws: seq<string>)
    requires ws != []
    ensures ChunkWords(ws)[0] == ws[..Min(ChunkSize, |ws|)]
  {
    if |ws| <= ChunkSize {
      assert ws[..|ws|] == ws;
    }
  }

  /** Window `k` is the first window of what is left after `k` windows. */
  lemma {:induction false} ChunkIsFirstOfRest(ws: seq<string>, k: nat)
    requires k < |ChunkWords(ws)|
    ensures k * ChunkSize < |ws|
    ensures ChunkWords(ws)[k] == ChunkWords(ws[k * ChunkSize..])[0]
    decreases k
  {
    if k > 0 {
      var tail := ws[ChunkSize..];
      ChunkIsFirstOfRest(tail, k - 1);
      assert tail[(k - 1) * ChunkSize..] == ws[k * ChunkSize..];
    }
  }

  /** `chunk_text(text)`, as the list its generator yields. */
  function ChunkText(text: string): (chunks: seq<string>)
    ensures |chunks| == (|Words(text)| + ChunkSize - 1) / ChunkSize
    ensures chunks == [] <==> Words(text) == []
    ensures forall k :: 0 <= k < |chunks| ==> 0 < |Words(chunks[k])| <= ChunkSize
    ensures forall k :: 0 <= k < |chunks| - 1 ==> |Words(chunks[k])| == ChunkSize
    ensures forall k :: 0 <= k < |chunks| ==> Words(chunks[k]) == ChunkWords(Words(text))[k]
    ensures WordsOfAll(chunks) == Words(text)
  {
    var ws := Words(text);
    var cs := ChunkWords(ws);
    ChunksHoldWords(ws);
    var chunks := seq(|cs|, k requires 0 <= k < |cs| => Join(cs[k]));
    ChunkWordsOfJoined(cs);
    assert forall k :: 0 <= k < |cs| ==> Words(chunks[k]) == cs[k];
    chunks
  }

  /** Chunk `k` is `" ".join(words[i:i+300])` for `i = 300*k`. */
  lemma ChunkIsJoinedSlice(text: string, k: nat)
    requires k < |ChunkText(text)|
    ensures k * ChunkSize < |Words(text)|
    ensures ChunkText(text)[k] == Join(Words(text)[k * ChunkSize..Min(k * ChunkSize + ChunkSize, |Words(text)|)])
  {
    ChunksAreRangeSlices(Words(text), k);
  }

  /** Windows cut from words hold only words. */
  lemma {:induction false} ChunksHoldWords(ws: seq<string>)
    requires forall i :: 0 <= i < |ws| ==> IsWord(ws[i])
    ensures forall k, i :: 0 <= k < |ChunkWords(ws)| && 0 <= i < |ChunkWords(ws)[k]| ==> IsWord(ChunkWords(ws)[k][i])
    decreases |ws|
  {
    if |ws| > ChunkSize {
      ChunksHoldWords(ws[ChunkSize..]);
    }
  }

  /** Splitting each joined window again gives back the words of all windows in order. */
  lemma {:induction false} ChunkWordsOfJoined(cs: seq<seq<string>>)
    requires forall k, i :: 0 <= k < |cs| && 0 <= i < |cs[k]| ==> IsWord(cs[k][i])
    ensures forall k :: 0 <= k < |cs| ==> Words(Join(cs[k])) == cs[k]
    ensures WordsOfAll(seq(|cs|, k requires 0 <= k < |cs| => Join(cs[k]))) == Flatten(cs)
  {
    forall k | 0 <= k < |cs| ensures Words(Join(cs[k])) == cs[k] {
      JoinWordsRoundTrip(cs[k]);
    }
    if cs != [] {
      ChunkWordsOfJoined(cs[1..]);
      var joined := seq(|cs|, k requires 0 <= k < |cs| => Join(cs[k]));
      assert joined[1..] == seq(|cs[1..]|, k requires 0 <= k < |cs[1..]| => Join(cs[1..][k]));
    }
  }

  /** A transcript of 650 words makes three windows of 300, 300 and 50 words. */
  lemma SixHundredFiftyWords(text: string)
    requires |Words(text)| == 650
    ensures |ChunkText(text)| == 3
    ensures |Words(ChunkText(text)[0])| == 300 && |Words(ChunkText(text)[1])| == 300
    ensures |Words(ChunkText(text)[2])| == 50
  {
    ChunksAreRangeSlices(Words(text), 2);
  }
}
