/**
 * `fetch_transcript(video_id, language)`: the transcript service's answer,
 * turned into one string. Failures become sentinel strings that start with
 * `Error`; callers tell them apart from transcripts only by `"Error" in ...`.
 */
module Transcript {
  import opened Text

  /** What the transcript service does for one request. */
  datatype FetchOutcome =
    | Segments(texts: seq<string>)        // the `text` of each caption segment, in order
    | TranscriptsDisabled                 // the `TranscriptsDisabled` exception
    | FetchFailed(description: string)    // any other exception `e`, as `str(e)`

  /** The transcript service: its outcome for a video id and a language code. */
  type Fetcher = (string, string) -> FetchOutcome

  /** The language both front ends request: `fetch_transcript`'s default `'en'`. */
  const English := "en"

  const DisabledMessage := "Error: Transcripts are disabled for this video."
  const FailurePrefix := "Error fetching transcript: "

  /** The marker callers look for to detect a failed fetch. */
  const ErrorMarker := "Error"

  /** `fetch_transcript`, given the service's outcome. */
  function FetchTranscript(outcome: FetchOutcome): (transcript: string)
    ensures outcome.Segments? ==> Words(transcript) == WordsOfAll(outcome.texts)
    ensures !outcome.Segments? ==> ErrorMarker <= transcript
  {
    match outcome
    case Segments(texts) =>
      WordsOfJoin(texts);
      Join(texts)
    case TranscriptsDisabled => DisabledMessage
    case FetchFailed(description) => FailurePrefix + description
  }

  /** Every failed fetch yields a string that contains `Error`, so callers route it to their error path. */
  lemma FailuresCarryMarker(outcome: FetchOutcome)
    requires !outcome.Segments?
    ensures Contains(FetchTranscript(outcome), ErrorMarker)
  {
    var t := FetchTranscript(outcome);
    PrefixContains(ErrorMarker, t[|ErrorMarker|..]);
    assert t == ErrorMarker + t[|ErrorMarker|..];
  }

  /** A genuine transcript whose captions contain `Error` is indistinguishable from a failure. */
  lemma GenuineErrorTextLooksLikeFailure(texts: seq<string>, k: nat)
    requires k < |texts| && Contains(texts[k], ErrorMarker)
    ensures Contains(FetchTranscript(Segments(texts)), ErrorMarker)
  {
    JoinContains(texts, k, ErrorMarker);
  }
}
