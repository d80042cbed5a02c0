/**
 * The `POST /summarize` handler of the web front end, as a function from the
 * request body and the collaborators' answers to the reply. The reply also
 * records which collaborator calls the handler made.
 */
module Endpoint {
  import opened Wrappers
  import opened Text
  import opened VideoId
  import opened Transcript
  import opened Chunking
  import opened Summarization
  import opened Services

  /** `max_words` when the body has none. */
  const DefaultMaxWords := 100

  const NoUrlMessage := "No URL provided!"
  const InvalidUrlMessage := "Invalid YouTube URL!"

  /** The JSON body: `url` and `max_words`, each possibly absent. */
  datatype Request = Request(url: Option<string>, maxWords: Option<int>)

  datatype Payload =
    | ErrorPayload(error: string)
    | SummaryPayload(summary: string, summaryLength: int, originalLength: int)

  /** The HTTP status and JSON payload, with the transcript request made (id, language) and the summarizer calls made. */
  datatype Reply = Reply(status: int, payload: Payload, fetched: Option<(string, string)>, modelCalls: seq<SummarizerCall>)

  /** `not url` in Python: absent or empty. */
  predicate Falsy(url: Option<string>) {
    url.None? || url.value == ""
  }

  /** The handler `summarize()`. */
  function HandleSummarize(req: Request, svc: Services): (reply: Reply)
    ensures reply.status == 200 || reply.status == 400
    ensures reply.status == 400 <==> reply.payload.ErrorPayload?
    // first check: a missing or empty url
    ensures Falsy(req.url) ==> reply == Reply(400, ErrorPayload(NoUrlMessage), None, [])
    // second check: no identifier in the url; nothing is fetched
    ensures !Falsy(req.url) && GetVideoId(req.url.value).None? ==>
              reply == Reply(400, ErrorPayload(InvalidUrlMessage), None, [])
    // otherwise exactly one fetch, for the identifier, in English
    ensures !Falsy(req.url) && GetVideoId(req.url.value).Some? ==>
              reply.fetched == Some((GetVideoId(req.url.value).value, English))
    // a transcript containing `Error` is refused; any other is summarized with 200
    ensures !Falsy(req.url) && GetVideoId(req.url.value).Some? ==>
              var transcript := FetchTranscript(svc.fetch(GetVideoId(req.url.value).value, English));
              (reply.status == 200 <==> !Contains(transcript, ErrorMarker))
    // the summarizer runs only on a reply of 200
    ensures reply.modelCalls != [] ==> reply.status == 200
    ensures reply.status == 200 ==> reply.fetched.Some?
  {
    if Falsy(req.url) then
      Reply(400, ErrorPayload(NoUrlMessage), None, [])
    else
      match GetVideoId(req.url.value)
      case None => Reply(400, ErrorPayload(InvalidUrlMessage), None, [])
      case Some(id) =>
        var transcript := FetchTranscript(svc.fetch(id, English));
        if Contains(transcript, ErrorMarker) then
          Reply(400, ErrorPayload(transcript), Some((id, English)), [])
        else
          var maxWords := req.maxWords.GetOr(DefaultMaxWords);
          var summary := SummarizeTranscript(svc.model, transcript, maxWords);
          Reply(200, SummaryPayload(summary, |Words(summary)|, |Words(transcript)|),
                Some((id, English)), SummarizerCalls(transcript, maxWords))
  }

  /**
   * Third check: a transcript that contains `Error` (every failed fetch, and a
   * genuine transcript that happens to contain the word) is echoed back with
   * 400 and the summarizer is never called.
   */
  lemma ErrorTranscriptIsEchoed(req: Request, svc: Services)
    requires !Falsy(req.url) && GetVideoId(req.url.value).Some?
    requires Contains(FetchTranscript(svc.fetch(GetVideoId(req.url.value).value, English)), ErrorMarker)
    ensures HandleSummarize(req, svc).status == 400
    ensures HandleSummarize(req, svc).payload == ErrorPayload(FetchTranscript(svc.fetch(GetVideoId(req.url.value).value, English)))
    ensures HandleSummarize(req, svc).modelCalls == []
  {
  }

  /** Every failure of the transcript service ends in 400 with its sentinel, without a summarizer call. */
  lemma FetchFailureIs400(req: Request, svc: Services)
    requires !Falsy(req.url) && GetVideoId(req.url.value).Some?
    requires !svc.fetch(GetVideoId(req.url.value).value, English).Segments?
    ensures HandleSummarize(req, svc).status == 400
    ensures HandleSummarize(req, svc).payload.error[..|ErrorMarker|] == ErrorMarker
    ensures HandleSummarize(req, svc).modelCalls == []
  {
    FailuresCarryMarker(svc.fetch(GetVideoId(req.url.value).value, English));
  }

  /**
   * A 200 reply: the summary is the summarizer's output over the fetched
   * transcript, `max_words` defaults to 100, `summary_length` counts the
   * summary's words and is at most `max_words` when that is not negative,
   * `original_length` counts the transcript's words, and the summarizer saw
   * one call per chunk.
   */
  lemma SuccessReply(req: Request, svc: Services)
    requires HandleSummarize(req, svc).status == 200
    ensures var id := GetVideoId(req.url.value).value;
            var transcript := FetchTranscript(svc.fetch(id, English));
            var maxWords := req.maxWords.GetOr(DefaultMaxWords);
            var reply := HandleSummarize(req, svc);
            && !Falsy(req.url) && GetVideoId(req.url.value).Some?
            && !Contains(transcript, ErrorMarker)
            && reply.payload.SummaryPayload?
            && reply.payload.summary == SummarizeTranscript(svc.model, transcript, maxWords)
            && reply.payload.summaryLength == |Words(reply.payload.summary)|
            && (maxWords >= 0 ==> reply.payload.summaryLength <= maxWords)
            && reply.payload.originalLength == |Words(transcript)|
            && |reply.modelCalls| == (|Words(transcript)| + ChunkSize - 1) / ChunkSize
            && WordsOfAll(CallTexts(reply.modelCalls)) == Words(transcript)
  {
  }

  /** Without `max_words` in the body the summary holds at most 100 words. */
  lemma DefaultBound(url: string, svc: Services)
    requires HandleSummarize(Request(Some(url), None), svc).status == 200
    ensures HandleSummarize(Request(Some(url), None), svc).payload.summaryLength <= DefaultMaxWords
  {
    SuccessReply(Request(Some(url), None), svc);
  }

  /**
   * As written, a negative `max_words` is passed on: the slice `[:max_words]`
   * then drops words from the end, so the reply keeps all but the last
   * `-max_words` words of the joined summaries and always exceeds the bound.
   */
  lemma NegativeMaxWordsDropsFromEnd(url: string, k: int, svc: Services)
    requires k < 0
    requires HandleSummarize(Request(Some(url), Some(k)), svc).status == 200
    ensures var transcript := FetchTranscript(svc.fetch(GetVideoId(url).value, English));
            var total := |WordsOfAll(Summaries(svc.model, transcript, k))|;
            var reply := HandleSummarize(Request(Some(url), Some(k)), svc);
            && reply.payload.summaryLength == (if total + k >= 0 then total + k else 0)
            && reply.payload.summaryLength > k
  {
    var transcript := FetchTranscript(svc.fetch(GetVideoId(url).value, English));
    var summaries := Summaries(svc.model, transcript, k);
    WordsOfJoin(summaries);
  }

  const InvalidMaxWordsMessage := "max_words must be a positive integer!"

  /**
   * The handler with the check the command line applies to its word count:
   * a `max_words` that is present and not positive is refused with 400;
   * every other request is answered exactly as by `HandleSummarize`.
   */
  function HandleSummarizeValidated(req: Request, svc: Services): (reply: Reply)
    ensures req.maxWords.Some? && req.maxWords.value <= 0 ==>
              reply == Reply(400, ErrorPayload(InvalidMaxWordsMessage), None, [])
    ensures req.maxWords.None? || req.maxWords.value >= 1 ==> reply == HandleSummarize(req, svc)
    ensures reply.status == 200 ==>
              reply.payload.SummaryPayload? && 0 <= reply.payload.summaryLength <= req.maxWords.GetOr(DefaultMaxWords)
  {
    if req.maxWords.Some? && req.maxWords.value <= 0 then
      Reply(400, ErrorPayload(InvalidMaxWordsMessage), None, [])
    else
      var reply := HandleSummarize(req, svc);
      if reply.status == 200 then SuccessReply(req, svc); reply else reply
  }
}
