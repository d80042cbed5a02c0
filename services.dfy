/** The external collaborators both front ends call: the transcript service, its language listing and the summarization model. */
module Services {
  import opened Wrappers
  import opened Transcript
  import opened Summarization

  datatype Services = Services(
    fetch: Fetcher,                                        // `YouTubeTranscriptApi.get_transcript`
    languages: string -> Option<map<string, string>>,      // `get_available_languages`: name to code, or `None`
    model: Model)                                          // the `summarizer` pipeline
}
