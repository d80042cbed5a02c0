# YouTube transcript summarizer — a Dafny model

The summarizer takes a YouTube URL and a word budget. It extracts the
11-character video id from the URL and fetches the English transcript. It
splits the transcript into windows of 300 words and asks an abstractive
summarization model for one summary per window. It joins the summaries and
cuts the result to the word budget. There are two front ends: a Flask
handler `POST /summarize` (`app.py`) and an interactive command-line loop
(`model.py`). Both share the functions `get_video_id`, `fetch_transcript`,
`chunk_text` and `summarize_transcript`.

The model keeps the source's structure:

- `text.dfy` (`Text`): Python's `str.split()`, `str.strip()`, `" ".join` and
  `sub in s`, over the whitespace set of `str.isspace()`.
- `video_id.dfy` (`VideoId`): `get_video_id`. `re.search` is modelled as a
  scan over match start positions, and the first group of the leftmost match
  is returned.
- `transcript.dfy` (`Transcript`): `fetch_transcript`. The transcript service
  is a function-typed parameter that returns the caption segments or one of
  the two exceptions. Its answer becomes a string, and failures become the
  `Error…` sentinel strings.
- `chunking.dfy` (`Chunking`): `chunk_text` with its default window of 300.
- `summarization.dfy` (`Summarization`): `summarize_transcript`. The model is
  a function parameter from a call's arguments to its `summary_text`.
- `services.dfy` (`Services`): the collaborators the front ends use. These
  are the transcript service, the language listing and the summarization
  model.
- `endpoint.dfy` (`Endpoint`): the `summarize()` handler, as a function from
  the request body to the status and JSON payload. The reply also records
  the transcript request and the summarizer calls that were made.
- `int_parse.dfy` (`IntParse`): Python's `int(s.strip())` in base 10, which
  the prompts use.
- `cli.dfy` (`Cli`): `get_user_inputs` and `main`.
  - Their `while True` loops are methods over the sequence of input lines.
  - Each method is proved against `Replay`, a line-by-line description of
    the session: what each line does in each prompt, and which summaries
    result.
  - Running out of lines stands for `input()` reaching end of file.

An empty or whitespace-only transcript gives no window, no summarizer call
and the summary `""` (`Summarization.SummarizerCalls`,
`Summarization.SummarizeTranscript`).

## Model

| member | source | states |
|---|---|---|
| Text.Words | app.py:226 | `split()` yields only non-empty tokens free of whitespace |
| Text.WordsKeepText | app.py:226 | the tokens of `split()`, concatenated, are exactly the non-whitespace characters of the input in order: nothing but whitespace is lost |
| Text.WordsOfJoin | app.py:236-239 | splitting a `" ".join` gives the tokens of every part in order: joining neither adds nor merges words |
| Text.JoinWordsRoundTrip | app.py:241 | joining whitespace-free tokens and splitting again gives the same tokens back |
| Text.Strip | model.py:64 | the stripped string neither starts nor ends with whitespace, and a string with no whitespace at either end is returned unchanged |
| Text.StripKeepsMiddle | model.py:64 | the stripped string is a slice `s[i..j]` of the input with only whitespace before `i` and after `j`: exactly the whitespace at the ends is removed |
| VideoId.CaptureAt | app.py:210 | the captured group is exactly 11 characters of `[0-9A-Za-z_-]` |
| VideoId.FirstMatch | app.py:211 | the result is the first start position at or after `from` where `v=` or `/` is followed by 11 id characters, with no match before it; `None` exactly when no position matches |
| VideoId.GetVideoId | app.py:208-212 | `None` exactly when the pattern matches nowhere; otherwise an 11-character id that is the capture of a match with no match to its left |
| VideoId.LeftmostMatchWins | app.py:211-212 | any match with no match before it determines the result |
| VideoId.NoMarkerNoId | app.py:210-212 | a URL with neither `v` nor `/` gives no id |
| VideoId.QueryAfterPlainPrefix | app.py:210-212 | for `prefix + "v=" + id + rest` with no `v` or `/` in `prefix`, the result is `id`, whatever `rest` holds |
| VideoId.PathAfterPlainPrefix | app.py:210-212 | for `prefix + "/" + id + rest` with no `v` or `/` in `prefix`, the result is `id` |
| VideoId.WatchUrl | app.py:208-212 | `https://www.youtube.com/watch?v=` followed by an 11-character id gives that id, whatever follows |
| Transcript.FetchTranscript | app.py:214-222 | for caption segments, the words of the result are the words of all segments in order; for either exception, the result starts with `Error` |
| Transcript.FailuresCarryMarker | app.py:219-222 | every failed fetch yields a string that contains `Error` |
| Transcript.GenuineErrorTextLooksLikeFailure | app.py:263-265 | a real transcript with a segment that contains `Error` also contains `Error`, so callers treat it as a failure |
| Chunking.ChunkWords | app.py:226-228 | ⌈n/300⌉ windows; each holds 1 to 300 words and all but the last exactly 300; concatenated, they are the word list itself |
| Chunking.ChunksAreRangeSlices | app.py:227-228 | window `k` is `words[300k : 300k+300]`, clipped to the end of the list |
| Chunking.ChunkText | app.py:224-228 | ⌈words/300⌉ chunks, none exactly when the text has no word; each chunk splits into 1 to 300 words (all but the last 300), into exactly its window; all chunks' words are the text's words in order |
| Chunking.ChunkIsJoinedSlice | app.py:226-228 | chunk `k` is `" ".join(words[300k:300k+300])`, with `300k` inside the word list |
| Chunking.SixHundredFiftyWords | app.py:224-228 | a text of 650 words gives three chunks of 300, 300 and 50 words |
| Summarization.SummarizerCalls | app.py:232-233 | one call per chunk, in order; each has `max_length = 2*max_words`, `min_length = 40`, no sampling, and 1 to 300 words; the calls' texts hold exactly the transcript's words |
| Summarization.SummariesFollowChunks | app.py:226-233 | the `i`-th summary is the model's answer for the `i`-th chunk, and that chunk is `" ".join(words[300i:300i+300])` |
| Summarization.Truncate | app.py:239-241 | the words kept are a prefix of the joined words; with `max_words >= 0`, exactly `min(words, max_words)` of them; with a negative `max_words`, all but the last `-max_words`; within the limit the text is left untouched |
| Summarization.SummarizeTranscript | app.py:230-243 | exactly `min(words of the summaries, max_words)` words when `max_words >= 0`, and all but the last `-max_words` when it is negative; its words are a prefix of the summaries' words; the plain join when that is within the limit; `""` for a transcript without words |
| Endpoint.HandleSummarize | app.py:249-273 | status 200 or 400, and 400 exactly with an error payload; a missing or empty `url` is refused first, then a URL without id, both without a fetch; otherwise exactly one English fetch for the id, and the reply is 200 exactly when the transcript does not contain `Error`; the summarizer runs only on 200 |
| Endpoint.ErrorTranscriptIsEchoed | app.py:263-265 | a transcript containing `Error` is returned as the error with 400, without a summarizer call |
| Endpoint.FetchFailureIs400 | app.py:263-265 | every failure of the transcript service ends in 400, with an error starting with `Error` and no summarizer call |
| Endpoint.SuccessReply | app.py:267-273 | on 200: the summary is `summarize_transcript` of the fetched transcript, with `max_words` defaulting to 100; `summary_length` counts its words and is within `max_words` when that is not negative; `original_length` counts the transcript's words; one summarizer call per chunk, covering the transcript |
| Endpoint.DefaultBound | app.py:254 | without `max_words`, a successful summary has at most 100 words |
| Endpoint.NegativeMaxWordsDropsFromEnd | app.py:254-267 | with a negative `max_words` the reply keeps all but the last `-max_words` words of the joined summaries, so `summary_length > max_words` |
| Endpoint.HandleSummarizeValidated | app.py:249-273 | a present, non-positive `max_words` is refused with 400; any other request gets the same reply as the handler; a 200 reply's `summary_length` is within the word budget |
| IntParse.ParseInt | model.py:98 | `int(s.strip())`: a successful parse ends (after stripping) in a digit; a negative result comes from text that starts with `-` |
| IntParse.ParseIntOfStripped | model.py:98 | stripping the text once more before `int(s.strip())` changes nothing |
| IntParse.ParseShowRoundTrip | model.py:98 | every integer, written as Python prints it, parses back to itself |
| IntParse.NoDigitNoInt | model.py:98-104 | text without a digit always raises `ValueError` |
| Cli.AcceptCount | model.py:96-104 | an accepted word count is at least 1 |
| Cli.AcceptCountOfShown | model.py:98-102 | a typed integer is accepted exactly when it is positive; zero and negatives prompt again |
| Cli.UrlLine | model.py:64-91 | the URL line moves to the count prompt for a usable transcript and back to the URL prompt otherwise, with no summary |
| Cli.CountLine | model.py:96-115 | an accepted first count on an empty transcript goes back to the URL prompt; on any other transcript it makes one summary with that count and opens the menu |
| Cli.NewCountLine | model.py:130-144 | an accepted count after choice 1 makes one summary of the same transcript and shows the menu again |
| Cli.ChoiceLine | model.py:128-154 | a menu line changes only the mode, as choice 1/2/3/other says, and makes no summary |
| Cli.RejectedCountIsNoOp | model.py:101-104 | a rejected count changes nothing |
| Cli.ReplaySkipsRejected | model.py:96-104 | any run of rejected counts leaves the session as it was |
| Cli.PromptedCount | model.py:130-144 | choice 1's prompt, after any rejected lines, makes exactly one summary of the same transcript with the accepted count |
| Cli.FirstCount | model.py:96-115 | the first prompt, after any rejected lines, makes at most one summary with the accepted count, and only for a non-empty transcript |
| Cli.ReplaySound | model.py:89-141 | whatever the user types, every summary is made with a count of at least 1, on a non-empty transcript free of `Error` |
| Cli.SummariesBounded | model.py:115-119 | every printed summary has at most the requested number of words |
| Cli.ExitIsFinal | model.py:149-151 | after choice 3 no further line changes the session or adds a summary |
| Cli.ResummarizeSameTranscript | model.py:130-144 | choice 1, then an accepted count, re-summarizes the same transcript with the new count |
| Cli.PromptWordCount | model.py:96-104 | returns the first positive integer line from `from`, with every line before it rejected; `None` only when every remaining line is rejected |
| Cli.ResolveUrl | model.py:64-91 | no transcript exactly when the URL prompt repeats; otherwise the English transcript, free of `Error`, for the id in the stripped URL |
| Cli.GetUserInputs | model.py:62-106 | `(None, None)` exactly when the URL line gives no usable transcript; otherwise that transcript and the count on the first accepted line after the URL, every line between being rejected; input runs out only before the URL line or while every count line after it is rejected; the session after those lines is the one `Replay` gives |
| Cli.MenuLoop | model.py:122-154 | the menu loop ends on choice 2 at the URL prompt, on choice 3 exited, or at the end of input; its summaries are `summarize_transcript`'s results for the requests `Replay` records |
| Cli.SessionRound | model.py:110-154 | one outer round returns to the URL prompt or ends the session, in the state `Replay` gives for the lines it read |
| Cli.RunSession | model.py:108-154 | the summaries requested are exactly those `Replay` records for the lines read; each printed summary is `summarize_transcript`'s result and within its count; each request has a count of at least 1 and a usable transcript; the session ends by choice 3 or by running out of input |

## Findings

| source | as written | input that shows it | evidently intended | confidence | as-written member | corrected member |
|---|---|---|---|---|---|---|
| app.py:254-267 | `max_words` from the body goes to `summarize_transcript` unchecked; a negative value makes `[:max_words]` drop words from the end | body `{"url": <a URL with a transcript>, "max_words": -1}`: the reply keeps every summary word but the last, so `summary_length > max_words` | refuse a non-positive `max_words`, as the command line does (model.py:99-102), so every 200 reply is within the budget | not executed; follows from Python's slice semantics | Endpoint.NegativeMaxWordsDropsFromEnd | Endpoint.HandleSummarizeValidated |

## Left out

- The Flask application itself is not modelled: routing, `render_template`, `jsonify` and the `home` page.
  - The request body is modelled as an optional `url` string and an optional integer `max_words`.
  - A missing JSON body, and `max_words` values of other JSON types (string, float, `null`), are not modelled.
- Loading and pickling the summarizer (app.py:199-206, model.py:158-159) is file I/O.
  - The summarization pipeline is an arbitrary function parameter.
  - Its outputs for `max_length < min_length` are whatever that function returns.
- The transcript service, the language listing and their network calls are parameters.
  - `get_available_languages` (model.py:25-31) is not modelled beyond its result.
  - Its listing is only printed, and English is chosen either way.
- `translate_text` (model.py:39-45) is never called, so it is not modelled.
- Everything printed (prompts, warnings, the summary and its length) is output only.
  - The model returns the summaries instead of printing them.
- The module-level text before app.py:190 is not part of this model: it is an unused string, not code.
- Chunking.ChunkText: the window is the default of 300. No caller passes `chunk_size`, and a `chunk_size` of 0 is not modelled.
- IntParse.ParseInt: only ASCII digits are accepted. Python's `int()` also accepts other Unicode decimal digits.
- IntParse.ParseInt: there is no limit on the number of digits. Python 3.11 and later (and security releases of 3.7 to 3.10) raise `ValueError` above 4300 digits, so there such a line re-prompts, while here it is accepted.
- IntParse.ParseInt models `int()` on already-stripped text. It is not `int(s)` on unstripped text: `int()` alone does not skip U+001C to U+001F, which `strip()` removes. Both prompts strip first, so the command line is unaffected.
- Cli.RunSession: the end of input is running out of lines. Python raises `EOFError` there instead of returning.
- Endpoint.HandleSummarize: a summarizer that raises is not modelled; the model is a total function. In the source such an exception gives a 500 reply from Flask (app.py:233) and ends the command-line program (model.py:50). The `200 or 400` guarantee holds only under that assumption.
- Concurrency between requests of the web server is not modelled.
