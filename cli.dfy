/**
 * The command-line front end (`get_user_inputs` and `main`): the session is a
 * sequence of input lines. `Step` and `Replay` say, line by line, what each
 * line does; the methods follow the program's own loops and are proved to
 * agree with them. Running out of lines stands for `input()` reaching end of
 * file, which ends the program.
 */
module Cli {
  import opened Wrappers
  import opened Text
  import opened IntParse
  import opened VideoId
  import opened Transcript
  import opened Summarization
  import opened Services

  /**
   * The word counts both prompts accept: `int(line.strip())` when it is
   * positive. `ParseInt` is `int()` applied to stripped text, so it is given
   * `line` itself (`ParseIntOfStripped`: stripping again changes nothing).
   */
  function AcceptCount(line: string): (r: Option<int>)
    ensures r.Some? ==> r.value >= 1
  {
    match ParseInt(line)
    case Some(n) => if n > 0 then Some(n) else None
    case None => None
  }

  /** A printed integer is accepted exactly when it is positive; zero and negatives re-prompt. */
  lemma AcceptCountOfShown(n: int)
    ensures AcceptCount(Show(n)) == if n >= 1 then Some(n) else None
  {
    var s := Show(n);
    assert s[0] == '-' || IsDigit(s[0]);
    assert Strip(s) == s;
    ParseShowRoundTrip(n);
  }

  /** The menu's choices. */
  datatype MenuChoice = Resummarize | NewUrl | Quit | Unknown

  /** `choice = input(...).strip()` and the comparison with "1", "2" and "3". */
  function Dispatch(line: string): MenuChoice {
    var choice := Strip(line);
    if choice == "1" then Resummarize
    else if choice == "2" then NewUrl
    else if choice == "3" then Quit
    else Unknown
  }

  /** What the program is waiting for. */
  datatype Mode =
    | AskUrl                          // "Enter YouTube Video URL"
    | AskCount(transcript: string)    // the first word count for a fetched transcript
    | AskNewCount(transcript: string) // the word count after menu choice 1
    | AskChoice(transcript: string)   // the menu
    | Exited                          // after choice 3

  /** One call `summarize_transcript(transcript, max_words)`. */
  datatype Run = Run(transcript: string, maxWords: int)

  /** Where the session stands and the summaries made so far. */
  datatype Trace = Trace(mode: Mode, runs: seq<Run>)

  /** The URL prompt: a URL whose video has a transcript free of `Error` moves on to the word count. */
  function UrlStep(line: string, svc: Services): Mode {
    match GetVideoId(Strip(line))
    case None => AskUrl
    case Some(id) =>
      var transcript := FetchTranscript(svc.fetch(id, English));
      if Contains(transcript, ErrorMarker) then AskUrl else AskCount(transcript)
  }

  /** An accepted word count summarizes `transcript` and shows the menu. */
  function CountStep(transcript: string, n: int): Trace {
    Trace(AskChoice(transcript), [Run(transcript, n)])
  }

  /** The menu: 1 asks for a new count, 2 for a new URL, 3 exits, anything else asks again. */
  function ChoiceStep(transcript: string, line: string): Mode {
    match Dispatch(line)
    case Resummarize => AskNewCount(transcript)
    case NewUrl => AskUrl
    case Quit => Exited
    case Unknown => AskChoice(transcript)
  }

  /** The effect of one input line: the next mode and the summaries it makes (none or one). */
  function Step(mode: Mode, line: string, svc: Services): Trace {
    match mode
    case AskUrl => Trace(UrlStep(line, svc), [])
    case AskCount(transcript) =>
      if AcceptCount(line).None? then Trace(mode, [])
      else if transcript == "" then Trace(AskUrl, [])
      else CountStep(transcript, AcceptCount(line).value)
    case AskNewCount(transcript) =>
      if AcceptCount(line).None? then Trace(mode, [])
      else CountStep(transcript, AcceptCount(line).value)
    case AskChoice(transcript) => Trace(ChoiceStep(transcript, line), [])
    case Exited => Trace(Exited, [])
  }

  function Extend(t: Trace, line: string, svc: Services): Trace {
    var s := Step(t.mode, line, svc);
    Trace(s.mode, t.runs + s.runs)
  }

  /** The session after the lines `lines`, starting at the URL prompt. */
  function Replay(lines: seq<string>, svc: Services): Trace
    decreases |lines|
  {
    if lines == [] then Trace(AskUrl, [])
    else Extend(Replay(lines[..|lines| - 1], svc), lines[|lines| - 1], svc)
  }

  lemma ReplayStep(lines: seq<string>, i: nat, svc: Services)
    requires i < |lines|
    ensures Replay(lines[..i + 1], svc) == Extend(Replay(lines[..i], svc), lines[i], svc)
  {
    assert lines[..i + 1][..i] == lines[..i];
  }

  /** The URL line: the mode becomes what `UrlStep` says, no summary is made. */
  lemma UrlLine(lines: seq<string>, i: nat, runs: seq<Run>, svc: Services)
    requires i < |lines| && Replay(lines[..i], svc) == Trace(AskUrl, runs)
    ensures Replay(lines[..i + 1], svc) == Trace(UrlStep(lines[i], svc), runs)
  {
    ReplayStep(lines, i, svc);
    assert runs + [] == runs;
  }

  /** An accepted first count: back to the URL prompt for an empty transcript, else one summary and the menu. */
  lemma CountLine(lines: seq<string>, i: nat, transcript: string, runs: seq<Run>, svc: Services)
    requires i < |lines| && Replay(lines[..i], svc) == Trace(AskCount(transcript), runs)
    requires AcceptCount(lines[i]).Some?
    ensures transcript == "" ==> Replay(lines[..i + 1], svc) == Trace(AskUrl, runs)
    ensures transcript != "" ==>
              Replay(lines[..i + 1], svc) == Trace(AskChoice(transcript), runs + [Run(transcript, AcceptCount(lines[i]).value)])
  {
    ReplayStep(lines, i, svc);
    assert runs + [] == runs;
  }

  /** An accepted count after menu choice 1: one summary of the same transcript, and the menu again. */
  lemma NewCountLine(lines: seq<string>, i: nat, transcript: string, runs: seq<Run>, svc: Services)
    requires i < |lines| && Replay(lines[..i], svc) == Trace(AskNewCount(transcript), runs)
    requires AcceptCount(lines[i]).Some?
    ensures Replay(lines[..i + 1], svc) == Trace(AskChoice(transcript), runs + [Run(transcript, AcceptCount(lines[i]).value)])
  {
    ReplayStep(lines, i, svc);
  }

  /** A menu line: 1 asks for a new count, 2 returns to the URL prompt, 3 exits, anything else changes nothing. */
  lemma ChoiceLine(lines: seq<string>, i: nat, transcript: string, runs: seq<Run>, svc: Services)
    requires i < |lines| && Replay(lines[..i], svc) == Trace(AskChoice(transcript), runs)
    ensures Replay(lines[..i + 1], svc) == Trace(ChoiceStep(transcript, lines[i]), runs)
  {
    ReplayStep(lines, i, svc);
    assert runs + [] == runs;
  }

  lemma RejectedCountIsNoOp(t: Trace, line: string, svc: Services)
    requires t.mode.AskCount? || t.mode.AskNewCount?
    requires AcceptCount(line).None?
    ensures Extend(t, line, svc) == t
  {
    assert t.runs + [] == t.runs;
  }

  /** Rejected counts change nothing: the prompt just asks again. */
  lemma {:induction false} ReplaySkipsRejected(lines: seq<string>, from: nat, to: nat, svc: Services)
    requires from <= to <= |lines|
    requires Replay(lines[..from], svc).mode.AskCount? || Replay(lines[..from], svc).mode.AskNewCount?
    requires forall i :: from <= i < to ==> AcceptCount(lines[i]).None?
    ensures Replay(lines[..to], svc) == Replay(lines[..from], svc)
    decreases (to as int) - from
  {
    if from < to {
      var t := Replay(lines[..from], svc);
      RejectedCountIsNoOp(t, lines[from], svc);
      ReplayStep(lines, from, svc);
      assert Replay(lines[..from + 1], svc) == t;
      ReplaySkipsRejected(lines, from + 1, to, svc);
    }
  }

  /**
   * The count prompt after menu choice 1: rejected lines from `from`, then
   * the accepted count on line `next - 1` re-summarizes `transcript`.
   */
  lemma PromptedCount(lines: seq<string>, from: nat, next: nat, transcript: string, runs: seq<Run>, svc: Services)
    requires from < next <= |lines|
    requires Replay(lines[..from], svc) == Trace(AskNewCount(transcript), runs)
    requires forall i :: from <= i < next - 1 ==> AcceptCount(lines[i]).None?
    requires AcceptCount(lines[next - 1]).Some?
    ensures Replay(lines[..next], svc) == Trace(AskChoice(transcript), runs + [Run(transcript, AcceptCount(lines[next - 1]).value)])
  {
    ReplaySkipsRejected(lines, from, next - 1, svc);
    NewCountLine(lines, next - 1, transcript, runs, svc);
    assert lines[..next - 1 + 1] == lines[..next];
  }

  /**
   * The first count prompt: rejected lines from `from`, then the accepted
   * count on line `next - 1` either returns to the URL prompt (empty
   * transcript) or summarizes `transcript` and shows the menu.
   */
  lemma FirstCount(lines: seq<string>, from: nat, next: nat, transcript: string, runs: seq<Run>, svc: Services)
    requires from < next <= |lines|
    requires Replay(lines[..from], svc) == Trace(AskCount(transcript), runs)
    requires forall i :: from <= i < next - 1 ==> AcceptCount(lines[i]).None?
    requires AcceptCount(lines[next - 1]).Some?
    ensures transcript == "" ==> Replay(lines[..next], svc) == Trace(AskUrl, runs)
    ensures transcript != "" ==>
              Replay(lines[..next], svc) == Trace(AskChoice(transcript), runs + [Run(transcript, AcceptCount(lines[next - 1]).value)])
  {
    ReplaySkipsRejected(lines, from, next - 1, svc);
    CountLine(lines, next - 1, transcript, runs, svc);
    assert lines[..next - 1 + 1] == lines[..next];
  }

  /** What holds of the transcript each mode carries. */
  predicate ModeOk(mode: Mode) {
    match mode
    case AskCount(t) => !Contains(t, ErrorMarker)
    case AskNewCount(t) => t != "" && !Contains(t, ErrorMarker)
    case AskChoice(t) => t != "" && !Contains(t, ErrorMarker)
    case _ => true
  }

  /** A summary the command line asks for: positive count, non-empty transcript free of `Error`. */
  predicate RunOk(r: Run) {
    && r.maxWords >= 1
    && r.transcript != ""
    && !Contains(r.transcript, ErrorMarker)
  }

  /**
   * Whatever the user types, every summary the command line makes uses a
   * word count of at least 1 on a non-empty transcript that passed the
   * `Error` check.
   */
  lemma {:induction false} ReplaySound(lines: seq<string>, svc: Services)
    ensures ModeOk(Replay(lines, svc).mode)
    ensures forall i :: 0 <= i < |Replay(lines, svc).runs| ==> RunOk(Replay(lines, svc).runs[i])
    decreases |lines|
  {
    if lines != [] {
      ReplaySound(lines[..|lines| - 1], svc);
    }
  }

  /** `summaries[i]` is what `summarize_transcript` returns for the `i`-th request in `runs`. */
  predicate SummariesOf(runs: seq<Run>, summaries: seq<string>, model: Model) {
    |summaries| == |runs|
    && forall i :: 0 <= i < |runs| ==> summaries[i] == SummarizeTranscript(model, runs[i].transcript, runs[i].maxWords)
  }

  /** Every summary printed for a request of the command line respects its word count. */
  lemma SummariesBounded(runs: seq<Run>, summaries: seq<string>, model: Model)
    requires SummariesOf(runs, summaries, model)
    requires forall i :: 0 <= i < |runs| ==> RunOk(runs[i])
    ensures forall i :: 0 <= i < |runs| ==> |Words(summaries[i])| <= runs[i].maxWords
  {
  }

  /** Printing one more summary keeps the two lists in step. */
  lemma SummariesGrow(runs: seq<Run>, summaries: seq<string>, r: Run, summary: string, model: Model)
    requires SummariesOf(runs, summaries, model)
    requires summary == SummarizeTranscript(model, r.transcript, r.maxWords)
    ensures SummariesOf(runs + [r], summaries + [summary], model)
  {
  }

  /** Once exited, a line changes nothing. */
  lemma ExitedIgnoresLine(t: Trace, line: string, svc: Services)
    requires t.mode == Exited
    ensures Extend(t, line, svc) == t
  {
    assert t.runs + [] == t.runs;
  }

  /** After choice 3 the program reads nothing more and makes no further summary. */
  lemma {:induction false} ExitIsFinal(lines: seq<string>, more: seq<string>, svc: Services)
    requires Replay(lines, svc).mode == Exited
    ensures Replay(lines + more, svc) == Replay(lines, svc)
    decreases |more|
  {
    if more == [] {
      assert lines + more == lines;
    } else {
      var init := more[..|more| - 1];
      ExitIsFinal(lines, init, svc);
      var all := lines + more;
      assert all[..|all| - 1] == lines + init;
      ExitedIgnoresLine(Replay(lines + init, svc), all[|all| - 1], svc);
    }
  }

  /** Menu choice 1 followed by an accepted count re-summarizes the same transcript with the new count. */
  lemma ResummarizeSameTranscript(transcript: string, runs: seq<Run>, choice: string, count: string, svc: Services)
    requires Dispatch(choice) == Resummarize && AcceptCount(count).Some?
    ensures var n := AcceptCount(count).value;
            Extend(Extend(Trace(AskChoice(transcript), runs), choice, svc), count, svc)
              == Trace(AskChoice(transcript), runs + [Run(transcript, n)])
  {
  }

  /**
   * The word-count prompt loop: reads lines from `from` until one is a
   * positive integer. `None` when the lines run out first.
   */
  method PromptWordCount(lines: seq<string>, from: nat) returns (count: Option<int>, next: nat)
    requires from <= |lines|
    ensures from <= next <= |lines|
    ensures count.None? ==> next == |lines| && forall i :: from <= i < |lines| ==> AcceptCount(lines[i]).None?
    ensures count.Some? ==> from < next && count == AcceptCount(lines[next - 1]) && count.value >= 1
    ensures count.Some? ==> forall i :: from <= i < next - 1 ==> AcceptCount(lines[i]).None?
  {
    next := from;
    while next < |lines|
      invariant from <= next <= |lines|
      invariant forall i :: from <= i < next ==> AcceptCount(lines[i]).None?
    {
      var maxWords := AcceptCount(lines[next]);
      next := next + 1;
      if maxWords.Some? {
        return maxWords, next;
      }
    }
    return None, next;
  }

  /** What `get_user_inputs` hands back to `main`. */
  datatype UserInputs =
    | OutOfInput                                  // `input()` reached end of file
    | NoTranscript                                // `(None, None)`
    | Inputs(transcript: string, maxWords: int)   // `(transcript, max_words)`

  /**
   * The URL part of `get_user_inputs()` for the URL line `line`: extract the
   * video id, list the languages (English is chosen either way), fetch the
   * English transcript and reject one that contains `Error`.
   */
  method ResolveUrl(line: string, svc: Services) returns (transcript: Option<string>)
    ensures transcript.None? <==> UrlStep(line, svc) == AskUrl
    ensures transcript.Some? ==> UrlStep(line, svc) == AskCount(transcript.value)
    ensures transcript.Some? ==> !Contains(transcript.value, ErrorMarker)
  {
    var url := Strip(line);
    var videoId := GetVideoId(url);
    if videoId.None? {
      return None;
    }
    var id := videoId.value;
    // The language listing is only displayed; both branches choose English.
    var languages := svc.languages(id);
    var langChoice: string;
    if languages.None? || languages.value == map[] {
      langChoice := English;
    } else {
      langChoice := English;
    }
    if langChoice != English {
      return None;
    }
    var fetched := FetchTranscript(svc.fetch(id, langChoice));
    if Contains(fetched, ErrorMarker) {
      return None;
    }
    return Some(fetched);
  }

  /**
   * `get_user_inputs()`, reading its lines from `pos`; `runs` are the
   * summaries the session has made before.
   */
  method GetUserInputs(lines: seq<string>, pos: nat, ghost runs: seq<Run>, svc: Services)
    returns (inputs: UserInputs, next: nat)
    requires pos <= |lines|
    requires Replay(lines[..pos], svc) == Trace(AskUrl, runs)
    ensures pos <= next <= |lines|
    ensures inputs.OutOfInput? ==> next == |lines| && Replay(lines[..next], svc).runs == runs
    ensures inputs.OutOfInput? ==> Replay(lines[..next], svc).mode.AskUrl? || Replay(lines[..next], svc).mode.AskCount?
    ensures inputs.NoTranscript? ==> next == pos + 1 && UrlStep(lines[pos], svc) == AskUrl
    ensures inputs.NoTranscript? ==> Replay(lines[..next], svc) == Trace(AskUrl, runs)
    ensures pos < |lines| && UrlStep(lines[pos], svc) == AskUrl ==> inputs.NoTranscript?
    ensures inputs.OutOfInput? ==>
              pos == |lines| ||
              (UrlStep(lines[pos], svc).AskCount? && forall i :: pos + 1 <= i < |lines| ==> AcceptCount(lines[i]).None?)
    ensures inputs.Inputs? ==> pos + 1 < next && UrlStep(lines[pos], svc) == AskCount(inputs.transcript)
    ensures inputs.Inputs? ==> inputs.maxWords >= 1 && AcceptCount(lines[next - 1]) == Some(inputs.maxWords)
    ensures inputs.Inputs? ==> forall i :: pos + 1 <= i < next - 1 ==> AcceptCount(lines[i]).None?
    ensures inputs.Inputs? && inputs.transcript == "" ==> Replay(lines[..next], svc) == Trace(AskUrl, runs)
    ensures inputs.Inputs? && inputs.transcript != "" ==>
              Replay(lines[..next], svc) == Trace(AskChoice(inputs.transcript), runs + [Run(inputs.transcript, inputs.maxWords)])
  {
    if pos == |lines| {
      return OutOfInput, pos;
    }
    var transcript := ResolveUrl(lines[pos], svc);
    UrlLine(lines, pos, runs, svc);
    if transcript.None? {
      return NoTranscript, pos + 1;
    }
    var count, after := PromptWordCount(lines, pos + 1);
    if count.None? {
      ReplaySkipsRejected(lines, pos + 1, after, svc);
      assert UrlStep(lines[pos], svc).AskCount?;
      return OutOfInput, after;
    }
    FirstCount(lines, pos + 1, after, transcript.value, runs, svc);
    return Inputs(transcript.value, count.value), after;
  }

  /** How the menu loop of `main` ends. */
  datatype MenuEnd = NewUrlChosen | ExitChosen | InputEnded

  /**
   * The menu loop of `main` for `transcript`, from line `start`: choice 1
   * re-summarizes with a newly prompted count, 2 leaves the loop for a new
   * URL, 3 ends the program, anything else asks again.
   */
  method MenuLoop(lines: seq<string>, start: nat, transcript: string, runs0: seq<Run>, summaries0: seq<string>, svc: Services)
    returns (runs: seq<Run>, summaries: seq<string>, pos: nat, end: MenuEnd)
    requires start <= |lines|
    requires Replay(lines[..start], svc) == Trace(AskChoice(transcript), runs0)
    requires SummariesOf(runs0, summaries0, svc.model)
    ensures SummariesOf(runs, summaries, svc.model)
    ensures start <= pos <= |lines|
    ensures end == NewUrlChosen ==> start < pos && Replay(lines[..pos], svc) == Trace(AskUrl, runs)
    ensures end == ExitChosen ==> Replay(lines[..pos], svc) == Trace(Exited, runs)
    ensures end == InputEnded ==> pos == |lines| && Replay(lines[..pos], svc).runs == runs
    ensures end == InputEnded ==> Replay(lines[..pos], svc).mode != Exited
  {
    runs, summaries, pos := runs0, summaries0, start;
    while true
      invariant start <= pos <= |lines|
      invariant Replay(lines[..pos], svc) == Trace(AskChoice(transcript), runs)
      invariant SummariesOf(runs, summaries, svc.model)
      decreases |lines| - pos
    {
      if pos == |lines| {
        return runs, summaries, pos, InputEnded;
      }
      var choice := Dispatch(lines[pos]);
      ChoiceLine(lines, pos, transcript, runs, svc);
      pos := pos + 1;
      if choice == Resummarize {
        var count, after := PromptWordCount(lines, pos);
        if count.None? {
          ReplaySkipsRejected(lines, pos, after, svc);
          return runs, summaries, after, InputEnded;
        }
        PromptedCount(lines, pos, after, transcript, runs, svc);
        var summary := SummarizeTranscript(svc.model, transcript, count.value);
        runs, summaries := runs + [Run(transcript, count.value)], summaries + [summary];
        pos := after;
      } else if choice == NewUrl {
        return runs, summaries, pos, NewUrlChosen;
      } else if choice == Quit {
        return runs, summaries, pos, ExitChosen;
      }
    }
  }

  /** How one round of `main`'s outer loop ends: back at the URL prompt, or the session is over. */
  datatype RoundEnd = NextUrl | Over(exited: bool)

  /**
   * One round of `main`'s outer loop from line `pos`: `get_user_inputs()`,
   * the first summary when there is a transcript, then the menu loop.
   */
  method SessionRound(lines: seq<string>, pos: nat, runs0: seq<Run>, summaries0: seq<string>, svc: Services)
    returns (runs: seq<Run>, summaries: seq<string>, next: nat, end: RoundEnd)
    requires pos <= |lines|
    requires Replay(lines[..pos], svc) == Trace(AskUrl, runs0)
    requires SummariesOf(runs0, summaries0, svc.model)
    ensures SummariesOf(runs, summaries, svc.model)
    ensures pos <= next <= |lines|
    ensures end == NextUrl ==> pos < next && Replay(lines[..next], svc) == Trace(AskUrl, runs)
    ensures end.Over? ==> Replay(lines[..next], svc).runs == runs
    ensures end.Over? ==> (end.exited <==> Replay(lines[..next], svc).mode == Exited)
    ensures end.Over? && !end.exited ==> next == |lines|
  {
    var inputs;
    inputs, next := GetUserInputs(lines, pos, runs0, svc);
    if inputs.OutOfInput? {
      return runs0, summaries0, next, Over(false);
    }
    if inputs.NoTranscript? {
      return runs0, summaries0, next, NextUrl;
    }
    var transcript, maxWords := inputs.transcript, inputs.maxWords;
    if transcript == "" {
      return runs0, summaries0, next, NextUrl;
    }
    var summary := SummarizeTranscript(svc.model, transcript, maxWords);
    SummariesGrow(runs0, summaries0, Run(transcript, maxWords), summary, svc.model);
    var menuEnd;
    runs, summaries, next, menuEnd :=
      MenuLoop(lines, next, transcript, runs0 + [Run(transcript, maxWords)], summaries0 + [summary], svc);
    end := if menuEnd == NewUrlChosen then NextUrl else Over(menuEnd == ExitChosen);
  }

  /**
   * `main()`: rounds of URL prompt, first summary and menu until choice 3
   * or the end of the input. Returns the summaries requested and the ones
   * printed, how many lines were read, and whether the user chose to exit.
   */
  method RunSession(lines: seq<string>, svc: Services)
    returns (runs: seq<Run>, summaries: seq<string>, consumed: nat, exited: bool)
    ensures consumed <= |lines|
    ensures SummariesOf(runs, summaries, svc.model)
    ensures forall i :: 0 <= i < |runs| ==> |Words(summaries[i])| <= runs[i].maxWords
    ensures Replay(lines[..consumed], svc).runs == runs
    ensures exited <==> Replay(lines[..consumed], svc).mode == Exited
    ensures !exited ==> consumed == |lines|
    ensures forall i :: 0 <= i < |runs| ==> RunOk(runs[i])
  {
    var pos := 0;
    runs, summaries := [], [];
    while true
      invariant pos <= |lines|
      invariant Replay(lines[..pos], svc) == Trace(AskUrl, runs)
      invariant SummariesOf(runs, summaries, svc.model)
      decreases |lines| - pos
    {
      var end;
      runs, summaries, pos, end := SessionRound(lines, pos, runs, summaries, svc);
      if end.Over? {
        ReplaySound(lines[..pos], svc);
        SummariesBounded(runs, summaries, svc.model);
        return runs, summaries, pos, end.exited;
      }
    }
  }
}
