/**
 * The interactive command line of the search assistant: how a line read from
 * the user is classified, one iteration of the read-query loop, the whole
 * session, and the program run (initialise at start-up, loop, close the
 * server from the exit hook).
 */
module Cli {
  import opened Lifecycle
  import opened Assistant

  /** Python's `str.isspace` for one character. */
  predicate IsSpace(c: char) {
    ('\t' <= c <= '\r') || ('\U{1C}' <= c <= ' ') || c == '\U{85}' || c == '\U{A0}' ||
    c == '\U{1680}' || ('\U{2000}' <= c <= '\U{200A}') || c == '\U{2028}' || c == '\U{2029}' ||
    c == '\U{202F}' || c == '\U{205F}' || c == '\U{3000}'
  }

  predicate AllSpace(s: string) {
    forall i :: 0 <= i < |s| ==> IsSpace(s[i])
  }

  /** The length of the longest all-whitespace prefix. */
  function LeadingSpaces(s: string): (n: nat)
    ensures n <= |s| && AllSpace(s[..n])
    ensures n < |s| ==> !IsSpace(s[n])
  {
    if s == [] || !IsSpace(s[0]) then 0
    else
      var n := 1 + LeadingSpaces(s[1..]);
      assert forall i :: 1 <= i < n ==> s[..n][i] == s[1..][..n - 1][i - 1];
      n
  }

  /** The length of the longest all-whitespace suffix. */
  function TrailingSpaces(s: string): (n: nat)
    ensures n <= |s| && AllSpace(s[|s| - n..])
    ensures n < |s| ==> !IsSpace(s[|s| - n - 1])
  {
    if s == [] || !IsSpace(s[|s| - 1]) then 0
    else
      var init := s[..|s| - 1];
      var n := 1 + TrailingSpaces(init);
      assert s[|s| - n..] == init[|init| - (n - 1)..] + [s[|s| - 1]];
      n
  }

  /** `str.strip()`: the line without its leading and trailing whitespace. */
  function Strip(s: string): (r: string)
    ensures r == [] <==> AllSpace(s)
    ensures r != [] ==> !IsSpace(r[0]) && !IsSpace(r[|r| - 1])
    ensures LeadingSpaces(s) + |r| <= |s|
    ensures r == s[LeadingSpaces(s)..LeadingSpaces(s) + |r|]
    ensures AllSpace(s[..LeadingSpaces(s)]) && AllSpace(s[LeadingSpaces(s) + |r|..])
  {
    var lead := LeadingSpaces(s);
    if lead == |s| then
      assert s[..lead] == s;
      []
    else
      var trail := TrailingSpaces(s);
      assert lead < |s| - trail;
      assert !AllSpace(s) by {
        assert !IsSpace(s[lead]);
      }
      s[lead..|s| - trail]
  }

  /** Strip keeps exactly the part between an all-whitespace prefix and suffix
      whose own first and last characters are not whitespace, whichever way
      that part is found. */
  lemma StripIsUnique(s: string, i: nat, j: nat)
    requires i < j <= |s|
    requires AllSpace(s[..i]) && AllSpace(s[j..])
    requires !IsSpace(s[i]) && !IsSpace(s[j - 1])
    ensures Strip(s) == s[i..j]
  {
    assert LeadingSpaces(s) == i;
    assert TrailingSpaces(s) == |s| - j;
    assert !AllSpace(s) by { assert !IsSpace(s[i]); }
  }

  lemma StripIsIdempotent(s: string)
    ensures Strip(Strip(s)) == Strip(s)
  {
  }

  /** `str.lower()` for one character, on ASCII letters. */
  function LowerChar(c: char): char {
    if 'A' <= c <= 'Z' then (c as int - 'A' as int + 'a' as int) as char else c
  }

  /** `str.lower()`, character by character. */
  function Lower(s: string): (r: string)
    ensures |r| == |s|
    ensures forall i :: 0 <= i < |s| ==> r[i] == LowerChar(s[i])
  {
    if s == [] then [] else [LowerChar(s[0])] + Lower(s[1..])
  }

  /** The words that end the session, compared after lower-casing. */
  const ExitWords: seq<string> := ["exit", "quit", "bye", "goodbye"]

  datatype LineKind = Blank | Quit | Query(text: string)

  /** How the loop treats a line read from the user. */
  function Classify(line: string): (k: LineKind)
    // reprompt exactly on a line that is empty or whitespace only
    ensures k == Blank <==> AllSpace(line)
    // end exactly on an exit word, in any letter case, with any surrounding whitespace
    ensures k == Quit <==> !AllSpace(line) && Lower(Strip(line)) in ExitWords
    // otherwise the stripped line, never empty, is the query
    ensures k.Query? ==> k.text == Strip(line) && k.text != [] && Lower(k.text) !in ExitWords
  {
    var text := Strip(line);
    if text == [] then Blank
    else if Lower(text) in ExitWords then Quit
    else Query(text)
  }

  /** An exit word in upper, lower or mixed case, padded with whitespace, ends the session. */
  lemma PaddedExitWordQuits(before: string, word: string, after: string)
    requires AllSpace(before) && AllSpace(after)
    requires Lower(word) in ExitWords
    ensures Classify(before + word + after) == Quit
  {
    var line := before + word + after;
    var i, j := |before|, |before| + |word|;
    assert |word| > 0;
    assert !IsSpace(word[0]) by {
      assert Lower(word)[0] in "eqbg";
    }
    assert !IsSpace(word[|word| - 1]) by {
      assert Lower(word)[|word| - 1] in "ettye";
    }
    assert line[..i] == before;
    assert line[j..] == after;
    assert line[i] == word[0] && line[j - 1] == word[|word| - 1];
    StripIsUnique(line, i, j);
    assert line[i..j] == word;
  }

  /** What one read of `input()` gives: a line (with what `agent(query)` would
      do if the line is a query), a keyboard interrupt, or end of input. */
  datatype Event = Line(text: string, answer: Step<string>) | Interrupt | EndOfInput

  datatype Control = Continue | Stop

  /** The events that end the session. */
  predicate EndsSession(ev: Event) {
    ev.Interrupt? || ev.EndOfInput? || (ev.Line? && Classify(ev.text) == Quit)
  }

  /** One iteration of the loop, with end of input ending the session. */
  function Iterate(s: State, cfg: Config, st: InitSteps, ev: Event): (t: Transition<Control>)
    // the loop stops exactly on an exit word, an interrupt or end of input, and then does nothing
    ensures t.result == Stop <==> EndsSession(ev)
    ensures t.result == Stop ==> t == Transition(s, Stop, [])
    // a blank line only reprompts
    ensures ev.Line? && Classify(ev.text) == Blank ==> t == Transition(s, Continue, [])
    // a query goes to `search_assistant` stripped; whatever it raises, the loop goes on
    ensures ev.Line? && Classify(ev.text).Query? ==>
              t.next == AskStep(s, cfg, st, Strip(ev.text), ev.answer).next &&
              t.calls == AskStep(s, cfg, st, Strip(ev.text), ev.answer).calls
  {
    match ev
    case Interrupt => Transition(s, Stop, [])
    case EndOfInput => Transition(s, Stop, [])
    case Line(text, answer) =>
      match Classify(text)
      case Blank => Transition(s, Continue, [])
      case Quit => Transition(s, Stop, [])
      case Query(q) =>
        var asked := AskStep(s, cfg, st, q, answer);
        Transition(asked.next, Continue, asked.calls)
  }

  /** One iteration as the source writes it: `input()` raising EOFError is
      caught by the generic handler and the loop goes round again. */
  function IterateAsWritten(s: State, cfg: Config, st: InitSteps, ev: Event): (t: Transition<Control>)
    ensures ev.EndOfInput? ==> t.result == Continue && t.next == s && t.calls == []
    ensures !ev.EndOfInput? ==> t == Iterate(s, cfg, st, ev)
  {
    if ev.EndOfInput? then Transition(s, Continue, []) else Iterate(s, cfg, st, ev)
  }

  /** Once the input is exhausted every read is end of input again; as written,
      each such iteration leaves the state and the input as they were and does
      not stop, so the loop never ends. */
  lemma AsWrittenEndOfInputNeverStops(s: State, cfg: Config, st: InitSteps)
    ensures IterateAsWritten(s, cfg, st, EndOfInput) == Transition(s, Continue, [])
    ensures Iterate(s, cfg, st, EndOfInput) == Transition(s, Stop, [])
  {
  }

  /** How a session ended: the state, how many reads were made, and whether
      the loop stopped (rather than the given input running out). */
  datatype SessionEnd = SessionEnd(final: State, read: nat, stopped: bool)

  /** The read-query loop over a sequence of reads. */
  function ReplRun(s: State, cfg: Config, st: InitSteps, events: seq<Event>): (e: SessionEnd)
    ensures e.read <= |events|
    ensures !e.stopped ==> e.read == |events|
    // the loop stops at the first ending event and at no earlier read
    ensures e.stopped ==> 0 < e.read && EndsSession(events[e.read - 1])
    ensures forall i :: 0 <= i < e.read - (if e.stopped then 1 else 0) ==> !EndsSession(events[i])
    decreases |events|
  {
    if events == [] then SessionEnd(s, 0, false)
    else
      var t := Iterate(s, cfg, st, events[0]);
      if t.result == Stop then SessionEnd(t.next, 1, true)
      else
        var rest := ReplRun(t.next, cfg, st, events[1..]);
        assert forall i :: 1 <= i < |events| ==> events[i] == events[1..][i - 1];
        SessionEnd(rest.final, rest.read + 1, rest.stopped)
  }

  /** After a successful start-up no query, failing or not, tears down the
      agent or the server, or initialises again. */
  lemma {:induction false} SessionKeepsState(s: State, cfg: Config, st: InitSteps, events: seq<Event>)
    requires s.agent.Some?
    ensures ReplRun(s, cfg, st, events).final == s
    decreases |events|
  {
    if events != [] {
      var t := Iterate(s, cfg, st, events[0]);
      assert t.next == s;
      if t.result != Stop {
        SessionKeepsState(t.next, cfg, st, events[1..]);
      }
    }
  }

  /** An end of input ends the session at once. */
  lemma EndOfInputEndsSession(s: State, cfg: Config, st: InitSteps, rest: seq<Event>)
    ensures ReplRun(s, cfg, st, [EndOfInput] + rest) == SessionEnd(s, 1, true)
  {
  }

  /** The read-query loop as the source writes it: end of input does not end it. */
  function ReplRunAsWritten(s: State, cfg: Config, st: InitSteps, events: seq<Event>): (e: SessionEnd)
    ensures e.read <= |events|
    ensures !e.stopped ==> e.read == |events|
    // only an exit word or an interrupt stops it, at the first such read
    ensures e.stopped ==> 0 < e.read && EndsSession(events[e.read - 1]) && !events[e.read - 1].EndOfInput?
    ensures forall i :: 0 <= i < e.read - (if e.stopped then 1 else 0) ==>
              !EndsSession(events[i]) || events[i].EndOfInput?
    decreases |events|
  {
    if events == [] then SessionEnd(s, 0, false)
    else
      var t := IterateAsWritten(s, cfg, st, events[0]);
      if t.result == Stop then SessionEnd(t.next, 1, true)
      else
        var rest := ReplRunAsWritten(t.next, cfg, st, events[1..]);
        assert forall i :: 1 <= i < |events| ==> events[i] == events[1..][i - 1];
        SessionEnd(rest.final, rest.read + 1, rest.stopped)
  }

  /** Once the input is exhausted every read is end of input again; as written,
      however many such reads are made, the loop does not stop and nothing
      changes, so the loop never ends. */
  lemma {:induction false} AsWrittenSessionNeverEnds(s: State, cfg: Config, st: InitSteps, n: nat)
    ensures ReplRunAsWritten(s, cfg, st, seq(n, _ => EndOfInput)) == SessionEnd(s, n, false)
    decreases n
  {
    if n > 0 {
      var events: seq<Event> := seq(n, _ => EndOfInput);
      assert events[0] == EndOfInput;
      assert events[1..] == seq(n - 1, _ => EndOfInput);
      AsWrittenSessionNeverEnds(s, cfg, st, n - 1);
    }
  }

  /** The while loop of the program, driving the assistant object. */
  method Session(app: SearchAssistant, cfg: Config, st: InitSteps, events: seq<Event>) returns (read: nat, stopped: bool)
    modifies app
    ensures SessionEnd(app.Snapshot(), read, stopped) == ReplRun(old(app.Snapshot()), cfg, st, events)
  {
    read, stopped := 0, false;
    while read < |events|
      invariant read <= |events|
      invariant var r := ReplRun(app.Snapshot(), cfg, st, events[read..]);
        ReplRun(old(app.Snapshot()), cfg, st, events) == SessionEnd(r.final, read + r.read, r.stopped)
      decreases |events| - read
    {
      var ev := events[read];
      assert events[read..][0] == ev && events[read..][1..] == events[read + 1..];
      var stop := false;
      match ev {
        case Interrupt =>
          stop := true;
        case EndOfInput =>
          stop := true;
        case Line(text, answer) =>
          match Classify(text) {
            case Blank =>
            case Quit =>
              stop := true;
            case Query(q) =>
              // the reply and any error are reported and the loop goes on
              var reply, calls := app.Ask(q, cfg, st, answer);
          }
      }
      read := read + 1;
      if stop {
        stopped := true;
        break;
      }
    }
  }

  /** How the program ended: its exit status and the final state. */
  datatype CliEnd = CliEnd(exitCode: int, final: State)

  /** The program: initialise at start-up (exit status 1 on failure), run the
      loop, and let the exit hook close the server. An error raised by the
      hook's close does not change the exit status. */
  function Program(s: State, cfg: Config, startSteps: InitSteps, querySteps: InitSteps,
                   events: seq<Event>, shutdownExit: Step<()>): (e: CliEnd)
    ensures e.exitCode == (if EnsureStep(s, cfg, startSteps).result.Err? then 1 else 0)
    ensures e.final.agent == EnsureStep(s, cfg, startSteps).next.agent
  {
    var start := EnsureStep(s, cfg, startSteps);
    if start.result.Err? then
      CliEnd(1, CloseStep(start.next, shutdownExit).next)
    else
      var session := ReplRun(start.next, cfg, querySteps, events);
      SessionKeepsState(start.next, cfg, querySteps, events);
      CliEnd(0, CloseStep(session.final, shutdownExit).next)
  }

  /** From a fresh process, when no `__exit__` raises, the program ends holding
      no server, having entered at most one and exited every one it entered. */
  lemma ProgramReleasesServer(cfg: Config, startSteps: InitSteps, querySteps: InitSteps,
                              events: seq<Event>, shutdownExit: Step<()>)
    requires startSteps.rollbackExit.Done? && shutdownExit.Done?
    ensures var e := Program(Initial, cfg, startSteps, querySteps, events, shutdownExit);
      e.final.server.None? && e.final.exits == e.final.enters && e.final.enters <= 1
  {
    var start := EnsureStep(Initial, cfg, startSteps);
    if start.result.Ok? {
      SessionKeepsState(start.next, cfg, querySteps, events);
    }
  }

  /** The program run against the assistant object. */
  method RunProgram(app: SearchAssistant, cfg: Config, startSteps: InitSteps, querySteps: InitSteps,
                    events: seq<Event>, shutdownExit: Step<()>) returns (exitCode: int)
    modifies app
    ensures CliEnd(exitCode, app.Snapshot()) == Program(old(app.Snapshot()), cfg, startSteps, querySteps, events, shutdownExit)
  {
    var status, calls := app.EnsureSearchAgentInitialized(cfg, startSteps);
    if status.Err? {
      exitCode := 1;
    } else {
      var read, stopped := Session(app, cfg, querySteps, events);
      exitCode := 0;
    }
    // the exit hook registered at import
    var closed, closeCalls := app.CloseMcpServer(shutdownExit);
  }
}
