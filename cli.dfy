/** The command-line front end (make_it_heavy.py): the elapsed-time text, the
    per-agent progress bars, the classification of an input line and the
    handling of `switch <model>`. Terminal output, the clock and the display
    thread are not part of the model; the texts they would show are. */
module Cli {
  import opened Wrappers
  import opened Text
  import opened ModelFactory
  import opened Aggregation
  import opened Orchestrator

  // ---------------------------------------------------------------- elapsed time

  /** The three shapes of the elapsed-time text. */
  datatype Clock = Secs(s: nat) | MinSecs(m: nat, s: nat) | HourMins(h: nat, m: nat)

  /** The split `format_time` makes of a whole number of seconds. */
  function Split(seconds: nat): (c: Clock)
    ensures seconds < 60 ==> c == Secs(seconds)
    ensures 60 <= seconds < 3600 ==> c.MinSecs? && c.m * 60 + c.s == seconds && c.s < 60 && 1 <= c.m < 60
    ensures 3600 <= seconds ==> c.HourMins? && 1 <= c.h && c.m < 60 &&
                                c.h * 3600 + c.m * 60 <= seconds < c.h * 3600 + c.m * 60 + 60
  {
    if seconds < 60 then Secs(seconds)
    else if seconds < 3600 then MinSecs(seconds / 60, seconds % 60)
    else HourMins(seconds / 3600, (seconds % 3600) / 60)
  }

  function Render(c: Clock): string {
    match c
    case Secs(s) => NatToString(s) + "S"
    case MinSecs(m, s) => NatToString(m) + "M" + NatToString(s) + "S"
    case HourMins(h, m) => NatToString(h) + "H" + NatToString(m) + "M"
  }

  /** `format_time` on whole seconds. */
  function FormatTime(seconds: nat): string {
    Render(Split(seconds))
  }

  /** Two decimal numbers around a separator. */
  function Around(body: string, sep: char): (r: Option<(nat, nat)>)
  {
    match IndexOf(body, sep)
    case Some(k) =>
      if AllDigits(body[..k]) && AllDigits(body[k + 1..]) then Some((ParseNat(body[..k]), ParseNat(body[k + 1..])))
      else None
    case None => None
  }

  lemma AroundJoin(a: nat, sep: char, b: nat)
    requires !IsDigit(sep)
    ensures Around(NatToString(a) + [sep] + NatToString(b), sep) == Some((a, b))
  {
    var x := NatToString(a);
    var y := NatToString(b);
    var body := x + [sep] + y;
    IndexOfAfterDigits(x, sep, y);
    assert body[..|x|] == x && body[|x| + 1..] == y;
    ParseNatToString(a);
    ParseNatToString(b);
  }

  /** Reads an elapsed-time text back: digits and 'S'; digits, 'M', digits and 'S'; or
      digits, 'H', digits and 'M'. */
  function ParseTime(text: string): Option<Clock> {
    if |text| >= 1 && text[|text| - 1] == 'S' then
      var body := text[..|text| - 1];
      if 'M' in body then
        match Around(body, 'M')
        case Some(p) => Some(MinSecs(p.0, p.1))
        case None => None
      else if AllDigits(body) then Some(Secs(ParseNat(body)))
      else None
    else if |text| >= 1 && text[|text| - 1] == 'M' then
      match Around(text[..|text| - 1], 'H')
      case Some(p) => Some(HourMins(p.0, p.1))
      case None => None
    else None
  }

  /** Every rendered split reads back as itself. */
  lemma ParseRender(c: Clock)
    ensures ParseTime(Render(c)) == Some(c)
  {
    var text := Render(c);
    var body := text[..|text| - 1];
    match c
    case Secs(s) =>
      assert body == NatToString(s);
      assert 'M' !in body;
      ParseNatToString(s);
    case MinSecs(m, s) =>
      assert body == NatToString(m) + ['M'] + NatToString(s);
      assert body[|NatToString(m)|] == 'M';
      AroundJoin(m, 'M', s);
    case HourMins(h, m) =>
      assert text == NatToString(h) + ['H'] + NatToString(m) + ['M'];
      assert body == NatToString(h) + ['H'] + NatToString(m);
      AroundJoin(h, 'H', m);
  }

  /** The seconds a split accounts for. */
  function Total(c: Clock): nat {
    match c
    case Secs(s) => s
    case MinSecs(m, s) => m * 60 + s
    case HourMins(h, m) => h * 3600 + m * 60
  }

  /** The text gives back the elapsed time exactly below an hour; from an hour on it
      drops only the seconds. */
  lemma FormatTimeReadsBack(seconds: nat)
    ensures ParseTime(FormatTime(seconds)).Some?
    ensures seconds < 3600 ==> Total(ParseTime(FormatTime(seconds)).value) == seconds
    ensures 3600 <= seconds ==> Total(ParseTime(FormatTime(seconds)).value) <= seconds <
                                Total(ParseTime(FormatTime(seconds)).value) + 60
  {
    ParseRender(Split(seconds));
  }

  // ---------------------------------------------------------------- progress bars

  const Esc := '\U{1B}'
  const Orange := "\U{1B}[38;5;208m"
  const Red := "\U{1B}[91m"
  const Reset := "\U{1B}[0m"
  const Dot := '\U{B7}'

  /** `create_progress_bar`. */
  function ProgressBar(status: string): string {
    if status == "QUEUED" then "\U{25CB} " + Repeat([Dot], 70)
    else if status == "INITIALIZING..." then Orange + "\U{25D0}" + Reset + " " + Repeat([Dot], 70)
    else if status == "PROCESSING..." then
      Orange + "\U{25CF}" + Reset + " " + (Repeat(Orange + ":", 10) + Reset + Repeat([Dot], 60))
    else if status == "COMPLETED" then Orange + "\U{25CF}" + Reset + " " + (Repeat(Orange + ":", 70) + Reset)
    else if StartsWith(status, "FAILED") then Red + "\U{2717}" + Reset + " " + (Repeat(Red + "\U{D7}", 70) + Reset)
    else Orange + "\U{25D0}" + Reset + " " + Repeat([Dot], 70)
  }

  /** The characters a terminal shows, reading `s` left to right; `inCode` holds inside an
      escape sequence, which runs from ESC up to and including the next 'm'. */
  function Shown(s: string, inCode: bool): string
    decreases |s|
  {
    if s == [] then ""
    else if inCode then Shown(s[1..], s[0] != 'm')
    else if s[0] == Esc then Shown(s[1..], true)
    else [s[0]] + Shown(s[1..], false)
  }

  /** The text a terminal shows: every escape sequence is removed. */
  function Visible(s: string): string {
    Shown(s, false)
  }

  /** What each status shows, colours aside: a glyph, a space and 70 fill characters. */
  function VisibleBar(status: string): (shown: string)
    ensures |shown| == 72 && shown[1] == ' '
  {
    RepeatLength([Dot], 70);
    RepeatLength(":", 70);
    RepeatLength(":", 10);
    RepeatLength([Dot], 60);
    RepeatLength("\U{D7}", 70);
    if status == "QUEUED" then "\U{25CB} " + Repeat([Dot], 70)
    else if status == "PROCESSING..." then "\U{25CF} " + Repeat(":", 10) + Repeat([Dot], 60)
    else if status == "COMPLETED" then "\U{25CF} " + Repeat(":", 70)
    else if StartsWith(status, "FAILED") then "\U{2717} " + Repeat("\U{D7}", 70)
    else "\U{25D0} " + Repeat([Dot], 70)
  }

  /** An escape sequence: ESC, then anything but 'm', then 'm'. */
  predicate IsCode(code: string) {
    |code| >= 2 && code[0] == Esc && code[|code| - 1] == 'm' && 'm' !in code[..|code| - 1]
  }

  lemma VisibleCode(code: string, rest: string)
    requires IsCode(code)
    ensures Visible(code + rest) == Visible(rest)
  {
    assert (code + rest)[1..] == code[1..] + rest;
    assert code[1..][..|code[1..]| - 1] == code[1..|code| - 1];
    InsideCode(code[1..], rest);
  }

  /** Inside an escape sequence, everything up to the closing 'm' is hidden. */
  lemma {:induction false} InsideCode(t: string, rest: string)
    requires |t| >= 1 && t[|t| - 1] == 'm' && 'm' !in t[..|t| - 1]
    ensures Shown(t + rest, true) == Shown(rest, false)
    decreases |t|
  {
    assert (t + rest)[1..] == t[1..] + rest;
    if t[0] == 'm' {
      assert t[1..] == [];
    } else {
      assert t[1..][..|t[1..]| - 1] == t[..|t| - 1][1..];
      InsideCode(t[1..], rest);
    }
  }

  lemma VisibleChar(c: char, rest: string)
    requires c != Esc
    ensures Visible([c] + rest) == [c] + Visible(rest)
  {
    assert ([c] + rest)[1..] == rest;
  }

  lemma {:induction false} VisiblePlain(t: string, rest: string)
    requires Esc !in t
    ensures Visible(t + rest) == t + Visible(rest)
    decreases |t|
  {
    if t == [] {
      assert t + rest == rest;
    } else {
      assert t + rest == [t[0]] + (t[1..] + rest);
      assert t[0] in t;
      VisibleChar(t[0], t[1..] + rest);
      assert Esc !in t[1..] by {
        forall i | 0 <= i < |t[1..]| ensures t[1..][i] != Esc {
          assert t[1..][i] == t[i + 1];
        }
      }
      VisiblePlain(t[1..], rest);
      assert [t[0]] + t[1..] == t;
    }
  }

  lemma {:induction false} VisibleColoured(code: string, c: char, n: nat, rest: string)
    requires IsCode(code) && c != Esc
    ensures Visible(Repeat(code + [c], n) + rest) == Repeat([c], n) + Visible(rest)
  {
    if n == 0 {
      assert Repeat(code + [c], n) + rest == rest;
    } else {
      var unit := code + [c];
      var tail := Repeat(unit, n - 1) + rest;
      RepeatThen(unit, n, rest);
      VisibleOneColoured(code, c, tail);
      VisibleColoured(code, c, n - 1, rest);
      RepeatThen([c], n, Visible(rest));
    }
  }

  lemma RepeatThen(unit: string, n: nat, rest: string)
    requires n > 0
    ensures Repeat(unit, n) + rest == unit + (Repeat(unit, n - 1) + rest)
  {
  }

  lemma VisibleOneColoured(code: string, c: char, tail: string)
    requires IsCode(code) && c != Esc
    ensures Visible(code + [c] + tail) == [c] + Visible(tail)
  {
    assert code + [c] + tail == code + ([c] + tail);
    VisibleCode(code, [c] + tail);
    VisibleChar(c, tail);
  }

  lemma {:induction false} NoEscInRepeat(c: char, n: nat)
    requires c != Esc
    ensures Esc !in Repeat([c], n)
  {
    if n > 0 {
      NoEscInRepeat(c, n - 1);
    }
  }

  lemma Codes()
    ensures IsCode(Orange) && IsCode(Red) && IsCode(Reset)
  {
    assert Orange[..|Orange| - 1] == ['\U{1B}', '[', '3', '8', ';', '5', ';', '2', '0', '8'];
    assert Red[..|Red| - 1] == ['\U{1B}', '[', '9', '1'];
    assert Reset[..|Reset| - 1] == ['\U{1B}', '[', '0'];
  }

  /** `glyph` between two codes, a space, then `tail`: shows as glyph, space, tail. */
  lemma VisibleHead(code: string, glyph: char, tail: string)
    requires IsCode(code) && glyph != Esc
    ensures Visible(code + [glyph] + Reset + " " + tail) == [glyph] + " " + Visible(tail)
  {
    Codes();
    assert code + [glyph] + Reset + " " + tail == code + ([glyph] + (Reset + ([' '] + tail)));
    VisibleCode(code, [glyph] + (Reset + ([' '] + tail)));
    VisibleChar(glyph, Reset + ([' '] + tail));
    VisibleCode(Reset, [' '] + tail);
    VisibleChar(' ', tail);
  }

  /** An orange bar of `k` colons and then `m` dots shows as those characters. */
  lemma ShowsColons(glyph: char, k: nat, m: nat)
    requires glyph != Esc
    ensures Visible(Orange + [glyph] + Reset + " " + (Repeat(Orange + ":", k) + Reset + Repeat([Dot], m))) ==
            [glyph] + " " + Repeat(":", k) + Repeat([Dot], m)
  {
    Codes();
    VisibleHead(Orange, glyph, Repeat(Orange + ":", k) + Reset + Repeat([Dot], m));
    ColonsThenDots(k, m);
  }

  lemma ColonsThenDots(k: nat, m: nat)
    ensures Visible(Repeat(Orange + ":", k) + Reset + Repeat([Dot], m)) == Repeat(":", k) + Repeat([Dot], m)
  {
    Codes();
    NoEscInRepeat(Dot, m);
    var dots := Repeat([Dot], m);
    assert Repeat(Orange + ":", k) + Reset + dots == Repeat(Orange + [':'], k) + (Reset + dots);
    VisibleColoured(Orange, ':', k, Reset + dots);
    VisibleCode(Reset, dots);
    VisiblePlain(dots, "");
    assert dots + "" == dots;
  }

  lemma ShowsProcessing()
    ensures Visible(ProgressBar("PROCESSING...")) == VisibleBar("PROCESSING...")
  {
    ShowsColons('\U{25CF}', 10, 60);
  }

  /** A bar of `k` coloured copies of `c` shows as `k` copies of `c`. */
  lemma {:induction false} ShowsFull(code: string, glyph: char, c: char, k: nat)
    requires IsCode(code) && glyph != Esc && c != Esc
    ensures Visible(code + [glyph] + Reset + " " + (Repeat(code + [c], k) + Reset)) == [glyph] + " " + Repeat([c], k)
  {
    Codes();
    var tail := Repeat(code + [c], k) + Reset;
    VisibleHead(code, glyph, tail);
    VisibleColoured(code, c, k, Reset);
    VisibleCode(Reset, "");
    assert Reset + "" == Reset;
  }

  lemma ShowsCompleted()
    ensures Visible(ProgressBar("COMPLETED")) == VisibleBar("COMPLETED")
  {
    Codes();
    ShowsFull(Orange, '\U{25CF}', ':', 70);
  }

  lemma ShowsFailed(status: string)
    requires StartsWith(status, "FAILED")
    ensures Visible(ProgressBar(status)) == VisibleBar(status)
  {
    Codes();
    FailedIsRed(status);
    ShowsFull(Red, '\U{2717}', '\U{D7}', 70);
  }

  lemma ShowsHalfCircle(status: string)
    requires ProgressBar(status) == Orange + ['\U{25D0}'] + Reset + " " + Repeat([Dot], 70)
    ensures Visible(ProgressBar(status)) == "\U{25D0} " + Repeat([Dot], 70)
  {
    Codes();
    NoEscInRepeat(Dot, 70);
    VisibleHead(Orange, '\U{25D0}', Repeat([Dot], 70));
    VisiblePlain(Repeat([Dot], 70), "");
    assert Repeat([Dot], 70) + "" == Repeat([Dot], 70);
  }

  lemma ShowsQueued()
    ensures Visible(ProgressBar("QUEUED")) == VisibleBar("QUEUED")
  {
    assert "\U{25CB} " == ['\U{25CB}'] + " ";
    ShowsPlain('\U{25CB}', 70);
  }

  lemma {:induction false} ShowsPlain(glyph: char, k: nat)
    requires glyph != Esc
    ensures Visible([glyph] + " " + Repeat([Dot], k)) == [glyph] + " " + Repeat([Dot], k)
  {
    NoEscInRepeat(Dot, k);
    var t := [glyph] + " " + Repeat([Dot], k);
    assert Esc !in t by {
      forall i | 0 <= i < |t| ensures t[i] != Esc {
        if i >= 2 {
          assert t[i] == Repeat([Dot], k)[i - 2];
        }
      }
    }
    VisiblePlain(t, "");
    assert t + "" == t;
  }

  /** Every bar shows, colours aside, exactly what `VisibleBar` says: a glyph, a space and
      70 fill characters. */
  lemma BarShows(status: string)
    ensures Visible(ProgressBar(status)) == VisibleBar(status)
  {
    if status == "QUEUED" {
      ShowsQueued();
    } else if status == "PROCESSING..." {
      ShowsProcessing();
    } else if status == "COMPLETED" {
      ShowsCompleted();
    } else if status != "INITIALIZING..." && StartsWith(status, "FAILED") {
      ShowsFailed(status);
    } else {
      if status == "INITIALIZING..." {
        assert !StartsWith(status, "FAILED") by {
          assert status[0] == 'I';
        }
      }
      ShowsHalfCircle(status);
    }
  }

  /** A status the bar does not know is drawn exactly like "INITIALIZING...". */
  lemma UnknownStatusLooksInitializing(status: string)
    requires status !in ["QUEUED", "INITIALIZING...", "PROCESSING...", "COMPLETED"]
    requires !StartsWith(status, "FAILED")
    ensures ProgressBar(status) == ProgressBar("INITIALIZING...")
  {
  }

  /** Every status beginning with "FAILED" gets the same red bar. */
  lemma FailedIsRed(status: string)
    requires StartsWith(status, "FAILED")
    ensures ProgressBar(status) == Red + ['\U{2717}'] + Reset + " " + (Repeat(Red + "\U{D7}", 70) + Reset)
    ensures StartsWith(ProgressBar(status), Red)
  {
    assert status[0] == 'F';
    var bar := ProgressBar(status);
    assert bar[..|Red|] == Red;
  }

  /** `progress.get(i, "QUEUED")`: an agent missing from the snapshot shows as queued. */
  function DisplayedStatus(progress: map<int, string>, agentId: int): (status: string)
    ensures agentId !in progress ==> status == "QUEUED"
    ensures agentId in progress ==> status == progress[agentId]
  {
    if agentId in progress then progress[agentId] else "QUEUED"
  }

  /** One agent's line of the display. */
  function AgentLine(progress: map<int, string>, agentId: nat): string {
    "AGENT " + Pad2(agentId + 1) + "  " + ProgressBar(DisplayedStatus(progress, agentId))
  }

  /** On screen an agent's line is its number from 1, two digits at least, and its bar;
      below agent 99 every line has the same width. */
  lemma AgentLineShows(progress: map<int, string>, agentId: nat)
    ensures var shown := Visible(AgentLine(progress, agentId));
            shown == "AGENT " + Pad2(agentId + 1) + "  " + VisibleBar(DisplayedStatus(progress, agentId))
    ensures agentId < 99 ==> |Visible(AgentLine(progress, agentId))| == 82
    ensures ParseNat(Pad2(agentId + 1)) == agentId + 1
  {
    var number := Pad2(agentId + 1);
    var head := "AGENT " + number + "  ";
    assert Esc !in head by {
      forall i | 0 <= i < |head| ensures head[i] != Esc {
        if 6 <= i < 6 + |number| {
          assert head[i] == number[i - 6];
        }
      }
    }
    VisiblePlain(head, ProgressBar(DisplayedStatus(progress, agentId)));
    BarShows(DisplayedStatus(progress, agentId));
    if agentId < 99 {
      assert |NatToString(agentId + 1)| <= 2 by {
        if agentId + 1 >= 10 {
          assert NatToString(agentId + 1) == NatToString((agentId + 1) / 10) + [DigitChar((agentId + 1) % 10)];
        }
      }
    }
  }

  /** Once every agent has finished (the monitor's draws while aggregation runs), an agent
      whose record is an error is drawn as processing: the progress map never holds a
      failed state. */
  lemma FailedAgentShowsProcessing(env: Environment, agentModel: string, subtasks: seq<string>, n: int, agentId: nat)
    requires agentId < n && agentId < |subtasks|
    requires WorkerRecord(env, agentModel, agentId, subtasks[agentId]).status == Error
    ensures DisplayedStatus(FinalProgress(env, agentModel, subtasks, n), agentId) == "PROCESSING..."
    ensures Visible(ProgressBar(DisplayedStatus(FinalProgress(env, agentModel, subtasks, n), agentId))) ==
            VisibleBar("PROCESSING...")
  {
    BarShows("PROCESSING...");
  }

  // ---------------------------------------------------------------- commands

  datatype Command = Quit | ListModels | SwitchModel(model: string) | Reprompt | RunTask(query: string)

  /** The branches of the interactive loop, tried in order on the stripped input line. */
  function Classify(line: string): (command: Command)
    ensures command.Quit? <==> Lower(Strip(line)) in ["quit", "exit", "bye"]
    ensures command.ListModels? <==> Lower(Strip(line)) == "models"
    ensures command.SwitchModel? <==> StartsWith(Lower(Strip(line)), "switch ")
    ensures command.SwitchModel? ==> command.model == Strip(Strip(line)[7..])
    ensures command.Reprompt? <==> Strip(line) == ""
    ensures command.RunTask? ==> command.query == Strip(line) && command.query != ""
  {
    var input := Strip(line);
    var lowered := Lower(input);
    if lowered in ["quit", "exit", "bye"] then Quit
    else if lowered == "models" then ListModels
    else if StartsWith(lowered, "switch ") then SwitchModel(Strip(input[7..]))
    else if input == "" then Reprompt
    else RunTask(input)
  }

  /** "switch" needs the space: a bare "switch", however padded, runs as a query. */
  lemma BareSwitchIsQuery(padding: string)
    requires forall i :: 0 <= i < |padding| ==> IsSpace(padding[i])
    ensures Classify("switch" + padding) == RunTask("switch")
  {
    StripPadded("switch", padding);
    LowerSwitch();
  }

  lemma LowerSwitch()
    ensures Lower("switch") == "switch"
  {
    assert forall i :: 0 <= i < 6 ==> LowerChar("switch"[i]) == "switch"[i];
  }

  /** Strip removes trailing whitespace after a word that starts and ends with a non-space. */
  lemma StripPadded(word: string, padding: string)
    requires |word| >= 1 && !IsSpace(word[0]) && !IsSpace(word[|word| - 1])
    requires forall i :: 0 <= i < |padding| ==> IsSpace(padding[i])
    ensures Strip(word + padding) == word
  {
    assert (word + padding)[0] == word[0];
    assert TrimStart(word + padding) == word + padding;
    TrimEndKeepsNonSpace(word, padding);
  }

  lemma {:induction false} TrimEndKeepsNonSpace(a: string, padding: string)
    requires |a| >= 1 && !IsSpace(a[|a| - 1])
    requires forall i :: 0 <= i < |padding| ==> IsSpace(padding[i])
    ensures TrimEnd(a + padding) == a
    decreases |padding|
  {
    if padding != [] {
      var p := padding[..|padding| - 1];
      assert (a + padding)[..|a + padding| - 1] == a + p;
      TrimEndKeepsNonSpace(a, p);
    } else {
      assert a + padding == a;
    }
  }

  /** "switch " in any letter case, then a name: the name keeps its case and loses only
      its surrounding whitespace. */
  lemma SwitchKeepsName(keyword: string, name: string, k: nat)
    requires |keyword| == 6 && Lower(keyword) == "switch"
    requires k < |name| && !IsSpace(name[k])
    ensures Classify(keyword + " " + name) == SwitchModel(Strip(name))
  {
    StripAfterKeyword(keyword, name, k);
    var input := keyword + " " + TrimEnd(name);
    KeywordLowered(keyword, TrimEnd(name));
    assert input[7..] == TrimEnd(name);
    StripTrimEnd(name);
  }

  lemma StripAfterKeyword(keyword: string, name: string, k: nat)
    requires |keyword| == 6 && Lower(keyword) == "switch"
    requires k < |name| && !IsSpace(name[k])
    ensures Strip(keyword + " " + name) == keyword + " " + TrimEnd(name)
  {
    var line := keyword + " " + name;
    assert !IsSpace(line[0]) by {
      assert LowerChar(keyword[0]) == Lower(keyword)[0] == 's';
    }
    assert TrimStart(line) == line;
    TrimEndAppend(keyword + " ", name, k);
  }

  lemma KeywordLowered(keyword: string, rest: string)
    requires |keyword| == 6 && Lower(keyword) == "switch"
    ensures StartsWith(Lower(keyword + " " + rest), "switch ")
  {
    var input := keyword + " " + rest;
    forall i | 0 <= i < 6
      ensures Lower(input)[i] == "switch "[i]
    {
      assert input[i] == keyword[i];
    }
    assert Lower(input)[6] == ' ';
  }

  // ---------------------------------------------------------------- the front end's own state

  /** The header before any switch: the agent model in capitals, with hyphens as spaces. */
  function InitialDisplay(agentModel: string): string {
    "KIMI-K2 HEAVY (Agents: " + ReplaceChar(Upper(agentModel), '-', ' ') + ")"
  }

  /** The header after a successful switch: the name in capitals, hyphens kept. */
  function SwitchedDisplay(modelName: string): string {
    "KIMI-K2 HEAVY (Agents: " + Upper(modelName) + ")"
  }

  /** The same model reads differently before and after a switch to it when its key has
      a hyphen. */
  lemma DisplaysDifferOnHyphen(model: string, i: nat)
    requires i < |model| && model[i] == '-'
    ensures InitialDisplay(model) != SwitchedDisplay(model)
  {
    var prefix := "KIMI-K2 HEAVY (Agents: ";
    assert InitialDisplay(model)[|prefix| + i] == ' ';
    assert SwitchedDisplay(model)[|prefix| + i] == '-';
  }

  /** The `models` listing: every agent model, the current one marked. */
  function ModelsListing(agentModel: string): (lines: seq<string>)
    ensures |lines| == |GetAgentModels()|
    ensures forall i :: 0 <= i < |lines| ==> StartsWith(lines[i], "  - " + GetAgentModels()[i])
  {
    var models := GetAgentModels();
    seq(|models|, i requires 0 <= i < |models| =>
      "  - " + models[i] + (if models[i] == agentModel then " (current)" else ""))
  }

  /** Each line is the model's entry, with " (current)" after the agent model and nothing
      after the others; the models are distinct, so at most one line is marked. */
  lemma ListingMarksCurrent(agentModel: string)
    ensures var lines := ModelsListing(agentModel);
            forall i :: 0 <= i < |lines| ==>
              (lines[i] == "  - " + GetAgentModels()[i] + " (current)" <==> GetAgentModels()[i] == agentModel)
    ensures var lines := ModelsListing(agentModel);
            forall i :: 0 <= i < |lines| && GetAgentModels()[i] != agentModel ==> lines[i] == "  - " + GetAgentModels()[i]
    ensures forall i, j :: 0 <= i < j < |GetAgentModels()| ==> GetAgentModels()[i] != GetAgentModels()[j]
  {
    var lines := ModelsListing(agentModel);
    var models := GetAgentModels();
    forall i | 0 <= i < |lines|
      ensures lines[i] == "  - " + models[i] + " (current)" <==> models[i] == agentModel
    {
      if models[i] != agentModel {
        assert |lines[i]| == 4 + |models[i]|;
      }
    }
  }

  /** What `switch <model>` prints: the confirmation, or the error `set_agent_model` raised. */
  function SwitchMessage(modelName: string): string {
    if modelName in GetAgentModels() then "Agent model switched to: " + modelName
    else "Error: " + UnavailableMessage(modelName)
  }

  /** The answer `run_task` hands back: `None` for an exception, and also when the
      orchestration itself answered `None`. */
  function AsAnswer(r: Result<Answer, string>): (answer: Option<string>)
    ensures answer.Some? <==> r.Ok? && r.value.Some?
    ensures answer.Some? ==> answer.value == r.value.value
  {
    if r.Ok? then r.value else None
  }


  /** What one input line produces. */
  datatype Reaction = Exit | Printed(lines: seq<string>) | TaskDone(result: Option<string>)

  class OrchestratorCli {
    const orchestrator: TaskOrchestrator
    var modelDisplay: string

    constructor(config: Config, agentModel: Option<string>)
      ensures fresh(orchestrator) && orchestrator.Valid() && orchestrator.config == config
      ensures orchestrator.agentModel == if agentModel.Some? && agentModel.value != "" then agentModel.value
                                         else config.defaultAgentModel
      ensures orchestrator.agentProgress == map[] && orchestrator.agentResults == map[]
      ensures modelDisplay == InitialDisplay(orchestrator.agentModel)
    {
      orchestrator := new TaskOrchestrator(config, agentModel);
      new;
      var _, _, agent := orchestrator.GetCurrentConfig();
      modelDisplay := InitialDisplay(agent);
    }

    /** `switch <model>`: accepted only for a model offered for agents; then both the agent
        model and the header change, otherwise neither does. */
    method Switch(modelName: string) returns (message: string)
      modifies this, orchestrator
      ensures message == SwitchMessage(modelName)
      ensures modelName in GetAgentModels() ==>
                orchestrator.agentModel == modelName && modelDisplay == SwitchedDisplay(modelName)
      ensures modelName !in GetAgentModels() ==>
                orchestrator.agentModel == old(orchestrator.agentModel) && modelDisplay == old(modelDisplay)
      ensures orchestrator.agentProgress == old(orchestrator.agentProgress)
      ensures orchestrator.agentResults == old(orchestrator.agentResults)
    {
      var r := orchestrator.SetAgentModel(modelName);
      if r.Ok? {
        message := "Agent model switched to: " + modelName;
        modelDisplay := SwitchedDisplay(modelName);
      } else {
        message := "Error: " + r.error;
      }
    }

    /** One pass of the interactive loop on a classified input line (`Classify`). A task's
        answer, or `None` when orchestration raised or had no text. */
    method Handle(command: Command, env: Environment, order: seq<int>, finishedInTime: nat) returns (reaction: Reaction)
      requires orchestrator.Valid() && IsCompletionOrder(order, orchestrator.numAgents)
      modifies this, orchestrator
      ensures command.Quit? ==> reaction == Exit
      ensures command.ListModels? ==>
                reaction == Printed(["", "Available Agent Models:"] + ModelsListing(orchestrator.agentModel))
      ensures command.Reprompt? ==> reaction == Printed(["Please enter a question or command."])
      ensures command.RunTask? ==>
                reaction == TaskDone(AsAnswer(Outcome(env, orchestrator.config, old(orchestrator.agentModel), command.query,
                                                      finishedInTime)))
      ensures command.RunTask? && Decompose(env, orchestrator.orchestratorModel, command.query, orchestrator.numAgents).Err? ==>
                orchestrator.agentProgress == map[] && orchestrator.agentResults == map[]
      ensures command.RunTask? && Decompose(env, orchestrator.orchestratorModel, command.query, orchestrator.numAgents).Ok? ==>
                var subtasks := Decompose(env, orchestrator.orchestratorModel, command.query, orchestrator.numAgents).value;
                orchestrator.agentProgress == FinalProgress(env, old(orchestrator.agentModel), subtasks, orchestrator.numAgents) &&
                orchestrator.agentResults == FinalResults(env, old(orchestrator.agentModel), subtasks, orchestrator.numAgents)
      ensures !command.RunTask? ==>
                orchestrator.agentProgress == old(orchestrator.agentProgress) &&
                orchestrator.agentResults == old(orchestrator.agentResults)
      ensures !command.SwitchModel? ==> modelDisplay == old(modelDisplay)
      ensures !command.SwitchModel? ==> orchestrator.agentModel == old(orchestrator.agentModel)
      ensures command.SwitchModel? ==> reaction == Printed([SwitchMessage(command.model)])
      ensures command.SwitchModel? && command.model in GetAgentModels() ==>
                orchestrator.agentModel == command.model && modelDisplay == SwitchedDisplay(command.model)
      ensures command.SwitchModel? && command.model !in GetAgentModels() ==>
                orchestrator.agentModel == old(orchestrator.agentModel) && modelDisplay == old(modelDisplay)
    {
      match command
      case Quit =>
        reaction := Exit;
      case ListModels =>
        reaction := Printed(["", "Available Agent Models:"] + ModelsListing(orchestrator.agentModel));
      case SwitchModel(model) =>
        var message := Switch(model);
        reaction := Printed([message]);
      case Reprompt =>
        reaction := Printed(["Please enter a question or command."]);
      case RunTask(query) =>
        var result := RunTask(query, env, order, finishedInTime);
        reaction := TaskDone(result);
    }

    /** `run_task`: the orchestrator's answer, or `None` when it raised or had no text. */
    method RunTask(query: string, env: Environment, order: seq<int>, finishedInTime: nat) returns (result: Option<string>)
      requires orchestrator.Valid() && IsCompletionOrder(order, orchestrator.numAgents)
      modifies orchestrator
      ensures result == AsAnswer(Outcome(env, orchestrator.config, old(orchestrator.agentModel), query, finishedInTime))
      ensures orchestrator.agentModel == old(orchestrator.agentModel)
      ensures Decompose(env, orchestrator.orchestratorModel, query, orchestrator.numAgents).Err? ==>
                orchestrator.agentProgress == map[] && orchestrator.agentResults == map[]
      ensures Decompose(env, orchestrator.orchestratorModel, query, orchestrator.numAgents).Ok? ==>
                var subtasks := Decompose(env, orchestrator.orchestratorModel, query, orchestrator.numAgents).value;
                orchestrator.agentProgress == FinalProgress(env, old(orchestrator.agentModel), subtasks, orchestrator.numAgents) &&
                orchestrator.agentResults == FinalResults(env, old(orchestrator.agentModel), subtasks, orchestrator.numAgents)
    {
      var r := orchestrator.Orchestrate(env, query, order, finishedInTime);
      result := AsAnswer(r);
    }
  }
}
