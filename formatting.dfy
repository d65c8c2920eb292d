/**
 * The default text formatter. Terminal colouring, the clock and the process
 * id come in through an `Env`, so that the line structure can be stated
 * exactly while their contents stay uninterpreted.
 */
module Formatting {
  import opened Wrappers
  import opened Text
  import opened Messages

  /** The NotImplementedError a formatter raises for a message it cannot render. */
  datatype Unsupported = Unsupported

  /** The keyword arguments of a `color(...)` call: a foreground colour and an optional style. */
  datatype Style = Style(fg: string, style: Option<string>)

  /**
   * The outside world as the formatter sees it. `clock(i)` is the
   * date-time string read for the i-th line of one formatting call (the
   * clock is read once per line), `pid` is `str(os.getpid())`, and
   * `paint(s, st)` is `color(s, ...)`.
   */
  datatype Env = Env(clock: nat -> string, pid: string, paint: (string, Style) -> string)

  /** What every formatter is: a message renders to text, or is declined. */
  type Formatter = LogMessage -> Result<string, Unsupported>

  /** The separator between the four fields of a line. */
  const FieldSep: string := "  "

  /** The colouring of each level's label; only INFO is left uncoloured. */
  function LevelStyle(l: LogLevel): (r: Option<Style>)
    ensures r.None? <==> l == Info
  {
    match l
    case Debug => Some(Style("#555555", None))
    case Info => None
    case Warning => Some(Style("#ffff00", None))
    case Error => Some(Style("#ff0000", Some("bold")))
  }

  function Painted(env: Env, s: string, st: Option<Style>): string
  {
    if st.Some? then env.paint(s, st.value) else s
  }

  /**
   * The level label chosen by the closed case analysis of the formatter: a
   * member's name in its colour, and Unsupported for anything else.
   */
  function LevelLabel(env: Env, lv: LevelValue): (r: Result<string, Unsupported>)
    ensures r.Ok? <==> lv.Level?
    ensures lv.Level? ==> r.value == Painted(env, Name(lv.level), LevelStyle(lv.level))
    ensures lv == Level(Info) ==> r == Ok("INFO")
  {
    match lv
    case NotALevel(_) => Err(Unsupported)
    case Level(Debug) => Ok(env.paint("DEBUG", Style("#555555", None)))
    case Level(Info) => Ok("INFO")
    case Level(Warning) => Ok(env.paint("WARNING", Style("#ffff00", None)))
    case Level(Error) => Ok(env.paint("ERROR", Style("#ff0000", Some("bold"))))
  }

  /** `"[ {} ]".format(now)` for the i-th line. */
  function Stamp(env: Env, i: nat): string
  {
    "[ " + env.clock(i) + " ]"
  }

  /** The process id in parentheses, painted grey. */
  function PidTag(env: Env): string
  {
    env.paint("(" + env.pid + ")", Style("Gray", None))
  }

  /** Line i: timestamp, label, process id and the segment, joined by two spaces. */
  function Line(env: Env, levelStr: string, i: nat, segment: string): string
  {
    Join([Stamp(env, i), levelStr, PidTag(env), segment], FieldSep)
  }

  /** Everything line i carries in front of its segment. */
  function Decoration(env: Env, levelStr: string, i: nat): string
  {
    Stamp(env, i) + FieldSep + levelStr + FieldSep + PidTag(env) + FieldSep
  }

  /** One line per segment, in order. */
  function Lines(env: Env, levelStr: string, segments: seq<string>): (ls: seq<string>)
    ensures |ls| == |segments|
    ensures forall i :: 0 <= i < |ls| ==> ls[i] == Decoration(env, levelStr, i) + segments[i]
  {
    var ls := seq(|segments|, i requires 0 <= i < |segments| => Line(env, levelStr, i, segments[i]));
    forall i | 0 <= i < |ls| ensures ls[i] == Decoration(env, levelStr, i) + segments[i] {
      LineDecoration(env, levelStr, i, segments[i]);
    }
    ls
  }

  lemma LineDecoration(env: Env, levelStr: string, i: nat, segment: string)
    ensures Line(env, levelStr, i, segment) == Decoration(env, levelStr, i) + segment
  {
    var fields := [Stamp(env, i), levelStr, PidTag(env), segment];
    JoinCons(fields, FieldSep);
    JoinCons(fields[1..], FieldSep);
    JoinCons(fields[2..], FieldSep);
    assert fields[3..] == [segment];
  }

  /** `_format_text_message(text, level)`. */
  function FormatText(env: Env, text: string, lv: LevelValue): (r: Result<string, Unsupported>)
    ensures r.Ok? <==> lv.Level?
  {
    match LevelLabel(env, lv)
    case Err(e) => Err(e)
    case Ok(levelStr) => Ok(Join(Lines(env, levelStr, Split(text, '\n')), "\n"))
  }

  /** `_default_log_message_formatter`: only a `str` payload is rendered. */
  function DefaultFormat(env: Env, m: LogMessage): (r: Result<string, Unsupported>)
    ensures r.Ok? <==> m.payload.Str? && m.level.Level?
    ensures m.payload.Str? ==> r == FormatText(env, m.payload.text, m.level)
    ensures m.payload.Other? ==> r == Err(Unsupported)
  {
    match m.payload
    case Str(text) => FormatText(env, text, m.level)
    case Other(_) => Err(Unsupported)
  }

  /** The default formatter as a value, closed over the environment. */
  function DefaultFormatter(env: Env): Formatter
  {
    m => DefaultFormat(env, m)
  }

  /** The clock, the process id and the painter never produce a line break. */
  ghost predicate SingleLine(env: Env)
  {
    && (forall i: nat :: '\n' !in env.clock(i))
    && '\n' !in env.pid
    && (forall s, st :: '\n' !in s ==> '\n' !in env.paint(s, st))
  }

  /**
   * Line i of the formatted text is the decoration for line i followed by
   * segment i of the payload, there is one line per segment, and the lines
   * are joined by line breaks.
   */
  lemma FormatTextLines(env: Env, text: string, l: LogLevel)
    ensures var levelStr := LevelLabel(env, Level(l)).value;
            var segments := Split(text, '\n');
            var ls := Lines(env, levelStr, segments);
            && FormatText(env, text, Level(l)) == Ok(Join(ls, "\n"))
            && |ls| == multiset(text)['\n'] + 1
            && forall i :: 0 <= i < |ls| ==> ls[i] == Decoration(env, levelStr, i) + segments[i]
  {
  }

  /** An empty payload still gives exactly one line, with an empty segment. */
  lemma EmptyPayloadOneLine(env: Env, l: LogLevel)
    ensures FormatText(env, "", Level(l)) == Ok(Decoration(env, LevelLabel(env, Level(l)).value, 0))
  {
    var levelStr := LevelLabel(env, Level(l)).value;
    assert Split("", '\n') == [""];
    var ls := Lines(env, levelStr, [""]);
    assert ls[0] == Decoration(env, levelStr, 0) + "";
    assert Decoration(env, levelStr, 0) + "" == Decoration(env, levelStr, 0);
    assert ls == [Decoration(env, levelStr, 0)];
  }

  /** A payload without line breaks gives exactly one line: the decoration, then the payload. */
  lemma OneSegmentOneLine(env: Env, text: string, l: LogLevel)
    requires '\n' !in text
    ensures FormatText(env, text, Level(l)) == Ok(Decoration(env, LevelLabel(env, Level(l)).value, 0) + text)
  {
    var levelStr := LevelLabel(env, Level(l)).value;
    SplitWithout(text, '\n');
    var ls := Lines(env, levelStr, [text]);
    assert ls == [Decoration(env, levelStr, 0) + text];
  }

  /**
   * Reading a formatted text back: split it into lines and strip from line
   * i the decoration line i would carry.
   */
  function Unformat(env: Env, levelStr: string, formatted: string): seq<string>
  {
    var ls := Split(formatted, '\n');
    seq(|ls|, i requires 0 <= i < |ls| =>
      var d := Decoration(env, levelStr, i);
      if |d| <= |ls[i]| then ls[i][|d|..] else ls[i])
  }

  /** The level label never holds a line break when painting does not add one. */
  lemma LabelSingleLine(env: Env, l: LogLevel)
    requires SingleLine(env)
    ensures '\n' !in LevelLabel(env, Level(l)).value
  {
    assert '\n' !in Name(l);
  }

  /** With single-line decorations and segments, every line is single-line. */
  lemma LinesSingleLine(env: Env, levelStr: string, segments: seq<string>)
    requires SingleLine(env)
    requires '\n' !in levelStr
    requires forall i :: 0 <= i < |segments| ==> '\n' !in segments[i]
    ensures forall i :: 0 <= i < |segments| ==> '\n' !in Lines(env, levelStr, segments)[i]
  {
    var ls := Lines(env, levelStr, segments);
    assert '\n' !in PidTag(env) by {
      assert '\n' !in "(" + env.pid + ")";
    }
    forall i | 0 <= i < |ls| ensures '\n' !in ls[i] {
      assert '\n' !in env.clock(i);
      assert '\n' !in Decoration(env, levelStr, i);
    }
  }

  /**
   * With single-line decorations, the formatted text splits back into
   * exactly the lines it was joined from.
   */
  lemma FormattedLines(env: Env, text: string, l: LogLevel)
    requires SingleLine(env)
    ensures var levelStr := LevelLabel(env, Level(l)).value;
            Split(FormatText(env, text, Level(l)).value, '\n') == Lines(env, levelStr, Split(text, '\n'))
  {
    var levelStr := LevelLabel(env, Level(l)).value;
    var ls := Lines(env, levelStr, Split(text, '\n'));
    LabelSingleLine(env, l);
    LinesSingleLine(env, levelStr, Split(text, '\n'));
    SplitJoin(ls, '\n');
  }

  /** Stripping the decorations from lines built by `Lines` recovers the segments. */
  lemma UnformatLines(env: Env, levelStr: string, segments: seq<string>, formatted: string)
    requires Split(formatted, '\n') == Lines(env, levelStr, segments)
    ensures Unformat(env, levelStr, formatted) == segments
  {
    var ls := Lines(env, levelStr, segments);
    var back := Unformat(env, levelStr, formatted);
    assert |back| == |segments|;
    forall i | 0 <= i < |back| ensures back[i] == segments[i] {
      assert ls[i] == Decoration(env, levelStr, i) + segments[i];
    }
  }

  /**
   * When the decorations are single-line, the formatted text has exactly one
   * line per segment of the payload, and stripping the decorations gives back
   * the segments and so the whole payload.
   */
  lemma {:induction false} FormatRoundTrip(env: Env, text: string, l: LogLevel)
    requires SingleLine(env)
    ensures var levelStr := LevelLabel(env, Level(l)).value;
            var formatted := FormatText(env, text, Level(l)).value;
            && |Split(formatted, '\n')| == multiset(text)['\n'] + 1
            && Unformat(env, levelStr, formatted) == Split(text, '\n')
            && Join(Unformat(env, levelStr, formatted), "\n") == text
  {
    var levelStr := LevelLabel(env, Level(l)).value;
    var formatted := FormatText(env, text, Level(l)).value;
    FormattedLines(env, text, l);
    UnformatLines(env, levelStr, Split(text, '\n'), formatted);
    JoinSplit(text, '\n');
  }
}
