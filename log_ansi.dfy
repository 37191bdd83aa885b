/** The logger variant that frames every line in 24-bit ANSI colour escapes
    chosen by the level. */
module LogAnsi {
  import opened Wrappers
  import opened Fmt
  import opened Log

  type uint8 = x: int | 0 <= x < 256

  /** `rp::Color`. */
  datatype Color = Color(r: uint8, g: uint8, b: uint8, a: uint8)

  /** `kLevelColors`, indexed by level. */
  const LevelColors: seq<Color> := [
    Color(0xCC, 0xCC, 0xCC, 0xFF),
    Color(0xFF, 0xFF, 0x00, 0xFF),
    Color(0xFF, 0x99, 0x00, 0xFF),
    Color(0xFF, 0x00, 0x00, 0xFF)]

  function LevelColor(level: Level): Color {
    LevelColors[level.Index()]
  }

  function DigitChar(d: nat): (c: char)
    requires d < 10
  {
    ('0' as int + d) as char
  }

  predicate IsDigit(c: char) {
    '0' <= c <= '9'
  }

  /** The decimal text of `n`, as `{}` prints an integer. */
  function Decimal(n: nat): (r: string)
    ensures |r| > 0
    ensures forall i :: 0 <= i < |r| ==> IsDigit(r[i])
    ensures n > 0 ==> r[0] != '0'
  {
    if n < 10 then [DigitChar(n)] else Decimal(n / 10) + [DigitChar(n % 10)]
  }

  /** The number a string of decimal digits spells. */
  function DecimalValue(s: string): (r: nat)
    requires forall i :: 0 <= i < |s| ==> IsDigit(s[i])
  {
    if s == [] then 0
    else
      assert IsDigit(s[|s| - 1]);
      DecimalValue(s[..|s| - 1]) * 10 + (s[|s| - 1] as int - '0' as int)
  }

  /** The decimal text reads back as the number it was made from. */
  lemma {:induction false} DecimalRoundTrip(n: nat)
    ensures DecimalValue(Decimal(n)) == n
  {
    if n >= 10 {
      DecimalRoundTrip(n / 10);
      var s := Decimal(n);
      assert s[..|s| - 1] == Decimal(n / 10);
    }
  }

  const Escape: char := 27 as char

  /** The `setColor` lambda: `ESC[38;2;R;G;Bm`. */
  function SetColor(c: Color): (r: string)
    ensures |r| > 8
    ensures r[..7] == [Escape] + "[38;2;" && r[|r| - 1] == 'm'
  {
    [Escape] + "[38;2;" + Decimal(c.r) + ";" + Decimal(c.g) + ";" + Decimal(c.b) + "m"
  }

  /** The `resetColor` lambda. */
  const ResetColor: string := [Escape] + "[0m"

  /** `s` cut at the first `c`: the text before it and the text after it. */
  function SplitAtFirst(s: string, c: char): (r: Option<(string, string)>)
    ensures r.Some? ==> s == r.value.0 + [c] + r.value.1 && c !in r.value.0
    ensures r.None? ==> c !in s
  {
    if s == [] then None
    else if s[0] == c then Some(([], s[1..]))
    else
      match SplitAtFirst(s[1..], c)
      case None => None
      case Some(parts) => Some(([s[0]] + parts.0, parts.1))
  }

  predicate AllDigits(s: string) {
    forall i :: 0 <= i < |s| ==> IsDigit(s[i])
  }

  /** The colour a terminal reads from a true-colour escape at the start of
      `s`: `ESC[38;2;`, then three non-empty decimal fields separated by `;`
      and closed by `m`. */
  function ParseColor(s: string): Option<(nat, nat, nat)> {
    if |s| < 7 || s[..7] != [Escape] + "[38;2;" then None
    else
      match SplitAtFirst(s[7..], ';')
      case None => None
      case Some(p1) =>
        match SplitAtFirst(p1.1, ';')
        case None => None
        case Some(p2) =>
          match SplitAtFirst(p2.1, 'm')
          case None => None
          case Some(p3) =>
            if p1.0 != [] && p2.0 != [] && p3.0 != [] && AllDigits(p1.0) && AllDigits(p2.0) && AllDigits(p3.0)
            then Some((DecimalValue(p1.0), DecimalValue(p2.0), DecimalValue(p3.0)))
            else None
  }

  /** Cutting `d + [c] + rest` at the first `c` gives back `d` when `d` has
      no `c`. */
  lemma {:induction false} SplitAtFirstOf(d: string, c: char, rest: string)
    requires c !in d
    ensures SplitAtFirst(d + [c] + rest, c) == Some((d, rest))
  {
    if d == [] {
      assert (d + [c] + rest)[1..] == rest;
    } else {
      assert (d + [c] + rest)[1..] == d[1..] + [c] + rest;
      SplitAtFirstOf(d[1..], c, rest);
      assert [d[0]] + d[1..] == d;
    }
  }

  lemma Regroup8(a: string, b: string, c: string, d: string, e: string, f: string, g: string, h: string)
    ensures a + b + c + d + e + f + g + h == a + (b + c + (d + e + (f + g + h)))
  {
  }

  /** Whatever follows the escape, a terminal reads back the colour it was
      made from. */
  lemma ColorRoundTrip(c: Color, rest: string)
    ensures ParseColor(SetColor(c) + rest) == Some((c.r as nat, c.g as nat, c.b as nat))
  {
    var dr, dg, db := Decimal(c.r), Decimal(c.g), Decimal(c.b);
    var intro := [Escape] + "[38;2;";
    var tail3 := db + ['m'] + rest;
    var tail2 := dg + [';'] + tail3;
    var t := dr + [';'] + tail2;
    var s := SetColor(c) + rest;
    assert s == intro + t by {
      Regroup8(intro, dr, [';'], dg, [';'], db, ['m'], rest);
    }
    assert s[..7] == intro && s[7..] == t;
    assert ';' !in dr && ';' !in dg && 'm' !in db;
    SplitAtFirstOf(dr, ';', tail2);
    SplitAtFirstOf(dg, ';', tail3);
    SplitAtFirstOf(db, 'm', rest);
    DecimalRoundTrip(c.r);
    DecimalRoundTrip(c.g);
    DecimalRoundTrip(c.b);
  }

  /** What `logMessage` puts on the terminal: the colour escape, printed on
      its own, then what `fmt::vprint` does with the line. */
  datatype LogOutput = LogOutput(escape: string, body: Body)

  /** The `fmt::vprint` call: the line and the reset escape are printed;
      or fmt raises `format_error` and neither is; or the line holds a
      replacement field of the client name, which takes one of the
      message's arguments or raises `format_error` depending on them. */
  datatype Body = Line(text: string) | FormatError | ArgumentField

  /** The slices of a framed string `a + b + c` that lie inside `b`. */
  lemma FramedSlices(a: string, b: string, c: string, k: nat)
    requires k <= |b|
    ensures (a + b + c)[|a|..|a| + k] == b[..k]
    ensures (a + b + c)[|a| + k..] == b[k..] + c
  {
  }

  /** What `fmt::vprint` makes of the line whose source column is `name`
      padded to `width`: the text fmt reads from the column and the level
      prefix, the message, the newline and the reset escape. */
  function ReadLine(name: string, width: nat, prefix: string, levelPrefix: string, message: string): (b: Body)
    requires |name| + 2 <= width && NoBraces(levelPrefix)
    requires prefix == PadRight("[" + name + "]", width)
    ensures var n := ReadFormat(name);
            && (b.Line? <==> n.Text?)
            && (b.FormatError? <==> n.Unmatched?)
            && (b.Line? ==>
                  && |b.text| >= |n.s| + 2 + |message| + 1 + |ResetColor|
                  && b.text[..|n.s| + 2] == "[" + n.s + "]"
                  && b.text[|b.text| - |message| - 1 - |ResetColor|..] == message + "\n" + ResetColor)
    ensures NoBraces(name) ==>
              b == Line(prefix + " " + levelPrefix + " " + message + "\n" + ResetColor)
  {
    var head := prefix + " " + levelPrefix + " ";
    HeadReads(name, width, levelPrefix, head);
    var rest := message + "\n" + ResetColor;
    match ReadFormat(head)
    case Text(t) =>
      var tail := head[|name| + 1..];
      var n := ReadFormat(name).s;
      assert t == "[" + n + tail;
      assert t[..|n| + 2] == "[" + n + "]";
      assert t + message + "\n" + ResetColor == t + rest;
      assert NoBraces(name) ==> t == head;
      Line(t + rest)
    case Unmatched => FormatError
    case Field => ArgumentField
  }

  /** `logMessage`, as written: the padded source prefix becomes part of the
      format string handed to `fmt::vprint`, so fmt reads the source name
      as format text. `message` is the text `format_string` and the
      arguments make on their own. */
  function ColoredLine(logger: Logger, source: Source, level: Level, message: string): (r: LogOutput)
    requires logger.Valid()
    reads logger
    ensures var c := LevelColor(level);
            ParseColor(r.escape) == Some((c.r as nat, c.g as nat, c.b as nat))
    ensures var name := ReadFormat(logger.SourceName(source));
            && (r.body.Line? <==> name.Text?)
            && (r.body.FormatError? <==> name.Unmatched?)
            && (r.body.Line? ==>
                  && |r.body.text| >= |name.s| + 2 + |message| + 1 + |ResetColor|
                  && r.body.text[..|name.s| + 2] == "[" + name.s + "]"
                  && r.body.text[|r.body.text| - |message| - 1 - |ResetColor|..] == message + "\n" + ResetColor)
  {
    var c := LevelColor(level);
    ColorRoundTrip(c, []);
    assert SetColor(c) + [] == SetColor(c);
    LevelPrefixNoBraces(level);
    LogOutput(SetColor(c), ReadLine(logger.SourceName(source), logger.sourcePrefixLength,
                                    logger.SourcePrefix(source), LevelPrefix(level), message))
  }

  /** The text of the intended line, framed by the colour escapes: the
      bracketed name right after the opening escape and the message, the
      newline and the reset escape at the end. */
  lemma FramedLine(open: string, line: string, name: string, width: nat, message: string)
    requires |name| + 2 <= width
    requires |line| == width + 9 + |message|
    requires line[..|name| + 2] == "[" + name + "]"
    requires line[width + 8..] == message + "\n"
    ensures var r := open + (line + ResetColor);
            && |r| == |open| + width + 9 + |message| + |ResetColor|
            && r[|open|..|open| + |name| + 2] == "[" + name + "]"
            && r[|open| + width + 8..] == message + "\n" + ResetColor
  {
    assert open + (line + ResetColor) == open + line + ResetColor;
    FramedSlices(open, line, ResetColor, |name| + 2);
    FramedSlices(open, line, ResetColor, width + 8);
  }

  /** `logMessage` as it is evidently meant to work, and as the other
      logger formats it: the message is formatted on its own and the source
      prefix is an argument, so the name is printed as it is. */
  function ColoredLineLiteral(logger: Logger, source: Source, level: Level, message: string): (r: string)
    requires logger.Valid()
    reads logger
    ensures var c := LevelColor(level);
            ParseColor(r) == Some((c.r as nat, c.g as nat, c.b as nat))
    ensures var name := logger.SourceName(source);
            var open := SetColor(LevelColor(level));
            && |r| == |open| + logger.sourcePrefixLength + 9 + |message| + |ResetColor|
            && r[|open|..|open| + |name| + 2] == "[" + name + "]"
            && r[|open| + logger.sourcePrefixLength + 8..] == message + "\n" + ResetColor
  {
    var open := SetColor(LevelColor(level));
    var line := logger.FormatLine(source, level, message);
    var name := logger.SourceName(source);
    var width := logger.sourcePrefixLength;
    ColorRoundTrip(LevelColor(level), line + ResetColor);
    assert line[..|name| + 2] == logger.SourcePrefix(source)[..|name| + 2];
    FramedLine(open, line, name, width, message);
    open + (line + ResetColor)
  }

  /** A source name without braces is read as plain text, so the line as
      written is the intended one. The engine's name is such a name. */
  lemma ColoredLineAsIntended(logger: Logger, source: Source, level: Level, message: string)
    requires logger.Valid() && NoBraces(logger.SourceName(source))
    ensures var o := ColoredLine(logger, source, level, message);
            o.body.Line? && o.escape + o.body.text == ColoredLineLiteral(logger, source, level, message)
  {
    LevelPrefixNoBraces(level);
    var line := logger.FormatLine(source, level, message);
    assert ColoredLine(logger, source, level, message).body == Line(line + ResetColor);
  }

  /** The engine's own lines are always printed. */
  lemma EngineLineRead(logger: Logger, level: Level, message: string)
    requires logger.Valid()
    ensures ColoredLine(logger, Engine, level, message).body.Line?
  {
    assert NoBraces(RapierPrefix);
    ColoredLineAsIntended(logger, Engine, level, message);
  }

  /** A client name `{x}` is not printed as written: fmt reads a
      replacement field, while the intended line carries the name as it is. */
  lemma FieldClientPrefix(logger: Logger, level: Level, message: string)
    requires logger.Valid() && logger.clientPrefix == "{x}"
    ensures ColoredLine(logger, Client, level, message).body == ArgumentField
    ensures var open := SetColor(LevelColor(level));
            ColoredLineLiteral(logger, Client, level, message)[|open|..|open| + |logger.clientPrefix| + 2]
              == "[" + logger.clientPrefix + "]"
  {
    assert logger.SourceName(Client) == logger.clientPrefix;
    assert ReadFormat(logger.clientPrefix) == Field;
  }

  /** A client name `a}` is not printed as written: fmt raises
      `format_error` on the lone `}`, while the intended line carries the
      name as it is. */
  lemma UnmatchedClientPrefix(logger: Logger, level: Level, message: string)
    requires logger.Valid() && logger.clientPrefix == "a}"
    ensures ColoredLine(logger, Client, level, message).body == FormatError
    ensures var open := SetColor(LevelColor(level));
            ColoredLineLiteral(logger, Client, level, message)[|open|..|open| + |logger.clientPrefix| + 2]
              == "[" + logger.clientPrefix + "]"
  {
    assert logger.SourceName(Client) == logger.clientPrefix;
    var name := logger.clientPrefix;
    assert name[1..] == "}";
    assert ReadFormat(name[1..]) == Unmatched;
    assert ReadFormat(name) == Unmatched;
  }
}
