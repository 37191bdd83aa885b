/** The engine's logger (`rp::log`): a source prefix padded to a common
    width, a six-character level prefix, then the message. */
module Log {
  import opened Wrappers
  import opened Fmt

  datatype Level = Trace | Info | Warn | Error {
    /** Position of the level in the enumeration, used to index the tables. */
    function Index(): (r: nat)
      ensures r < 4
    {
      match this
      case Trace => 0
      case Info => 1
      case Warn => 2
      case Error => 3
    }
  }

  datatype Source = Engine | Client

  const RapierPrefix: string := "Rapier"
  const InitialClientPrefix: string := "Client"
  const BasePrefixSpacing: nat := 2

  /** `calculateSourcePrefixLength`: the wider of the engine name and the
      client name, plus two for the brackets. */
  function SourcePrefixLength(clientPrefixLength: nat): (r: nat)
    ensures r >= |RapierPrefix| + BasePrefixSpacing && r >= clientPrefixLength + BasePrefixSpacing
    ensures r == |RapierPrefix| + BasePrefixSpacing || r == clientPrefixLength + BasePrefixSpacing
  {
    (if |RapierPrefix| < clientPrefixLength then clientPrefixLength else |RapierPrefix|) + BasePrefixSpacing
  }

  /** The number of bytes UTF-8 spends on `c`. */
  function Utf8Width(c: char): (n: nat)
    ensures 1 <= n <= 4
    ensures n == 1 <==> c as int < 0x80
  {
    if c as int < 0x80 then 1
    else if c as int < 0x800 then 2
    else if c as int < 0x1_0000 then 3
    else 4
  }

  /** The length of `s` as a `std::string` holding its UTF-8 bytes, which is
      what `std::string::length` returns. */
  function Utf8Length(s: string): (n: nat)
    ensures |s| <= n <= 4 * |s|
  {
    if s == [] then 0 else Utf8Width(s[0]) + Utf8Length(s[1..])
  }

  /** The byte length equals the character count exactly when every
      character is ASCII. */
  lemma {:induction false} Utf8LengthIsCountIffAscii(s: string)
    ensures Utf8Length(s) == |s| <==> forall i :: 0 <= i < |s| ==> s[i] as int < 0x80
  {
    if s != [] {
      Utf8LengthIsCountIffAscii(s[1..]);
      assert forall i :: 1 <= i < |s| ==> s[i] == s[1..][i - 1];
    }
  }

  /** `kLevelPrefixes`. */
  const LevelPrefixes: seq<string> := ["Trace:", " Info:", " Warn:", "Error:"]

  function LevelPrefix(level: Level): (r: string)
    ensures |r| == 6 && r[5] == ':'
    ensures r in LevelPrefixes
  {
    LevelPrefixes[level.Index()]
  }

  /** The format `{:<{}}`: `s` left-aligned in a field of `width` spaces; a
      longer `s` is not cut. */
  function PadRight(s: string, width: nat): (r: string)
    ensures |r| == if |s| < width then width else |s|
    ensures r[..|s|] == s
    ensures forall i :: |s| <= i < |r| ==> r[i] == ' '
  {
    if |s| < width then s + seq(width - |s|, _ => ' ') else s
  }

  /** No level prefix holds a brace. */
  lemma LevelPrefixNoBraces(level: Level)
    ensures NoBraces(LevelPrefix(level))
  {
    assert forall k :: 0 <= k < |LevelPrefixes| ==> NoBraces(LevelPrefixes[k]);
  }

  lemma Regroup(p: string, a: string, b: string, c: string)
    ensures p + a + b + c == p + (a + b + c)
  {
  }

  /** The padded `[name]` column: after the name come `]` and spaces. */
  lemma PaddedColumn(name: string, width: nat)
    requires |name| + 2 <= width
    ensures var p := PadRight("[" + name + "]", width);
            && p == ['['] + name + p[|name| + 1..]
            && p[|name| + 1] == ']'
            && NoBraces(p[|name| + 1..])
  {
    var s := ['['] + name + [']'];
    assert "[" + name + "]" == s;
    var p := PadRight(s, width);
    assert p[..|s|] == s;
    var t := p[|name| + 1..];
    forall i | 0 <= i < |t|
      ensures t[i] != '{' && t[i] != '}'
    {
      if i == 0 {
        assert t[i] == s[|name| + 1];
      } else {
        assert t[i] == p[|name| + 1 + i];
      }
    }
    assert p[..|name| + 1] == s[..|name| + 1] == ['['] + name;
    assert p == p[..|name| + 1] + t;
  }

  /** fmt reads `[`, then the name, then brace-free text starting with `]`. */
  lemma BracketedRead(name: string, tail: string)
    requires tail != [] && tail[0] == ']' && NoBraces(tail)
    ensures ReadFormat(['['] + name + tail) == Cons('[', Join(ReadFormat(name), Text(tail)))
  {
    var s := ['['] + name + tail;
    assert s[0] == '[' && s[1..] == name + tail;
    assert ReadFormat(s) == Cons('[', ReadFormat(name + tail));
    ReadFormatAppend(name, tail);
    assert ReadFormat(tail) == Text(tail);
  }

  /** After the `[`, the padded name column and the level prefix hold no
      brace except those of the name itself. */
  lemma HeadShape(name: string, width: nat, levelPrefix: string, head: string)
    requires |name| + 2 <= width && NoBraces(levelPrefix)
    requires head == PadRight("[" + name + "]", width) + " " + levelPrefix + " "
    ensures && head == ['['] + name + head[|name| + 1..]
            && head[|name| + 1] == ']'
            && NoBraces(head[|name| + 1..])
  {
    var p := PadRight("[" + name + "]", width);
    PaddedColumn(name, width);
    var pt := p[|name| + 1..];
    var rest := [' '] + levelPrefix + [' '];
    assert NoBraces(pt + rest) by {
      assert NoBraces([' ']);
      NoBracesConcat([' '], levelPrefix);
      NoBracesConcat([' '] + levelPrefix, [' ']);
      NoBracesConcat(pt, rest);
    }
    assert head == p + rest by {
      Regroup(p, " ", levelPrefix, " ");
    }
    assert head == ['['] + name + (pt + rest) && head[|name| + 1..] == pt + rest by {
      assert p == ['['] + name + pt;
    }
  }

  /** fmt reads the head of a line as `[`, the name as format text, then
      the brace-free rest of the head. */
  lemma HeadReads(name: string, width: nat, levelPrefix: string, head: string)
    requires |name| + 2 <= width && NoBraces(levelPrefix)
    requires head == PadRight("[" + name + "]", width) + " " + levelPrefix + " "
    ensures && head == ['['] + name + head[|name| + 1..]
            && head[|name| + 1] == ']'
            && NoBraces(head[|name| + 1..])
            && ReadFormat(head) == Cons('[', Join(ReadFormat(name), Text(head[|name| + 1..])))
  {
    HeadShape(name, width, levelPrefix, head);
    BracketedRead(name, head[|name| + 1..]);
  }

  /** fmt reads `[`, the name, brace-free text starting with `]`, then the
      rest of the line. */
  lemma BracketedLineRead(line: string, name: string, tail: string, rest: string)
    requires tail != [] && tail[0] == ']' && NoBraces(tail)
    requires line == ['['] + name + (tail + rest)
    ensures ReadFormat(line) == Cons('[', Join(ReadFormat(name), Join(Text(tail), ReadFormat(rest))))
  {
    assert line[0] == '[' && line[1..] == name + (tail + rest);
    assert ReadFormat(line) == Cons('[', ReadFormat(name + (tail + rest)));
    ReadFormatAppend(name, tail + rest);
    ReadFormatBraceFree(tail, rest);
  }

  /** The message is read, then the newline. */
  lemma MessageRead(message: string)
    ensures ReadFormat(message + "\n") == Join(ReadFormat(message), Text("\n"))
  {
    ReadFormatAppend(message, "\n");
    assert ReadFormat("\n") == Text("\n");
  }

  /** Where the name and the message sit in the text read from a line. */
  lemma ReadTextSlices(n: string, tail: string, m: string, t: string)
    requires tail != [] && tail[0] == ']'
    requires t == ['['] + (n + (tail + (m + "\n")))
    ensures |t| >= |n| + 2 + |m| + 1
    ensures t[..|n| + 2] == "[" + n + "]"
    ensures t[|t| - |m| - 1..] == m + "\n"
  {
    assert t[..|n| + 2] == ['['] + n + [tail[0]];
  }

  /** The text read from a line is printed exactly when the name and the
      message read as text; the name then follows the `[` and the message
      ends the line. */
  lemma LineText(l: FormatText, n: FormatText, m: FormatText, tail: string)
    requires tail != [] && tail[0] == ']'
    requires l == Cons('[', Join(n, Join(Text(tail), Join(m, Text("\n")))))
    ensures l.Text? <==> n.Text? && m.Text?
    ensures l.Text? ==>
              && |l.s| >= |n.s| + 2 + |m.s| + 1
              && l.s[..|n.s| + 2] == "[" + n.s + "]"
              && l.s[|l.s| - |m.s| - 1..] == m.s + "\n"
  {
    if n.Text? && m.Text? {
      ReadTextSlices(n.s, tail, m.s, l.s);
    }
  }

  /** A line whose parts hold no braces holds none. */
  lemma NoBracesLine(line: string, name: string, tail: string, message: string)
    requires NoBraces(name) && NoBraces(tail) && NoBraces(message)
    requires line == ['['] + name + (tail + (message + "\n"))
    ensures NoBraces(line)
  {
    assert NoBraces(['[']) && NoBraces("\n");
    NoBracesConcat(message, "\n");
    NoBracesConcat(tail, message + "\n");
    NoBracesConcat(['['], name);
    NoBracesConcat(['['] + name, tail + (message + "\n"));
  }

  /** How fmt reads a finished line used as format text: the name and the
      message are read, and the column padding and the level prefix hold no
      braces of their own. */
  lemma LineRead(name: string, width: nat, prefix: string, levelPrefix: string, message: string, line: string)
    requires |name| + 2 <= width && NoBraces(levelPrefix)
    requires prefix == PadRight("[" + name + "]", width)
    requires line == prefix + " " + levelPrefix + " " + message + "\n"
    ensures var n, m, l := ReadFormat(name), ReadFormat(message), ReadFormat(line);
            && (l.Text? <==> n.Text? && m.Text?)
            && (l.Text? ==>
                  && |l.s| >= |n.s| + 2 + |m.s| + 1
                  && l.s[..|n.s| + 2] == "[" + n.s + "]"
                  && l.s[|l.s| - |m.s| - 1..] == m.s + "\n")
            && (NoBraces(name) && NoBraces(message) ==> l == Text(line))
  {
    var head := prefix + " " + levelPrefix + " ";
    HeadShape(name, width, levelPrefix, head);
    var tail := head[|name| + 1..];
    var rest := message + "\n";
    assert line == ['['] + name + (tail + rest) by {
      assert line == head + rest;
    }
    BracketedLineRead(line, name, tail, rest);
    MessageRead(message);
    LineText(ReadFormat(line), ReadFormat(name), ReadFormat(message), tail);
    if NoBraces(name) && NoBraces(message) {
      NoBracesLine(line, name, tail, message);
    }
  }

  /** The logger's global state: the client name and the prefix width. */
  class Logger {
    var clientPrefix: string
    var sourcePrefixLength: nat

    ghost predicate Valid()
      reads this
    {
      sourcePrefixLength == SourcePrefixLength(Utf8Length(clientPrefix))
    }

    /** The initial values of the globals. */
    constructor ()
      ensures Valid()
      ensures clientPrefix == InitialClientPrefix && sourcePrefixLength == 8
    {
      clientPrefix := InitialClientPrefix;
      Utf8LengthIsCountIffAscii(InitialClientPrefix);
      sourcePrefixLength := SourcePrefixLength(Utf8Length(InitialClientPrefix));
    }

    /** `setClientPrefix`: the name is replaced and the width recomputed from
        its length in UTF-8 bytes, so both bracketed names still fit. */
    method SetClientPrefix(prefix: string)
      modifies this
      ensures Valid()
      ensures clientPrefix == prefix
      ensures sourcePrefixLength == (if Utf8Length(prefix) > |RapierPrefix| then Utf8Length(prefix) else |RapierPrefix|) + 2
      ensures sourcePrefixLength >= |prefix| + 2 && sourcePrefixLength >= |RapierPrefix| + 2
    {
      clientPrefix := prefix;
      sourcePrefixLength := SourcePrefixLength(Utf8Length(clientPrefix));
    }

    /** A client name with one two-byte character: the width counts its
        seven bytes, so the bracketed engine name gets one column of
        padding after its brackets. */
    lemma NonAsciiPrefixWidth()
      requires Valid() && clientPrefix == "Cl\U{00EF}ent"
      ensures sourcePrefixLength == 9
      ensures |SourcePrefix(Engine)| == 9 && SourcePrefix(Engine)[8] == ' '
    {
      var tail: string := "ent";
      Utf8LengthIsCountIffAscii(tail);
      assert clientPrefix[1..] == "l\U{00EF}ent" && clientPrefix[1..][1..] == "\U{00EF}ent";
      assert clientPrefix[1..][1..][1..] == tail;
      assert Utf8Width(clientPrefix[1..][1..][0]) == 2;
      assert Utf8Length(clientPrefix[1..][1..]) == 5;
      assert Utf8Length(clientPrefix) == 7;
    }

    function SourceName(source: Source): string
      reads this
    {
      if source == Engine then RapierPrefix else clientPrefix
    }

    /** The padded `[name]` prefix: exactly `sourcePrefixLength` characters
        for either source. */
    function SourcePrefix(source: Source): (r: string)
      requires Valid()
      reads this
      ensures |r| == sourcePrefixLength
      ensures r[..|SourceName(source)| + 2] == "[" + SourceName(source) + "]"
      ensures forall i :: |SourceName(source)| + 2 <= i < |r| ==> r[i] == ' '
    {
      PadRight("[" + SourceName(source) + "]", sourcePrefixLength)
    }

    /** `logMessage`'s line: source prefix, a space, the level prefix, a
        space, the message and a newline. The message starts at the same
        column for every source and level. */
    function FormatLine(source: Source, level: Level, message: string): (r: string)
      requires Valid()
      reads this
      ensures |r| == sourcePrefixLength + 8 + |message| + 1
      ensures r[..sourcePrefixLength] == SourcePrefix(source)
      ensures r[sourcePrefixLength] == ' ' && r[sourcePrefixLength + 7] == ' '
      ensures r[sourcePrefixLength + 1..sourcePrefixLength + 7] == LevelPrefix(level)
      ensures r[sourcePrefixLength + 8..] == message + "\n"
    {
      SourcePrefix(source) + " " + LevelPrefix(level) + " " + message + "\n"
    }

    /** `logEngineMessage`: the line carries the engine's name. */
    function EngineMessage(level: Level, message: string): (r: string)
      requires Valid()
      reads this
      ensures |r| == sourcePrefixLength + 9 + |message|
      ensures r[..8] == "[Rapier]"
      ensures r[sourcePrefixLength + 8..] == message + "\n"
    {
      FormatLine(Engine, level, message)
    }

    /** `logClientMessage`: the line carries the client's name. */
    function ClientMessage(level: Level, message: string): (r: string)
      requires Valid()
      reads this
      ensures |r| == sourcePrefixLength + 9 + |message|
      ensures r[..|clientPrefix| + 2] == "[" + clientPrefix + "]"
      ensures r[sourcePrefixLength + 8..] == message + "\n"
    {
      FormatLine(Client, level, message)
    }

    /** What `logMessage` prints, as written: line 35 hands the finished line
        to `fmt::print` as its format text, with no arguments. fmt prints the
        text it reads, or raises `format_error` at the first replacement
        field, which has no argument to take, or at a lone `}`. */
    function PrintedLine(source: Source, level: Level, message: string): (r: Option<string>)
      requires Valid()
      reads this
      ensures var n, m := ReadFormat(SourceName(source)), ReadFormat(message);
              && (r.Some? <==> n.Text? && m.Text?)
              && (r.Some? ==>
                    && |r.value| >= |n.s| + 2 + |m.s| + 1
                    && r.value[..|n.s| + 2] == "[" + n.s + "]"
                    && r.value[|r.value| - |m.s| - 1..] == m.s + "\n")
      ensures NoBraces(SourceName(source)) && NoBraces(message) ==> r == Some(FormatLine(source, level, message))
    {
      LevelPrefixNoBraces(level);
      var line := FormatLine(source, level, message);
      LineRead(SourceName(source), sourcePrefixLength, SourcePrefix(source), LevelPrefix(level), message, line);
      var l := ReadFormat(line);
      if l.Text? then Some(l.s) else None
    }

    /** A message whose formatted text holds braces is not printed: the
        text `C:/{x}` makes fmt meet a replacement field with no argument. */
    lemma BracedMessageNotPrinted(source: Source, level: Level)
      requires Valid()
      ensures PrintedLine(source, level, "C:/{x}") == None
    {
      var m := "C:/{x}";
      assert m[3..] == "{x}" && m[2..][1..] == m[3..] && m[1..][1..] == m[2..];
      assert ReadFormat(m[3..]) == Field;
      assert ReadFormat(m[2..]) == Field;
      assert ReadFormat(m[1..]) == Field;
      assert ReadFormat(m) == Field;
    }

    /** The client name `{x}` is not printed either. */
    lemma BracedClientNotPrinted(level: Level, message: string)
      requires Valid() && clientPrefix == "{x}"
      ensures PrintedLine(Client, level, message) == None
    {
      assert SourceName(Client) == clientPrefix;
      assert ReadFormat(clientPrefix) == Field;
    }
  }
}
