/** How `fmt` reads format text: doubled braces stand for one brace, any
    other `{` opens a replacement field, and a lone `}` is an error. */
module Fmt {

  /** What fmt reads from a run of format text: the text itself, or a stop
      at the first replacement field or error. */
  datatype FormatText = Text(s: string) | Field | Unmatched

  predicate NoBraces(s: string) {
    forall i :: 0 <= i < |s| ==> s[i] != '{' && s[i] != '}'
  }

  function Cons(c: char, t: FormatText): FormatText {
    if t.Text? then Text([c] + t.s) else t
  }

  /** Reading `a` then `b`: the first field or error wins. */
  function Join(a: FormatText, b: FormatText): FormatText {
    if !a.Text? then a else if !b.Text? then b else Text(a.s + b.s)
  }

  /** fmt's reading of `s` up to its first replacement field or error. Text
      without braces reads as itself. */
  function ReadFormat(s: string): (r: FormatText)
    ensures NoBraces(s) ==> r == Text(s)
    ensures r.Text? ==> |r.s| <= |s|
    decreases |s|
  {
    if s == [] then Text([])
    else if s[0] == '{' then
      if |s| > 1 && s[1] == '{' then Cons('{', ReadFormat(s[2..])) else Field
    else if s[0] == '}' then
      if |s| > 1 && s[1] == '}' then Cons('}', ReadFormat(s[2..])) else Unmatched
    else
      assert NoBraces(s) ==> NoBraces(s[1..]);
      assert [s[0]] + s[1..] == s;
      Cons(s[0], ReadFormat(s[1..]))
  }

  /** `s` with every brace doubled, so that fmt reads it as `s`. */
  function EscapeBraces(s: string): (r: string)
    ensures NoBraces(s) ==> r == s
  {
    if s == [] then []
    else if s[0] == '{' || s[0] == '}' then [s[0], s[0]] + EscapeBraces(s[1..])
    else
      assert NoBraces(s) ==> NoBraces(s[1..]);
      [s[0]] + EscapeBraces(s[1..])
  }

  lemma {:induction false} EscapeBracesRoundTrip(s: string)
    ensures ReadFormat(EscapeBraces(s)) == Text(s)
  {
    if s != [] {
      EscapeBracesRoundTrip(s[1..]);
      var e := EscapeBraces(s);
      if s[0] == '{' || s[0] == '}' {
        assert e[2..] == EscapeBraces(s[1..]);
      } else {
        assert e[1..] == EscapeBraces(s[1..]);
      }
      assert [s[0]] + s[1..] == s;
    }
  }

  /** Reading stops at a field or an error, so text read after `a` only
      matters when `a` reads cleanly; `b` must not start with a brace that
      could pair with one at the end of `a`. */
  lemma {:induction false} ReadFormatAppend(a: string, b: string)
    requires b == [] || (b[0] != '{' && b[0] != '}')
    ensures ReadFormat(a + b) == Join(ReadFormat(a), ReadFormat(b))
    decreases |a|
  {
    if a == [] {
      assert a + b == b;
    } else {
      var s := a + b;
      assert s[0] == a[0] && (|a| > 1 ==> s[1] == a[1]);
      if (a[0] == '{' || a[0] == '}') && |a| > 1 && a[1] == a[0] {
        assert s[2..] == a[2..] + b;
        ReadFormatAppend(a[2..], b);
        ConsJoin(a[0], ReadFormat(a[2..]), ReadFormat(b));
      } else if a[0] == '{' || a[0] == '}' {
        assert |a| == 1 ==> s[1..] == b;
      } else {
        assert s[1..] == a[1..] + b;
        ReadFormatAppend(a[1..], b);
        ConsJoin(a[0], ReadFormat(a[1..]), ReadFormat(b));
      }
    }
  }

  lemma ConsJoin(c: char, x: FormatText, y: FormatText)
    ensures Cons(c, Join(x, y)) == Join(Cons(c, x), y)
  {
    if x.Text? && y.Text? {
      assert [c] + (x.s + y.s) == ([c] + x.s) + y.s;
    }
  }

  lemma NoBracesConcat(a: string, b: string)
    requires NoBraces(a) && NoBraces(b)
    ensures NoBraces(a + b)
  {
    assert forall i :: |a| <= i < |a + b| ==> (a + b)[i] == b[i - |a|];
  }

  /** Brace-free text reads as itself, and reading goes on after it. */
  lemma {:induction false} ReadFormatBraceFree(t: string, x: string)
    requires NoBraces(t)
    ensures ReadFormat(t + x) == Join(Text(t), ReadFormat(x))
    decreases |t|
  {
    if t == [] {
      assert t + x == x;
      assert ReadFormat(x).Text? ==> t + ReadFormat(x).s == ReadFormat(x).s;
    } else {
      var s := t + x;
      assert s[0] == t[0] && s[1..] == t[1..] + x;
      assert NoBraces(t[1..]) by {
        assert forall i :: 0 <= i < |t| - 1 ==> t[1..][i] == t[i + 1];
      }
      ReadFormatBraceFree(t[1..], x);
      ConsJoin(t[0], Text(t[1..]), ReadFormat(x));
      assert [t[0]] + t[1..] == t;
    }
  }
}
