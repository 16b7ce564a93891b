/**
 * Composite-format message templates as used by diagnostic descriptors: text
 * interleaved with positional placeholders `{0}`, `{1}`, ... A template is kept
 * as a list of segments; its format string is the rendering of that list, and
 * `Placeholders` reads the placeholders back out of a format string the way
 * composite formatting does.
 */
module MessageTemplates {

  /** A placeholder index. Every template of the catalogue uses single digits only. */
  type ArgIndex = n: nat | n < 10

  datatype Segment = Text(text: string) | Arg(index: ArgIndex)

  type Template = seq<Segment>

  predicate IsDigit(c: char) {
    '0' <= c <= '9'
  }

  function DigitChar(d: ArgIndex): (c: char)
    ensures IsDigit(c)
  {
    (('0' as int) + d) as char
  }

  function DigitValue(c: char): (d: ArgIndex)
    requires IsDigit(c)
    ensures DigitChar(d) == c
  {
    (c as int) - ('0' as int)
  }

  /** Reading back the digit of a number below ten gives the number. */
  lemma DigitRoundTrip(d: ArgIndex)
    ensures DigitValue(DigitChar(d)) == d
  {
  }

  /** One literal character in a format string: a brace is doubled. */
  function EscapeChar(c: char): string {
    if c == '{' then "{{" else if c == '}' then "}}" else [c]
  }

  /** Literal text in a format string: braces are doubled, everything else is kept. */
  function Escape(s: string): (r: string)
    ensures |r| >= |s|
  {
    if |s| == 0 then "" else EscapeChar(s[0]) + Escape(s[1..])
  }

  /** Text without braces is written as it is. */
  lemma {:induction false} EscapeKeepsBracelessText(s: string)
    requires '{' !in s && '}' !in s
    ensures Escape(s) == s
  {
    if |s| > 0 {
      assert s[0] in s;
      assert s == [s[0]] + s[1..];
      EscapeKeepsBracelessText(s[1..]);
    }
  }

  /** The format string of a template. */
  function Render(t: Template): string
  {
    if |t| == 0 then ""
    else
      match t[0]
      case Text(s) => Escape(s) + Render(t[1..])
      case Arg(i) => ['{', DigitChar(i), '}'] + Render(t[1..])
  }

  /** The placeholder indices of a template, in order of appearance. */
  function ArgIndices(t: Template): seq<nat>
  {
    if |t| == 0 then []
    else
      match t[0]
      case Text(_) => ArgIndices(t[1..])
      case Arg(i) => [i] + ArgIndices(t[1..])
  }

  /**
   * The placeholders of a format string, in order of appearance: `{d}` is a
   * placeholder for argument `d`, `{{` is an escaped brace, and every other
   * character is literal text.
   */
  function Placeholders(s: string): seq<nat>
    decreases |s|
  {
    if |s| == 0 then []
    else if s[0] != '{' then Placeholders(s[1..])
    else if |s| >= 2 && s[1] == '{' then Placeholders(s[2..])
    else if |s| >= 3 && IsDigit(s[1]) && s[2] == '}' then [DigitValue(s[1]) as nat] + Placeholders(s[3..])
    else Placeholders(s[1..])
  }

  /** The number of arguments a format string consumes. */
  function PlaceholderCount(s: string): nat {
    |Placeholders(s)|
  }

  /** Escaped literal text contributes no placeholder. */
  lemma {:induction false} PlaceholdersSkipText(s: string, rest: string)
    ensures Placeholders(Escape(s) + rest) == Placeholders(rest)
    decreases |s|
  {
    if |s| == 0 {
      assert Escape(s) + rest == rest;
    } else {
      var tail := Escape(s[1..]) + rest;
      assert Escape(s) + rest == EscapeChar(s[0]) + tail;
      PlaceholdersSkipText(s[1..], rest);
      PlaceholdersSkipEscapedChar(s[0], tail);
    }
  }

  /** One escaped character is literal text. */
  lemma PlaceholdersSkipEscapedChar(c: char, tail: string)
    ensures Placeholders(EscapeChar(c) + tail) == Placeholders(tail)
  {
    if c == '{' {
      PlaceholdersSkipEscapedOpen(tail);
    } else if c == '}' {
      PlaceholdersSkipEscapedClose(tail);
    } else {
      PlaceholdersSkipPlainChar(c, tail);
    }
  }

  /** An escaped opening brace is literal text. */
  lemma PlaceholdersSkipEscapedOpen(tail: string)
    ensures Placeholders("{{" + tail) == Placeholders(tail)
  {
    assert ("{{" + tail)[2..] == tail;
  }

  /** An escaped closing brace is literal text. */
  lemma PlaceholdersSkipEscapedClose(tail: string)
    ensures Placeholders("}}" + tail) == Placeholders(tail)
  {
    assert ("}}" + tail)[1..] == "}" + tail;
    assert ("}" + tail)[1..] == tail;
  }

  /** A character that is not a brace is literal text. */
  lemma PlaceholdersSkipPlainChar(c: char, tail: string)
    requires c != '{' && c != '}'
    ensures Placeholders([c] + tail) == Placeholders(tail)
  {
    assert ([c] + tail)[1..] == tail;
  }

  /** Reading the placeholders back out of a rendered template gives the template's arguments. */
  lemma {:induction false} PlaceholdersOfRender(t: Template)
    ensures Placeholders(Render(t)) == ArgIndices(t)
    decreases |t|
  {
    if |t| > 0 {
      PlaceholdersOfRender(t[1..]);
      var rest := Render(t[1..]);
      match t[0]
      case Text(s) =>
        PlaceholdersSkipText(s, rest);
      case Arg(i) =>
        var p := ['{', DigitChar(i), '}'] + rest;
        assert p[0] == '{' && p[1] == DigitChar(i) && p[2] == '}';
        assert p[3..] == rest;
        DigitRoundTrip(i);
    }
  }
}
