/**
 * `JSON.stringify` of strings and of arrays of strings, as ECMAScript's
 * QuoteJSONString writes them, and a JSON reader for the same texts
 * (section 7 of RFC 8259). The reader parses what the writer emits;
 * StringifyRoundTrip connects them, and from it the written form of an
 * array of strings is injective.
 */
module JsonText {
  import opened JsValues

  const Quote: char := '\"'
  const Backslash: char := '\\'

  /** The lower-case hexadecimal digit of `d`. */
  function HexDigit(d: nat): (c: char)
    requires d < 16
    ensures HexValue(c) == Some(d)
  {
    if d < 10 then ('0' as int + d) as char else ('a' as int + d - 10) as char
  }

  /** The value of a hexadecimal digit of either case. */
  function HexValue(c: char): (r: Option<nat>)
    ensures r.Some? ==> r.value < 16
  {
    if '0' <= c <= '9' then Some(c as int - '0' as int)
    else if 'a' <= c <= 'f' then Some(c as int - 'a' as int + 10)
    else if 'A' <= c <= 'F' then Some(c as int - 'A' as int + 10)
    else None
  }

  // ---------------------------------------------------------------------
  // Writing
  // ---------------------------------------------------------------------

  /** How QuoteJSONString writes one code point: the seven short escapes,
      `\u00xx` for the other control characters, the character itself
      otherwise. (A Dafny `char` is a Unicode scalar value, so the lone
      surrogates that QuoteJSONString also escapes cannot occur.) */
  function EscapeChar(c: char): (e: string)
    ensures |e| > 0
    ensures e[0] != Quote
  {
    if c == Quote then [Backslash, Quote]
    else if c == Backslash then [Backslash, Backslash]
    else if c as int == 0x08 then [Backslash, 'b']
    else if c as int == 0x09 then [Backslash, 't']
    else if c as int == 0x0A then [Backslash, 'n']
    else if c as int == 0x0C then [Backslash, 'f']
    else if c as int == 0x0D then [Backslash, 'r']
    else if c as int < 0x20 then [Backslash, 'u', '0', '0', HexDigit(c as int / 16), HexDigit(c as int % 16)]
    else [c]
  }

  function EscapeAll(s: string): string
  {
    if s == [] then [] else EscapeChar(s[0]) + EscapeAll(s[1..])
  }

  /** `JSON.stringify(s)` for a string `s`. */
  function QuoteString(s: string): (q: string)
    ensures |q| >= 2 && q[0] == Quote && q[|q| - 1] == Quote
  {
    [Quote] + EscapeAll(s) + [Quote]
  }

  function Elements(xs: seq<string>): string
  {
    if xs == [] then []
    else if |xs| == 1 then QuoteString(xs[0])
    else QuoteString(xs[0]) + "," + Elements(xs[1..])
  }

  /** `JSON.stringify(xs)` for an array of strings: no spaces, elements
      separated by commas. */
  function StringifyStrings(xs: seq<string>): (text: string)
    ensures |text| >= 2 && text[0] == '[' && text[|text| - 1] == ']'
  {
    "[" + Elements(xs) + "]"
  }

  // ---------------------------------------------------------------------
  // Reading
  // ---------------------------------------------------------------------

  function SimpleEscape(e: char): Option<char>
  {
    if e == Quote || e == Backslash || e == '/' then Some(e)
    else if e == 'b' then Some(0x08 as char)
    else if e == 't' then Some(0x09 as char)
    else if e == 'n' then Some(0x0A as char)
    else if e == 'f' then Some(0x0C as char)
    else if e == 'r' then Some(0x0D as char)
    else None
  }

  function Hex4(d: string): (r: Option<nat>)
    requires |d| == 4
    ensures r.Some? ==> r.value < 0x10000
  {
    var a, b, c, e := HexValue(d[0]), HexValue(d[1]), HexValue(d[2]), HexValue(d[3]);
    if a.Some? && b.Some? && c.Some? && e.Some?
    then Some(((a.value * 16 + b.value) * 16 + c.value) * 16 + e.value)
    else None
  }

  function Prepend(c: char, r: Option<(string, string)>): Option<(string, string)>
  {
    match r
    case None => None
    case Some((x, rest)) => Some(([c] + x, rest))
  }

  /** Reads the body of a JSON string up to and including its closing quote:
      the decoded characters and the text after the quote. Unescaped
      control characters, unknown escapes and a missing closing quote are
      errors; a `\u` escape of a surrogate half is refused (the writer never
      produces one). */
  function Unquote(s: string): (r: Option<(string, string)>)
    ensures r.Some? ==> |r.value.1| < |s|
    decreases |s|
  {
    if s == [] then None
    else if s[0] == Quote then Some(([], s[1..]))
    else if s[0] == Backslash then
      if |s| < 2 then None
      else if s[1] == 'u' then
        if |s| < 6 then None
        else match Hex4(s[2..6])
          case None => None
          case Some(v) =>
            if 0xD800 <= v < 0xE000 then None else Prepend(v as char, Unquote(s[6..]))
      else match SimpleEscape(s[1])
        case None => None
        case Some(c) => Prepend(c, Unquote(s[2..]))
    else if s[0] as int < 0x20 then None
    else Prepend(s[0], Unquote(s[1..]))
  }

  /** Reads one JSON string at the start of `s`. */
  function ParseString(s: string): (r: Option<(string, string)>)
    ensures r.Some? ==> |r.value.1| < |s|
  {
    if |s| > 0 && s[0] == Quote then Unquote(s[1..]) else None
  }

  /** Reads the comma-separated strings of a non-empty array and its closing
      bracket, which must end the text. */
  function ParseElements(s: string): Option<seq<string>>
    decreases |s|
  {
    match ParseString(s)
    case None => None
    case Some((x, rest)) =>
      if rest == "]" then Some([x])
      else if |rest| > 0 && rest[0] == ',' then
        match ParseElements(rest[1..])
        case None => None
        case Some(xs) => Some([x] + xs)
      else None
  }

  /** `JSON.parse` restricted to arrays of strings written without
      whitespace. */
  function ParseStrings(text: string): Option<seq<string>>
  {
    if text == "[]" then Some([])
    else if |text| > 0 && text[0] == '[' then ParseElements(text[1..])
    else None
  }

  // ---------------------------------------------------------------------
  // Reading back what was written
  // ---------------------------------------------------------------------

  lemma HexRoundTrip(c: char)
    requires c as int < 0x20
    ensures Hex4(['0', '0', HexDigit(c as int / 16), HexDigit(c as int % 16)]) == Some(c as int)
  {
  }

  /** One escaped character reads back as itself, followed by whatever the
      rest reads as. */
  lemma UnquoteChar(c: char, tail: string)
    ensures Unquote(EscapeChar(c) + tail) == Prepend(c, Unquote(tail))
  {
    var e := EscapeChar(c);
    var s := e + tail;
    if c as int < 0x20 && c as int !in {0x08, 0x09, 0x0A, 0x0C, 0x0D} {
      assert s[0] == Backslash && s[1] == 'u';
      assert s[2..6] == ['0', '0', HexDigit(c as int / 16), HexDigit(c as int % 16)];
      HexRoundTrip(c);
      assert s[6..] == tail;
    } else if |e| == 2 {
      assert s[0] == Backslash && s[1] == e[1] && s[2..] == tail;
    } else {
      assert s[0] == c && s[1..] == tail;
    }
  }

  lemma {:induction false} UnquoteEscaped(x: string, rest: string)
    ensures Unquote(EscapeAll(x) + [Quote] + rest) == Some((x, rest))
  {
    if x == [] {
      assert EscapeAll(x) + [Quote] + rest == [Quote] + rest;
    } else {
      var tail := EscapeAll(x[1..]) + [Quote] + rest;
      assert EscapeAll(x) + [Quote] + rest == EscapeChar(x[0]) + tail;
      UnquoteChar(x[0], tail);
      UnquoteEscaped(x[1..], rest);
      assert [x[0]] + x[1..] == x;
    }
  }

  /** `JSON.parse(JSON.stringify(s))` gives back `s`, and the reader stops
      right after the written string. */
  lemma ParseQuoted(x: string, rest: string)
    ensures ParseString(QuoteString(x) + rest) == Some((x, rest))
  {
    var s := QuoteString(x) + rest;
    assert s[1..] == EscapeAll(x) + [Quote] + rest;
    UnquoteEscaped(x, rest);
  }

  lemma ParseLastElement(x: string)
    ensures ParseElements(QuoteString(x) + "]") == Some([x])
  {
    ParseQuoted(x, "]");
  }

  lemma ParseNextElement(x: string, t: string)
    ensures ParseElements(QuoteString(x) + ("," + t))
         == match ParseElements(t) case None => None case Some(xs) => Some([x] + xs)
  {
    var rest := "," + t;
    ParseQuoted(x, rest);
    assert rest[0] == ',' && rest != "]";
    assert rest[1..] == t;
  }

  lemma {:induction false} ParseElementsWritten(xs: seq<string>)
    requires xs != []
    ensures ParseElements(Elements(xs) + "]") == Some(xs)
  {
    if |xs| == 1 {
      assert Elements(xs) == QuoteString(xs[0]);
      ParseLastElement(xs[0]);
      assert [xs[0]] == xs;
    } else {
      var t := Elements(xs[1..]) + "]";
      assert Elements(xs) + "]" == QuoteString(xs[0]) + ("," + t);
      ParseNextElement(xs[0], t);
      ParseElementsWritten(xs[1..]);
      assert [xs[0]] + xs[1..] == xs;
    }
  }

  lemma ElementsStartWithQuote(xs: seq<string>)
    requires xs != []
    ensures |Elements(xs)| > 0 && Elements(xs)[0] == Quote
  {
    var q := QuoteString(xs[0]);
    if |xs| > 1 {
      var t := "," + Elements(xs[1..]);
      assert Elements(xs) == q + t;
      assert (q + t)[0] == q[0];
    }
  }

  /** Reading a written array of strings gives back the array. */
  lemma StringifyRoundTrip(xs: seq<string>)
    ensures ParseStrings(StringifyStrings(xs)) == Some(xs)
  {
    var text := StringifyStrings(xs);
    if xs != [] {
      ElementsStartWithQuote(xs);
      assert text[1] == Quote;
      assert text[1..] == Elements(xs) + "]";
      ParseElementsWritten(xs);
    }
  }

  /** Distinct arrays of strings are written as distinct texts. */
  lemma StringifyInjective(xs: seq<string>, ys: seq<string>)
    requires StringifyStrings(xs) == StringifyStrings(ys)
    ensures xs == ys
  {
    StringifyRoundTrip(xs);
    StringifyRoundTrip(ys);
  }
}
