/** The JSON text of strings and natural numbers (RFC 8259, sections 6 and 7), as the writers of the
    cursor and the page produce it. */
module JsonText {
  import opened Wrappers

  /** A value read from the front of a text, and the text after it. */
  datatype Parsed<+T> = Parsed(value: T, rest: string)

  function Expect(text: string, literal: string): Option<string> {
    if literal <= text then Some(text[|literal|..]) else None
  }

  lemma ExpectJoined(literal: string, rest: string)
    ensures Expect(literal + rest, literal) == Some(rest)
  {
  }

  // ---------------------------------------------------------------- strings

  function Hex(n: int): char
    requires 0 <= n < 16
  {
    if n < 10 then (n + 48) as char else (n + 87) as char
  }

  function HexValue(c: char): Option<int> {
    if '0' <= c <= '9' then Some(c as int - 48)
    else if 'a' <= c <= 'f' then Some(c as int - 87)
    else None
  }

  /** How one character is written inside a string. */
  function Escape(c: char): string {
    if c == '"' then "\\\""
    else if c == '\\' then "\\\\"
    else if c as int == 8 then "\\b"
    else if c as int == 9 then "\\t"
    else if c as int == 10 then "\\n"
    else if c as int == 12 then "\\f"
    else if c as int == 13 then "\\r"
    else if c as int < 32 then "\\u00" + [Hex(c as int / 16), Hex(c as int % 16)]
    else [c]
  }

  function Escaped(s: string): string {
    if s == "" then "" else Escape(s[0]) + Escaped(s[1..])
  }

  function Quote(s: string): string {
    "\"" + (Escaped(s) + "\"")
  }

  /** The character a two-character escape stands for. */
  function ShortEscape(c: char): Option<char> {
    if c == '"' || c == '\\' then Some(c)
    else if c == 'b' then Some(8 as char)
    else if c == 't' then Some(9 as char)
    else if c == 'n' then Some(10 as char)
    else if c == 'f' then Some(12 as char)
    else if c == 'r' then Some(13 as char)
    else None
  }

  function LongEscape(text: string): Option<char> {
    if |text| < 6 || text[2] != '0' || text[3] != '0' then None
    else
      var high :- HexValue(text[4]);
      var low :- HexValue(text[5]);
      if high < 2 then Some((high * 16 + low) as char) else None
  }

  function Prepend(c: char, parsed: Option<Parsed<string>>): Option<Parsed<string>> {
    if parsed.Some? then Some(Parsed([c] + parsed.value.value, parsed.value.rest)) else None
  }

  /** Reads the rest of a string after its opening quote. */
  function Unquote(text: string): Option<Parsed<string>> {
    if text == "" then None
    else if text[0] == '"' then Some(Parsed("", text[1..]))
    else if text[0] as int < 32 then None
    else if text[0] != '\\' then Prepend(text[0], Unquote(text[1..]))
    else if |text| < 2 then None
    else if text[1] == 'u' then
      var c :- LongEscape(text);
      Prepend(c, Unquote(text[6..]))
    else
      var c :- ShortEscape(text[1]);
      Prepend(c, Unquote(text[2..]))
  }

  lemma UnquoteEscape(c: char, text: string)
    ensures Unquote(Escape(c) + text) == Prepend(c, Unquote(text))
  {
    var e := Escape(c) + text;
    if c as int < 32 && |Escape(c)| == 6 {
      assert e[..6] == Escape(c) && e[6..] == text;
      assert LongEscape(e) == Some(c);
    } else if |Escape(c)| == 2 {
      assert e[2..] == text;
      assert ShortEscape(e[1]) == Some(c);
    } else {
      assert e[1..] == text;
    }
  }

  lemma EscapedHead(c: char, s: string, closing: string)
    ensures Escaped([c] + s) + closing == Escape(c) + (Escaped(s) + closing)
  {
    assert ([c] + s)[1..] == s;
    Regroup(Escape(c), Escaped(s), closing);
  }

  lemma Regroup(a: string, b: string, c: string)
    ensures (a + b) + c == a + (b + c)
  {
  }

  lemma UnquoteClosing(closing: string)
    requires closing != "" && closing[0] == '"'
    ensures Unquote(Escaped("") + closing) == Some(Parsed("", closing[1..]))
  {
    assert Escaped("") + closing == closing;
  }

  lemma {:induction false} UnquoteEscaped(s: string, closing: string)
    requires closing != "" && closing[0] == '"'
    ensures Unquote(Escaped(s) + closing) == Some(Parsed(s, closing[1..]))
  {
    if s == "" {
      UnquoteClosing(closing);
    } else {
      var c, front := s[0], s[1..];
      assert s == [c] + front;
      UnquoteEscaped(front, closing);
      EscapedHead(c, front, closing);
      UnquoteEscape(c, Escaped(front) + closing);
    }
  }

  function ParseString(text: string): Option<Parsed<string>> {
    var body :- Expect(text, "\"");
    Unquote(body)
  }

  /** Reading back a written string gives the string and leaves what follows. */
  lemma ParseQuoted(s: string, rest: string)
    ensures ParseString(Quote(s) + rest) == Some(Parsed(s, rest))
  {
    var closing := "\"" + rest;
    assert Quote(s) + rest == "\"" + (Escaped(s) + closing);
    ExpectJoined("\"", Escaped(s) + closing);
    UnquoteEscaped(s, closing);
    assert closing[1..] == rest;
  }

  // ---------------------------------------------------------------- numbers

  function Digit(n: int): char
    requires 0 <= n < 10
  {
    (n + 48) as char
  }

  predicate IsDigit(c: char) {
    '0' <= c <= '9'
  }

  function Digits(n: nat): (text: string)
    ensures |text| > 0
  {
    if n < 10 then [Digit(n)] else Digits(n / 10) + [Digit(n % 10)]
  }

  function ReadDigits(text: string, value: nat): Parsed<nat>
    decreases |text|
  {
    if text != "" && IsDigit(text[0]) then ReadDigits(text[1..], value * 10 + (text[0] as int - 48))
    else Parsed(value, text)
  }

  /** A number has no leading zero. */
  function ParseNat(text: string): Option<Parsed<nat>> {
    if text == "" || !IsDigit(text[0]) then None
    else
      var parsed := ReadDigits(text, 0);
      if text[0] == '0' && |parsed.rest| != |text| - 1 then None else Some(parsed)
  }

  lemma {:induction false} ReadWritten(n: nat, rest: string)
    ensures ReadDigits(Digits(n) + rest, 0) == ReadDigits(rest, n)
    ensures IsDigit(Digits(n)[0])
    ensures Digits(n)[0] == '0' <==> n == 0
  {
    if n < 10 {
      assert ([Digit(n)] + rest)[1..] == rest;
    } else {
      var tail := [Digit(n % 10)] + rest;
      assert Digits(n) + rest == Digits(n / 10) + tail;
      ReadWritten(n / 10, tail);
      assert tail[1..] == rest;
    }
  }

  /** Reading back a written number gives the number and leaves what follows. */
  lemma ParseDigits(n: nat, rest: string)
    requires rest == "" || !IsDigit(rest[0])
    ensures ParseNat(Digits(n) + rest) == Some(Parsed(n, rest))
  {
    ReadWritten(n, rest);
    if n == 0 {
      assert Digits(n) == "0";
    }
  }

  lemma {:induction false} DigitsGrow(m: nat, n: nat)
    requires m <= n
    ensures |Digits(m)| <= |Digits(n)|
  {
    if n >= 10 && m >= 10 {
      DigitsGrow(m / 10, n / 10);
    }
  }
}
