/** A client's reading of one page of the MCP resource list (crates/mcp/src/resource.rs): the array key,
    the JSON records between the brackets, and the continuation token. */
module PageReader {
  import opened Wrappers
  import opened JsonText
  import opened ResourceCursors

  // ---------------------------------------------------------------- where a JSON object ends

  /** How deep a scan is inside brackets, and whether it is inside a string or behind a backslash. */
  datatype Scan = Scan(depth: nat, quoted: bool, escaped: bool)

  const OUTSIDE := Scan(0, false, false)

  function Advance(scan: Scan, c: char): Scan {
    if scan.quoted then
      if scan.escaped then scan.(escaped := false)
      else if c == '\\' then scan.(escaped := true)
      else if c == '"' then scan.(quoted := false)
      else scan
    else if c == '"' then scan.(quoted := true)
    else if c == '{' || c == '[' then scan.(depth := scan.depth + 1)
    else if (c == '}' || c == ']') && scan.depth > 0 then scan.(depth := scan.depth - 1)
    else scan
  }

  /** How many characters a scan reads until it is outside every bracket and string. */
  function Extent(text: string, scan: Scan): (r: Option<nat>)
    ensures r.Some? ==> 0 < r.value <= |text|
  {
    if text == "" then None
    else if Advance(scan, text[0]) == OUTSIDE then Some(1)
    else
      var n :- Extent(text[1..], Advance(scan, text[0]));
      Some(n + 1)
  }

  /** A text with the bracket structure of one JSON object. */
  predicate IsObject(text: string) {
    text != "" && text[0] == '{' && Extent(text, OUTSIDE) == Some(|text|)
  }

  ghost predicate AreObjects(records: seq<string>) {
    forall i :: 0 <= i < |records| ==> IsObject(records[i])
  }

  lemma {:induction false} ExtentJoined(text: string, rest: string, scan: Scan)
    requires Extent(text, scan) == Some(|text|)
    ensures Extent(text + rest, scan) == Some(|text|)
    decreases |text|
  {
    assert (text + rest)[1..] == text[1..] + rest;
    if Advance(scan, text[0]) != OUTSIDE {
      ExtentJoined(text[1..], rest, Advance(scan, text[0]));
    }
  }

  // A written object has that structure, whatever its strings hold.

  function After(extent: Option<nat>, n: nat): Option<nat> {
    if extent.Some? then Some(extent.value + n) else None
  }

  lemma ClosingQuote(rest: string, depth: nat)
    requires depth > 0
    ensures Extent("\"" + rest, Scan(depth, true, false)) == After(Extent(rest, Scan(depth, false, false)), 1)
  {
    assert ("\"" + rest)[1..] == rest;
  }

  lemma OpeningQuote(rest: string, depth: nat)
    requires depth > 0
    ensures Extent("\"" + rest, Scan(depth, false, false)) == After(Extent(rest, Scan(depth, true, false)), 1)
  {
    assert ("\"" + rest)[1..] == rest;
  }

  lemma {:induction false} SkipEscaped(s: string, closing: string, depth: nat)
    requires depth > 0
    ensures Extent(Escaped(s) + closing, Scan(depth, true, false)) == After(Extent(closing, Scan(depth, true, false)), |Escaped(s)|)
  {
    if s == "" {
      assert Escaped(s) + closing == closing;
    } else {
      var more := Escaped(s[1..]) + closing;
      SkipEscaped(s[1..], closing, depth);
      assert [s[0]] + s[1..] == s;
      EscapedHead(s[0], s[1..], closing);
      SkipCharacter(s[0], more, depth);
      assert |Escaped(s)| == |Escape(s[0])| + |Escaped(s[1..])|;
    }
  }

  /** A backslash and the character behind it. */
  lemma SkipPair(c: char, rest: string, depth: nat)
    requires depth > 0
    ensures Extent(['\\', c] + rest, Scan(depth, true, false)) == After(Extent(rest, Scan(depth, true, false)), 2)
  {
    var text := ['\\', c] + rest;
    assert text[1..] == [c] + rest && ([c] + rest)[1..] == rest;
  }

  lemma SkipSelf(c: char, rest: string, depth: nat)
    requires depth > 0 && c != '"' && c != '\\'
    ensures Extent([c] + rest, Scan(depth, true, false)) == After(Extent(rest, Scan(depth, true, false)), 1)
  {
    assert ([c] + rest)[1..] == rest;
  }

  lemma SkipCharacter(c: char, rest: string, depth: nat)
    requires depth > 0
    ensures Extent(Escape(c) + rest, Scan(depth, true, false)) == After(Extent(rest, Scan(depth, true, false)), |Escape(c)|)
  {
    var e := Escape(c);
    if |e| == 1 {
      SkipSelf(c, rest, depth);
    } else if |e| == 2 {
      assert e == ['\\', e[1]];
      SkipPair(e[1], rest, depth);
    } else {
      var digits := e[2..];
      assert e == ['\\', 'u'] + digits && e + rest == ['\\', 'u'] + (digits + rest);
      SkipPair('u', digits + rest, depth);
      SkipHex(digits, rest, depth);
    }
  }

  lemma {:induction false} SkipHex(digits: string, rest: string, depth: nat)
    requires depth > 0 && forall i :: 0 <= i < |digits| ==> digits[i] != '"' && digits[i] != '\\'
    ensures Extent(digits + rest, Scan(depth, true, false)) == After(Extent(rest, Scan(depth, true, false)), |digits|)
    decreases |digits|
  {
    if digits == "" {
      assert digits + rest == rest;
    } else {
      assert (digits + rest)[1..] == digits[1..] + rest;
      SkipHex(digits[1..], rest, depth);
    }
  }

  lemma SkipQuoted(s: string, rest: string, depth: nat)
    requires depth > 0
    ensures Extent(Quote(s) + rest, Scan(depth, false, false)) == After(Extent(rest, Scan(depth, false, false)), |Quote(s)|)
  {
    QuotedParts(s, rest);
    OpeningQuote(Escaped(s) + ("\"" + rest), depth);
    SkipEscaped(s, "\"" + rest, depth);
    ClosingQuote(rest, depth);
  }

  lemma QuotedParts(s: string, rest: string)
    ensures Quote(s) + rest == "\"" + (Escaped(s) + ("\"" + rest)) && |Quote(s)| == |Escaped(s)| + 2
  {
  }

  lemma SkipOne(c: char, rest: string, depth: nat)
    requires depth > 0 && c in {':', ','}
    ensures Extent([c] + rest, Scan(depth, false, false)) == After(Extent(rest, Scan(depth, false, false)), 1)
  {
    assert ([c] + rest)[1..] == rest;
  }

  lemma ClosingBrace()
    ensures Extent("}", Scan(1, false, false)) == Some(1)
  {
  }

  /** The members of an object with text values. */
  function Members(fields: seq<(string, string)>): string
    decreases |fields|, 0
  {
    if fields == [] then "}" else Quote(fields[0].0) + ([':'] + (Quote(fields[0].1) + More(fields[1..])))
  }

  function More(fields: seq<(string, string)>): string
    decreases |fields|, 1
  {
    if fields == [] then "}" else [','] + Members(fields)
  }

  lemma {:induction false} SkipMembers(fields: seq<(string, string)>)
    ensures Extent(Members(fields), Scan(1, false, false)) == Some(|Members(fields)|)
    decreases |fields|
  {
    ClosingBrace();
    if fields != [] {
      var rest := fields[1..];
      SkipMembers(rest);
      if rest != [] {
        SkipOne(',', Members(rest), 1);
      }
      SkipMember(fields[0].0, fields[0].1, More(rest));
    }
  }

  lemma SkipMember(name: string, value: string, rest: string)
    requires Extent(rest, Scan(1, false, false)) == Some(|rest|)
    ensures var text := Quote(name) + ([':'] + (Quote(value) + rest));
            Extent(text, Scan(1, false, false)) == Some(|text|)
  {
    SkipQuoted(value, rest, 1);
    SkipOne(':', Quote(value) + rest, 1);
    SkipQuoted(name, [':'] + (Quote(value) + rest), 1);
  }

  lemma WrittenObject(fields: seq<(string, string)>)
    ensures IsObject("{" + Members(fields))
  {
    SkipMembers(fields);
    OpenBrace(Members(fields));
  }

  lemma OpenBrace(rest: string)
    requires Extent(rest, Scan(1, false, false)) == Some(|rest|)
    ensures IsObject("{" + rest)
  {
    assert ("{" + rest)[1..] == rest;
  }

  // ---------------------------------------------------------------- reading

  /** The records up to the closing bracket; there is at least one. */
  function ReadMore(text: string): Option<Parsed<seq<string>>>
    decreases |text|
  {
    if text == "" || text[0] != '{' then None
    else
      var n :- Extent(text, OUTSIDE);
      var rest := text[n..];
      if rest == "" then None
      else if rest[0] == ']' then Some(Parsed([text[..n]], rest[1..]))
      else if rest[0] != ',' then None
      else
        var more :- ReadMore(rest[1..]);
        Some(Parsed([text[..n]] + more.value, more.rest))
  }

  function ReadRecords(text: string): Option<Parsed<seq<string>>> {
    if text != "" && text[0] == ']' then Some(Parsed([], text[1..])) else ReadMore(text)
  }

  function ReadNext(text: string): Option<Option<string>> {
    if text == "}" then Some(None)
    else
      var t :- Expect(text, ",\"nextCursor\":");
      var token :- ParseString(t);
      if token.rest == "}" then Some(Some(token.value)) else None
  }

  /** What a page says. */
  datatype PageRead = PageRead(kind: Kind, records: seq<string>, next: Option<string>)

  function ReadRest(kind: Kind, text: string): Option<PageRead> {
    var records :- ReadRecords(text);
    var next :- ReadNext(records.rest);
    Some(PageRead(kind, records.value, next))
  }

  function ReadPage(text: string): Option<PageRead> {
    if Expect(text, "{\"resources\":[").Some? then ReadRest(Resources, Expect(text, "{\"resources\":[").value)
    else
      var t :- Expect(text, "{\"resourceTemplates\":[");
      ReadRest(Templates, t)
  }

  // ---------------------------------------------------------------- reading what was written

  function Commas(records: seq<string>): string {
    if records == [] then "" else if |records| == 1 then records[0] else records[0] + ("," + Commas(records[1..]))
  }

  lemma TakeObject(record: string, tail: string)
    requires IsObject(record)
    ensures var text := record + tail;
            text != "" && text[0] == '{' && Extent(text, OUTSIDE) == Some(|record|) && text[|record|..] == tail && text[..|record|] == record
  {
    ExtentJoined(record, tail, OUTSIDE);
  }

  lemma ReadLast(record: string, rest: string)
    requires IsObject(record)
    ensures ReadMore(record + ("]" + rest)) == Some(Parsed([record], rest))
  {
    TakeObject(record, "]" + rest);
    assert ("]" + rest)[1..] == rest;
  }

  lemma ReadFirst(record: string, tail: string)
    requires IsObject(record)
    ensures ReadMore(record + ("," + tail)) ==
            if ReadMore(tail).Some? then Some(Parsed([record] + ReadMore(tail).value.value, ReadMore(tail).value.rest)) else None
  {
    TakeObject(record, "," + tail);
    assert ("," + tail)[1..] == tail;
  }

  lemma {:induction false} ReadCommas(records: seq<string>, rest: string)
    requires records != [] && AreObjects(records)
    ensures ReadMore(Commas(records) + ("]" + rest)) == Some(Parsed(records, rest))
    decreases |records|
  {
    if |records| == 1 {
      ReadLast(records[0], rest);
      assert records == [records[0]];
    } else {
      var more := records[1..];
      assert forall i :: 0 <= i < |more| ==> more[i] == records[i + 1];
      ReadCommas(more, rest);
      ReadFirst(records[0], Commas(more) + ("]" + rest));
      MoveComma(records[0], Commas(more), "]" + rest);
      assert records == [records[0]] + more;
    }
  }

  lemma MoveComma(record: string, more: string, rest: string)
    ensures (record + ("," + more)) + rest == record + ("," + (more + rest))
  {
  }

  lemma ReadWrittenRecords(records: seq<string>, rest: string)
    requires AreObjects(records)
    ensures ReadRecords(Commas(records) + ("]" + rest)) == Some(Parsed(records, rest))
  {
    var text := Commas(records) + ("]" + rest);
    if records == [] {
      assert text == "]" + rest && ("]" + rest)[1..] == rest;
    } else {
      ReadCommas(records, rest);
      assert IsObject(records[0]) && text[0] == records[0][0];
    }
  }

  predicate IsPlain(s: string) {
    forall i :: 0 <= i < |s| ==> s[i] as int >= 32 && s[i] != '"' && s[i] != '\\'
  }

  lemma {:induction false} PlainIsUnescaped(s: string)
    requires IsPlain(s)
    ensures Escaped(s) == s
  {
    if s != "" {
      PlainIsUnescaped(s[1..]);
      assert s == [s[0]] + s[1..];
    }
  }

  /** The end of a page: the token, if there is one, and the closing brace. */
  function Closing(next: Option<string>): string {
    if next.Some? then ",\"nextCursor\":\"" + next.value + "\"}" else "}"
  }

  lemma ReadClosing(next: Option<string>)
    requires next.Some? ==> IsPlain(next.value)
    ensures ReadNext(Closing(next)) == Some(next)
  {
    if next.Some? {
      PlainIsUnescaped(next.value);
      var quoted := Quote(next.value) + "}";
      assert Closing(next) == ",\"nextCursor\":" + quoted;
      ExpectJoined(",\"nextCursor\":", quoted);
      ParseQuoted(next.value, "}");
    }
  }

  /** Reading a page back gives its kind by the array key, its records in order, and its token. */
  lemma ReadWrittenPage(kind: Kind, records: seq<string>, next: Option<string>)
    requires AreObjects(records) && (next.Some? ==> IsPlain(next.value))
    ensures var key := if kind == Resources then "{\"resources\":[" else "{\"resourceTemplates\":[";
            ReadPage(key + (Commas(records) + ("]" + Closing(next)))) == Some(PageRead(kind, records, next))
  {
    var body := Commas(records) + ("]" + Closing(next));
    ReadWrittenRecords(records, Closing(next));
    ReadClosing(next);
    if kind == Resources {
      ExpectJoined("{\"resources\":[", body);
    } else {
      ExpectJoined("{\"resourceTemplates\":[", body);
      assert ("{\"resourceTemplates\":[" + body)[10] != "{\"resources\":["[10];
    }
  }
}
