/** The continuation cursor of a resource listing, crates/mcp/src/resource.rs: canonical JSON in
    unpadded URL-safe base64. */
module ResourceCursors {
  import opened Wrappers
  import opened Base64
  import opened JsonText

  const U64_MAX: nat := 0xFFFF_FFFF_FFFF_FFFF

  datatype Kind = Resources | Templates

  datatype Cursor = Cursor(version: nat, sessionId: string, catalogRevision: nat, kind: Kind, server: Option<string>, nextIndex: nat)

  /** The field widths of the source's cursor. */
  predicate InRange(cursor: Cursor) {
    && cursor.version < 256 && cursor.catalogRevision <= U64_MAX && cursor.nextIndex <= U64_MAX
    && IsBytes(cursor.sessionId) && (cursor.server.Some? ==> IsBytes(cursor.server.value))
  }

  const VERSION := "{\"version\":"
  const SESSION := ",\"sessionId\":"
  const REVISION := ",\"catalogRevision\":"
  const KIND := ",\"kind\":"
  const SERVER := ",\"server\":"
  const INDEX := ",\"nextIndex\":"

  function KindName(kind: Kind): string {
    if kind == Resources then "resources" else "templates"
  }

  function KindNamed(name: string): Option<Kind> {
    if name == "resources" then Some(Resources) else if name == "templates" then Some(Templates) else None
  }

  function ServerText(server: Option<string>): string {
    if server.Some? then Quote(server.value) else "null"
  }

  function ParseServer(text: string): Option<Parsed<Option<string>>> {
    if Expect(text, "null").Some? then Some(Parsed(None, text[4..]))
    else
      var parsed :- ParseString(text);
      Some(Parsed(Some(parsed.value), parsed.rest))
  }

  // The text is written from its end, so that every reading step meets a prefix.

  function IndexText(cursor: Cursor): string { INDEX + (Digits(cursor.nextIndex) + "}") }
  function ServerOn(cursor: Cursor): string { SERVER + (ServerText(cursor.server) + IndexText(cursor)) }
  function KindOn(cursor: Cursor): string { KIND + (Quote(KindName(cursor.kind)) + ServerOn(cursor)) }
  function RevisionOn(cursor: Cursor): string { REVISION + (Digits(cursor.catalogRevision) + KindOn(cursor)) }
  function SessionOn(cursor: Cursor): string { SESSION + (Quote(cursor.sessionId) + RevisionOn(cursor)) }

  function Serialize(cursor: Cursor): string {
    VERSION + (Digits(cursor.version) + SessionOn(cursor))
  }

  function ParseIndex(text: string): Option<nat> {
    var t :- Expect(text, INDEX);
    var index :- ParseNat(t);
    if index.rest == "}" then Some(index.value) else None
  }

  function ParseRoute(text: string): Option<(Kind, Option<string>, nat)> {
    var t :- Expect(text, KIND);
    var name :- ParseString(t);
    var kind :- KindNamed(name.value);
    var u :- Expect(name.rest, SERVER);
    var server :- ParseServer(u);
    var index :- ParseIndex(server.rest);
    Some((kind, server.value, index))
  }

  function ParseCursor(text: string): Option<Cursor> {
    var t :- Expect(text, VERSION);
    var version :- ParseNat(t);
    var u :- Expect(version.rest, SESSION);
    var session :- ParseString(u);
    var v :- Expect(session.rest, REVISION);
    var revision :- ParseNat(v);
    var route :- ParseRoute(revision.rest);
    var cursor := Cursor(version.value, session.value, revision.value, route.0, route.1, route.2);
    if InRange(cursor) then Some(cursor) else None
  }

  lemma ParseServerText(server: Option<string>, rest: string)
    ensures ParseServer(ServerText(server) + rest) == Some(Parsed(server, rest))
  {
    if server.Some? {
      ParseQuoted(server.value, rest);
      assert (ServerText(server) + rest)[0] == '"';
    } else {
      ExpectJoined("null", rest);
    }
  }

  lemma ParseIndexText(cursor: Cursor)
    ensures ParseIndex(IndexText(cursor)) == Some(cursor.nextIndex)
  {
    ExpectJoined(INDEX, Digits(cursor.nextIndex) + "}");
    ParseDigits(cursor.nextIndex, "}");
  }

  lemma ParseRouteText(cursor: Cursor)
    ensures ParseRoute(KindOn(cursor)) == Some((cursor.kind, cursor.server, cursor.nextIndex))
  {
    ExpectJoined(KIND, Quote(KindName(cursor.kind)) + ServerOn(cursor));
    ParseQuoted(KindName(cursor.kind), ServerOn(cursor));
    ExpectJoined(SERVER, ServerText(cursor.server) + IndexText(cursor));
    ParseServerText(cursor.server, IndexText(cursor));
    ParseIndexText(cursor);
  }

  /** Reading back a written cursor gives the cursor. */
  lemma ParseSerialized(cursor: Cursor)
    requires InRange(cursor)
    ensures ParseCursor(Serialize(cursor)) == Some(cursor)
  {
    ExpectJoined(VERSION, Digits(cursor.version) + SessionOn(cursor));
    assert SessionOn(cursor)[0] == ',';
    ParseDigits(cursor.version, SessionOn(cursor));
    ExpectJoined(SESSION, Quote(cursor.sessionId) + RevisionOn(cursor));
    ParseQuoted(cursor.sessionId, RevisionOn(cursor));
    ExpectJoined(REVISION, Digits(cursor.catalogRevision) + KindOn(cursor));
    assert KindOn(cursor)[0] == ',';
    ParseDigits(cursor.catalogRevision, KindOn(cursor));
    ParseRouteText(cursor);
  }

  // ---------------------------------------------------------------- tokens

  lemma {:induction false} EscapedBytes(s: string)
    requires IsBytes(s)
    ensures IsBytes(Escaped(s))
  {
    if s != "" {
      EscapedBytes(s[1..]);
    }
  }

  lemma {:induction false} DigitsBytes(n: nat)
    ensures IsBytes(Digits(n))
  {
    if n >= 10 {
      DigitsBytes(n / 10);
    }
  }

  lemma QuoteBytes(s: string)
    requires IsBytes(s)
    ensures IsBytes(Quote(s))
  {
    EscapedBytes(s);
  }

  lemma JoinBytes(a: string, b: string, c: string)
    requires IsBytes(a) && IsBytes(b) && IsBytes(c)
    ensures IsBytes(a + (b + c))
  {
  }

  lemma RouteBytes(cursor: Cursor)
    requires InRange(cursor)
    ensures IsBytes(KindOn(cursor))
  {
    DigitsBytes(cursor.nextIndex);
    JoinBytes(INDEX, Digits(cursor.nextIndex), "}");
    if cursor.server.Some? {
      QuoteBytes(cursor.server.value);
    }
    JoinBytes(SERVER, ServerText(cursor.server), IndexText(cursor));
    QuoteBytes(KindName(cursor.kind));
    JoinBytes(KIND, Quote(KindName(cursor.kind)), ServerOn(cursor));
  }

  lemma RevisionBytes(cursor: Cursor)
    requires InRange(cursor)
    ensures IsBytes(RevisionOn(cursor))
  {
    RouteBytes(cursor);
    DigitsBytes(cursor.catalogRevision);
    JoinBytes(REVISION, Digits(cursor.catalogRevision), KindOn(cursor));
  }

  lemma SerializedBytes(cursor: Cursor)
    requires InRange(cursor)
    ensures IsBytes(Serialize(cursor))
  {
    RevisionBytes(cursor);
    QuoteBytes(cursor.sessionId);
    JoinBytes(SESSION, Quote(cursor.sessionId), RevisionOn(cursor));
    DigitsBytes(cursor.version);
    JoinBytes(VERSION, Digits(cursor.version), SessionOn(cursor));
  }

  function Token(cursor: Cursor): string
    requires InRange(cursor)
  {
    SerializedBytes(cursor);
    Encode(Serialize(cursor))
  }

  function Redeem(token: string): Option<Cursor> {
    var bytes :- Decode(token);
    ParseCursor(bytes)
  }

  /** Every issued cursor decodes to itself. */
  lemma RedeemToken(cursor: Cursor)
    requires InRange(cursor)
    ensures Redeem(Token(cursor)) == Some(cursor)
  {
    SerializedBytes(cursor);
    DecodeEncode(Serialize(cursor));
    ParseSerialized(cursor);
  }

  /** A cursor further down the list is never shorter. */
  lemma TokensGrow(cursor: Cursor, later: Cursor)
    requires InRange(cursor) && InRange(later) && later == cursor.(nextIndex := later.nextIndex)
    requires cursor.nextIndex <= later.nextIndex
    ensures |Token(cursor)| <= |Token(later)|
  {
    SerializedBytes(cursor);
    SerializedBytes(later);
    DigitsGrow(cursor.nextIndex, later.nextIndex);
    EncodeLength(Serialize(cursor));
    EncodeLength(Serialize(later));
  }

  lemma RouteText(cursor: Cursor)
    ensures var name := if cursor.kind == Resources then "\"resources\"" else "\"templates\"";
            var server := if cursor.server.Some? then Quote(cursor.server.value) else "null";
            KindOn(cursor) == ",\"kind\":" + (name + (",\"server\":" + (server + (",\"nextIndex\":" + (Digits(cursor.nextIndex) + "}")))))
  {
    QuotedName(KindName(cursor.kind));
    assert "\"" + "resources" + "\"" == "\"resources\"" && "\"" + "templates" + "\"" == "\"templates\"";
  }

  /** The text of a cursor: six members in a fixed order. */
  lemma SerializedText(cursor: Cursor)
    ensures Serialize(cursor) == "{\"version\":" + (Digits(cursor.version) + (",\"sessionId\":" + (Quote(cursor.sessionId)
              + (",\"catalogRevision\":" + (Digits(cursor.catalogRevision) + KindOn(cursor))))))
    ensures var name := if cursor.kind == Resources then "\"resources\"" else "\"templates\"";
            var server := if cursor.server.Some? then Quote(cursor.server.value) else "null";
            KindOn(cursor) == ",\"kind\":" + (name + (",\"server\":" + (server + (",\"nextIndex\":" + (Digits(cursor.nextIndex) + "}")))))
  {
    RouteText(cursor);
  }

  lemma {:induction false} PlainEscaped(s: string)
    requires forall i :: 0 <= i < |s| ==> 'a' <= s[i] <= 'z'
    ensures Escaped(s) == s
  {
    if s != "" {
      PlainEscaped(s[1..]);
      assert s == [s[0]] + s[1..];
    }
  }

  lemma QuotedName(s: string)
    requires forall i :: 0 <= i < |s| ==> 'a' <= s[i] <= 'z'
    ensures Quote(s) == "\"" + s + "\""
  {
    PlainEscaped(s);
  }
}
