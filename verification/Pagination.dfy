/** Bounded pages of the MCP resource list, crates/mcp/src/resource.rs: the bisection for the largest
    page and the cursor chain over a whole list. Records are their serialized JSON, already filtered
    and sorted. */
module Pagination {
  import opened Wrappers
  import opened Base64
  import opened ResourceCursors
  import opened PageReader

  const TOOL_TEXT_BYTES: nat := 20480

  /** What a cursor is bound to. */
  datatype Context = Context(sessionId: string, revision: nat, kind: Kind, server: Option<string>)

  ghost predicate Listing(ctx: Context, items: seq<string>) {
    && IsBytes(ctx.sessionId) && ctx.revision <= U64_MAX && (ctx.server.Some? ==> IsBytes(ctx.server.value))
    && |items| <= U64_MAX
  }

  function CursorAt(ctx: Context, index: nat): Cursor {
    Cursor(1, ctx.sessionId, ctx.revision, ctx.kind, ctx.server, index)
  }

  function TokenAt(ctx: Context, items: seq<string>, index: nat): string
    requires Listing(ctx, items) && index <= |items|
  {
    Token(CursorAt(ctx, index))
  }

  // ---------------------------------------------------------------- the page text

  function Concat(chunks: seq<string>): string {
    if chunks == [] then "" else Concat(chunks[..|chunks| - 1]) + chunks[|chunks| - 1]
  }

  function ArrayKey(kind: Kind): string {
    if kind == Resources then "{\"resources\":[" else "{\"resourceTemplates\":["
  }

  /** The records of a page and the commas between them, in the pieces they are written. */
  function RecordChunks(items: seq<string>): seq<string> {
    if items == [] then []
    else if |items| == 1 then items
    else RecordChunks(items[..|items| - 1]) + [",", items[|items| - 1]]
  }

  function Chunks(ctx: Context, items: seq<string>, start: nat, end: nat): seq<string>
    requires Listing(ctx, items) && start <= end <= |items|
  {
    [ArrayKey(ctx.kind)] + RecordChunks(items[start..end]) + ["]"]
    + (if end < |items| then [",\"nextCursor\":\"", TokenAt(ctx, items, end), "\""] else [])
    + ["}"]
  }

  function PageText(ctx: Context, items: seq<string>, start: nat, end: nat): string
    requires Listing(ctx, items) && start <= end <= |items|
  {
    Concat(Chunks(ctx, items, start, end))
  }

  predicate Fits(ctx: Context, items: seq<string>, start: nat, end: nat)
    requires Listing(ctx, items) && start <= end <= |items|
  {
    |PageText(ctx, items, start, end)| <= TOOL_TEXT_BYTES
  }

  lemma {:induction false} ConcatJoined(a: seq<string>, b: seq<string>)
    ensures Concat(a + b) == Concat(a) + Concat(b)
  {
    if b == [] {
      assert a + b == a;
    } else {
      assert (a + b)[..|a + b| - 1] == a + b[..|b| - 1];
      ConcatJoined(a, b[..|b| - 1]);
    }
  }

  lemma {:induction false} RecordsGrow(items: seq<string>, shorter: nat, longer: nat)
    requires shorter <= longer <= |items|
    ensures |Concat(RecordChunks(items[..shorter]))| <= |Concat(RecordChunks(items[..longer]))|
  {
    if shorter < longer {
      var a, b := items[..longer - 1], items[..longer];
      RecordsGrow(items, shorter, longer - 1);
      assert b[..longer - 1] == a;
      if longer > 1 {
        ConcatJoined(RecordChunks(a), [",", items[longer - 1]]);
      } else {
        assert a == [] && Concat([]) == "";
      }
    }
  }

  function TailLength(ctx: Context, items: seq<string>, end: nat): nat
    requires Listing(ctx, items) && end <= |items|
  {
    if end < |items| then 15 + |TokenAt(ctx, items, end)| + 1 else 0
  }

  lemma PageLength(ctx: Context, items: seq<string>, start: nat, end: nat)
    requires Listing(ctx, items) && start <= end <= |items|
    ensures |PageText(ctx, items, start, end)| ==
            |ArrayKey(ctx.kind)| + |Concat(RecordChunks(items[start..end]))| + 1 + TailLength(ctx, items, end) + 1
  {
    var records := RecordChunks(items[start..end]);
    var tail := if end < |items| then [",\"nextCursor\":\"", TokenAt(ctx, items, end), "\""] else [];
    ConcatJoined([ArrayKey(ctx.kind)] + records + ["]"] + tail, ["}"]);
    ConcatJoined([ArrayKey(ctx.kind)] + records + ["]"], tail);
    ConcatJoined([ArrayKey(ctx.kind)] + records, ["]"]);
    ConcatJoined([ArrayKey(ctx.kind)], records);
    ConcatOne(ArrayKey(ctx.kind));
    ConcatOne("]");
    ConcatOne("}");
    if end < |items| {
      ConcatThree(",\"nextCursor\":\"", TokenAt(ctx, items, end), "\"");
    }
  }

  lemma ConcatOne(a: string)
    ensures Concat([a]) == a
  {
    assert [a][..0] == [];
    assert Concat([a][..0]) == "";
  }

  lemma ConcatThree(a: string, b: string, c: string)
    ensures |Concat([a, b, c])| == |a| + |b| + |c|
  {
    ConcatOne(a);
    ConcatOne(b);
    ConcatOne(c);
    ConcatJoined([a], [b]);
    ConcatJoined([a, b], [c]);
    assert [a] + [b] == [a, b] && [a, b] + [c] == [a, b, c];
  }

  /** Short of the last page, a longer page is never a smaller text. The last page has no cursor and may
      be smaller than a shorter one. */
  lemma PagesGrow(ctx: Context, items: seq<string>, start: nat, shorter: nat, longer: nat)
    requires Listing(ctx, items) && start <= shorter <= longer < |items|
    ensures |PageText(ctx, items, start, shorter)| <= |PageText(ctx, items, start, longer)|
  {
    PageLength(ctx, items, start, shorter);
    PageLength(ctx, items, start, longer);
    TailGrows(ctx, items, shorter, longer);
    SliceGrows(items, start, shorter, longer);
  }

  lemma TailGrows(ctx: Context, items: seq<string>, shorter: nat, longer: nat)
    requires Listing(ctx, items) && shorter <= longer < |items|
    ensures TailLength(ctx, items, shorter) <= TailLength(ctx, items, longer)
  {
    TokensGrow(CursorAt(ctx, shorter), CursorAt(ctx, longer));
  }

  lemma SliceGrows(items: seq<string>, start: nat, shorter: nat, longer: nat)
    requires start <= shorter <= longer <= |items|
    ensures |Concat(RecordChunks(items[start..shorter]))| <= |Concat(RecordChunks(items[start..longer]))|
  {
    var rest := items[start..];
    assert rest[..shorter - start] == items[start..shorter] && rest[..longer - start] == items[start..longer];
    RecordsGrow(rest, shorter - start, longer - start);
  }

  // ---------------------------------------------------------------- what a page says

  lemma {:induction false} CommasLast(front: seq<string>, last: string)
    requires front != []
    ensures Commas(front + [last]) == Commas(front) + ("," + last)
  {
    assert (front + [last])[1..] == front[1..] + [last];
    if |front| == 1 {
      assert front[1..] + [last] == [last];
    } else {
      CommasLast(front[1..], last);
      assert front[0] + ("," + (Commas(front[1..]) + ("," + last))) == front[0] + ("," + Commas(front[1..])) + ("," + last);
    }
  }

  lemma {:induction false} ChunksAreCommas(items: seq<string>)
    ensures Concat(RecordChunks(items)) == Commas(items)
  {
    if |items| == 1 {
      ConcatOne(items[0]);
      assert items == [items[0]];
    } else if |items| > 1 {
      var front, last := items[..|items| - 1], items[|items| - 1];
      ChunksAreCommas(front);
      CommasLast(front, last);
      ConcatJoined(RecordChunks(front), [",", last]);
      ConcatJoined([","], [last]);
      ConcatOne(",");
      ConcatOne(last);
      assert front + [last] == items && [","] + [last] == [",", last];
    }
  }

  function NextToken(ctx: Context, items: seq<string>, end: nat): Option<string>
    requires Listing(ctx, items) && end <= |items|
  {
    if end < |items| then Some(TokenAt(ctx, items, end)) else None
  }

  lemma TokenIsPlain(cursor: Cursor)
    requires InRange(cursor)
    ensures IsPlain(Token(cursor))
  {
    SerializedBytes(cursor);
    var sextets, token := Sextets(Serialize(cursor)), Token(cursor);
    assert token == Symbols(sextets);
    forall i | 0 <= i < |token|
      ensures token[i] as int >= 32 && token[i] != '"' && token[i] != '\\'
    {
      assert Value(token[i]) == Some(sextets[i]);
    }
  }

  lemma ClosingText(ctx: Context, items: seq<string>, end: nat)
    requires Listing(ctx, items) && end <= |items|
    ensures Concat((if end < |items| then [",\"nextCursor\":\"", TokenAt(ctx, items, end), "\""] else []) + ["}"])
            == Closing(NextToken(ctx, items, end))
  {
    ConcatOne("}");
    if end < |items| {
      var token := TokenAt(ctx, items, end);
      ConcatOne(",\"nextCursor\":\"");
      ConcatJoined([",\"nextCursor\":\""], [token]);
      ConcatOne(token);
      ConcatOne("\"");
      ConcatJoined([",\"nextCursor\":\"", token], ["\""]);
      assert [",\"nextCursor\":\""] + [token] == [",\"nextCursor\":\"", token];
      assert [",\"nextCursor\":\"", token] + ["\""] == [",\"nextCursor\":\"", token, "\""];
      ConcatJoined([",\"nextCursor\":\"", token, "\""], ["}"]);
      assert ",\"nextCursor\":\"" + token + "\"" + "}" == ",\"nextCursor\":\"" + token + "\"}";
    } else {
      assert [] + ["}"] == ["}"];
    }
  }

  lemma PageParts(ctx: Context, items: seq<string>, start: nat, end: nat)
    requires Listing(ctx, items) && start <= end <= |items|
    ensures PageText(ctx, items, start, end)
            == ArrayKey(ctx.kind) + (Commas(items[start..end]) + ("]" + Closing(NextToken(ctx, items, end))))
  {
    var records := RecordChunks(items[start..end]);
    var tail := (if end < |items| then [",\"nextCursor\":\"", TokenAt(ctx, items, end), "\""] else []) + ["}"];
    assert Chunks(ctx, items, start, end) == [ArrayKey(ctx.kind)] + (records + (["]"] + tail));
    ConcatJoined([ArrayKey(ctx.kind)], records + (["]"] + tail));
    ConcatJoined(records, ["]"] + tail);
    ConcatJoined(["]"], tail);
    ConcatOne(ArrayKey(ctx.kind));
    ConcatOne("]");
    ChunksAreCommas(items[start..end]);
    ClosingText(ctx, items, end);
  }

  /** Reading a page's text gives the array its kind names, exactly the records from `start` to `end` in
      order, and the cursor for `end` when records are left. */
  lemma PageReads(ctx: Context, items: seq<string>, start: nat, end: nat)
    requires Listing(ctx, items) && start <= end <= |items| && AreObjects(items)
    ensures ReadPage(PageText(ctx, items, start, end)) == Some(PageRead(ctx.kind, items[start..end], NextToken(ctx, items, end)))
    ensures (if ctx.kind == Resources then "{\"resources\":[" else "{\"resourceTemplates\":[") <= PageText(ctx, items, start, end)
  {
    PageParts(ctx, items, start, end);
    if end < |items| {
      TokenIsPlain(CursorAt(ctx, end));
    }
    ReadWrittenPage(ctx.kind, items[start..end], NextToken(ctx, items, end));
  }

  // ---------------------------------------------------------------- bounded writing

  /** Stops serialization at the page budget. */
  class PageBuffer {
    var bytes: string

    constructor ()
      ensures bytes == ""
    {
      bytes := "";
    }

    method Write(chunk: string) returns (ok: bool)
      modifies this
      ensures ok == (|chunk| <= if |old(bytes)| < TOOL_TEXT_BYTES then TOOL_TEXT_BYTES - |old(bytes)| else 0)
      ensures bytes == if ok then old(bytes) + chunk else old(bytes)
    {
      ok := |chunk| <= if |bytes| < TOOL_TEXT_BYTES then TOOL_TEXT_BYTES - |bytes| else 0;
      if ok {
        bytes := bytes + chunk;
      }
    }

    /** Serialization stops at the first refused write; it succeeds exactly when everything fits. */
    method WriteAll(chunks: seq<string>) returns (ok: bool)
      requires bytes == ""
      modifies this
      ensures ok == (|Concat(chunks)| <= TOOL_TEXT_BYTES)
      ensures ok ==> bytes == Concat(chunks)
    {
      ok := true;
      for i := 0 to |chunks|
        invariant ok ==> bytes == Concat(chunks[..i]) && |bytes| <= TOOL_TEXT_BYTES
        invariant !ok ==> |Concat(chunks[..i])| > TOOL_TEXT_BYTES
      {
        assert chunks[..i + 1][..i] == chunks[..i];
        if ok {
          ok := Write(chunks[i]);
        }
      }
      assert chunks[..|chunks|] == chunks;
    }
  }

  // ---------------------------------------------------------------- the largest page

  /** The pieces of the page from one fixed start to each end. */
  type Pages = nat -> seq<string>

  ghost predicate FitsAt(pages: Pages, end: nat) {
    |Concat(pages(end))| <= TOOL_TEXT_BYTES
  }

  ghost predicate NoneFits(pages: Pages, from: nat, through: nat) {
    forall e: nat :: from <= e <= through ==> !FitsAt(pages, e)
  }

  /** Before the end of the list, a longer page is never a smaller text. */
  ghost predicate Growing(pages: Pages, start: nat, n: nat) {
    forall a: nat, b: nat :: start <= a <= b < n && FitsAt(pages, b) ==> FitsAt(pages, a)
  }

  /** The greatest end in (start, end] whose page fits. */
  ghost function LargestEnd(pages: Pages, start: nat, end: nat): (r: Option<nat>)
    ensures r.Some? ==> start < r.value <= end && FitsAt(pages, r.value) && NoneFits(pages, r.value + 1, end)
    ensures r.None? ==> NoneFits(pages, start + 1, end)
  {
    if end <= start then None
    else if FitsAt(pages, end) then Some(end)
    else LargestEnd(pages, start, end - 1)
  }

  lemma LargestIs(pages: Pages, start: nat, end: nat, chosen: nat)
    requires start < chosen <= end && FitsAt(pages, chosen) && NoneFits(pages, chosen + 1, end)
    ensures LargestEnd(pages, start, end) == Some(chosen)
  {
  }

  lemma LargestIsNone(pages: Pages, start: nat, end: nat)
    requires NoneFits(pages, start + 1, end)
    ensures LargestEnd(pages, start, end) == None
  {
  }

  method Serialized(chunks: seq<string>) returns (text: Option<string>)
    ensures text == if |Concat(chunks)| <= TOOL_TEXT_BYTES then Some(Concat(chunks)) else None
  {
    var buffer := new PageBuffer();
    var ok := buffer.WriteAll(chunks);
    text := if ok then Some(buffer.bytes) else None;
  }

  lemma LongerFails(pages: Pages, start: nat, n: nat, end: nat, upper: nat, maximum: nat)
    requires Growing(pages, start, n) && start <= end <= upper <= maximum
    requires end < upper ==> upper < n
    requires !FitsAt(pages, end) && NoneFits(pages, upper + 1, maximum)
    ensures NoneFits(pages, end, maximum)
  {
    forall e: nat | end <= e <= maximum
      ensures !FitsAt(pages, e)
    {
      assert end < e <= upper ==> e < n;
    }
  }

  /** The bisection of `ResourcePage::result`: it finds the largest page that fits and fails exactly when
      none does, although only the cursor-free last page can be smaller than a shorter one. */
  method FindPage(pages: Pages, start: nat, maximum: nat, n: nat) returns (page: Option<string>)
    requires Growing(pages, start, n) && start <= maximum <= n && (start == maximum ==> n == 0 && FitsAt(pages, 0))
    ensures n == 0 ==> page == Some(Concat(pages(0)))
    ensures n > 0 ==> page == match LargestEnd(pages, start, maximum)
                              case Some(end) => Some(Concat(pages(end)))
                              case None => None
  {
    var lower, upper, end := start, maximum, maximum;
    page := None;
    ghost var chosen := start;
    while true
      invariant start <= lower <= end <= upper <= maximum
      invariant end == maximum <==> upper == maximum
      invariant end == maximum ==> lower == start
      invariant NoneFits(pages, upper + 1, maximum)
      invariant page.None? ==> lower <= start + 1
      invariant page.Some? ==> start < chosen == lower - 1 && FitsAt(pages, chosen) && page == Some(Concat(pages(chosen)))
      decreases upper - lower
    {
      var text := Serialized(pages(end));
      if text.Some? {
        if end > start || n == 0 {
          page, chosen := text, end;
        }
        if end == maximum {
          break;
        }
        lower := end + 1;
      } else {
        LongerFails(pages, start, n, end, upper, maximum);
        if end == start {
          break;
        }
        upper := end - 1;
      }
      if lower > upper {
        break;
      }
      end := lower + (upper - lower) / 2;
    }
    if n > 0 {
      if page.Some? {
        LargestIs(pages, start, maximum, chosen);
      } else {
        LargestIsNone(pages, start, maximum);
      }
    }
  }

  function PagesFrom(ctx: Context, items: seq<string>, start: nat): Pages
    requires Listing(ctx, items)
  {
    end => if start <= end <= |items| then Chunks(ctx, items, start, end) else []
  }

  lemma PagesFromGrow(ctx: Context, items: seq<string>, start: nat)
    requires Listing(ctx, items)
    ensures Growing(PagesFrom(ctx, items, start), start, |items|)
  {
    var pages := PagesFrom(ctx, items, start);
    forall a: nat, b: nat | start <= a <= b < |items| && FitsAt(pages, b)
      ensures FitsAt(pages, a)
    {
      PagesGrow(ctx, items, start, a, b);
    }
  }

  function Maximum(items: seq<string>, start: nat, limit: nat): nat {
    if start + limit < |items| then start + limit else |items|
  }

  /** Where the answered page ends: the largest page that fits, or the empty page of an empty list. */
  ghost function PageEnd(ctx: Context, items: seq<string>, start: nat, limit: nat): (r: Option<nat>)
    requires Listing(ctx, items)
    ensures r.Some? && |items| > 0 ==> start < r.value <= |items| && Fits(ctx, items, start, r.value)
    ensures |items| == 0 ==> r == Some(0)
  {
    if |items| == 0 then Some(0) else LargestEnd(PagesFrom(ctx, items, start), start, Maximum(items, start, limit))
  }

  lemma EmptyPageFits(ctx: Context)
    requires Listing(ctx, [])
    ensures Fits(ctx, [], 0, 0)
  {
    PageLength(ctx, [], 0, 0);
    assert Concat(RecordChunks([])) == "";
    assert |ArrayKey(ctx.kind)| <= 22;
  }

  lemma LargerFails(pages: Pages, start: nat, maximum: nat, e: nat)
    requires (if LargestEnd(pages, start, maximum).Some? then LargestEnd(pages, start, maximum).value else start) < e <= maximum
    ensures !FitsAt(pages, e)
  {
  }

  /** The answered page is the largest within the limit. */
  lemma PageIsLargest(ctx: Context, items: seq<string>, start: nat, limit: nat)
    requires Listing(ctx, items) && start < |items| && limit >= 1
    ensures var end := PageEnd(ctx, items, start, limit);
            && (end.Some? ==> start < end.value <= start + limit && Fits(ctx, items, start, end.value))
            && (forall e :: (if end.Some? then end.value else start) < e <= start + limit && e <= |items|
                            ==> !Fits(ctx, items, start, e))
  {
    var pages, maximum := PagesFrom(ctx, items, start), Maximum(items, start, limit);
    var end := PageEnd(ctx, items, start, limit);
    forall e | (if end.Some? then end.value else start) < e <= start + limit && e <= |items|
      ensures !Fits(ctx, items, start, e)
    {
      LargerFails(pages, start, maximum, e);
    }
  }

  /** A page fits when its text has at most 20480 bytes. */
  lemma FitsExactly(ctx: Context, items: seq<string>, start: nat, end: nat)
    requires Listing(ctx, items) && start <= end <= |items|
    ensures Fits(ctx, items, start, end) <==> |PageText(ctx, items, start, end)| <= 20480
  {
  }

  /** A position is refused exactly when its record does not fit with a cursor and, if the limit reaches
      the end of the list, the cursor-free rest does not fit either. */
  lemma RefusedExactly(ctx: Context, items: seq<string>, start: nat, limit: nat)
    requires Listing(ctx, items) && start < |items| && limit >= 1
    ensures PageEnd(ctx, items, start, limit).None? <==>
            !Fits(ctx, items, start, start + 1) && (|items| <= start + limit ==> !Fits(ctx, items, start, |items|))
  {
    PageIsLargest(ctx, items, start, limit);
    var end := PageEnd(ctx, items, start, limit);
    if end.Some? && end.value < |items| {
      PagesGrow(ctx, items, start, start + 1, end.value);
    }
  }

  // ---------------------------------------------------------------- requests

  /** `limit` defaults to 50 and must lie between 1 and 200. */
  function LimitOf(limit: Option<nat>): Option<nat> {
    var n := if limit.Some? then limit.value else 50;
    if 1 <= n <= 200 then Some(n) else None
  }

  /** The position a request continues at, after every check on its cursor. */
  function StartOf(ctx: Context, items: seq<string>, token: Option<string>): Option<nat> {
    if token.None? then Some(0)
    else if |token.value| > TOOL_TEXT_BYTES then None
    else
      var cursor :- Redeem(token.value);
      if cursor.version != 1 || cursor.sessionId != ctx.sessionId || cursor.catalogRevision != ctx.revision
         || cursor.kind != ctx.kind || cursor.server != ctx.server || cursor.nextIndex == 0 || cursor.nextIndex >= |items|
      then None
      else Some(cursor.nextIndex)
  }

  datatype Answer = Page(first: nat, end: nat, text: string, next: Option<string>) | Refused

  ghost function Respond(ctx: Context, items: seq<string>, token: Option<string>, limit: Option<nat>): Answer
    requires Listing(ctx, items)
  {
    var start, n := StartOf(ctx, items, token), LimitOf(limit);
    if start.None? || n.None? then Refused
    else
      var end := PageEnd(ctx, items, start.value, n.value);
      if end.None? then Refused
      else Page(start.value, end.value, PageText(ctx, items, start.value, end.value),
                NextToken(ctx, items, end.value))
  }

  /** `ResourcePage::result`. */
  method Result(ctx: Context, items: seq<string>, token: Option<string>, limit: Option<nat>) returns (text: Option<string>)
    requires Listing(ctx, items)
    ensures var answer := Respond(ctx, items, token, limit);
            text == if answer.Page? then Some(answer.text) else None
  {
    var start, n := StartOf(ctx, items, token), LimitOf(limit);
    if start.None? || n.None? {
      return None;
    }
    PagesFromGrow(ctx, items, start.value);
    if |items| == 0 {
      EmptyPageFits(ctx);
    }
    var pages := PagesFrom(ctx, items, start.value);
    text := FindPage(pages, start.value, Maximum(items, start.value, n.value), |items|);
    ghost var end := PageEnd(ctx, items, start.value, n.value);
    assert end.Some? ==> Concat(pages(end.value)) == PageText(ctx, items, start.value, end.value);
  }

  lemma RespondsWithin(ctx: Context, items: seq<string>, token: Option<string>, limit: Option<nat>, start: nat, n: nat)
    requires Listing(ctx, items) && StartOf(ctx, items, token) == Some(start) && LimitOf(limit) == Some(n)
    ensures var end, answer := PageEnd(ctx, items, start, n), Respond(ctx, items, token, limit);
            if end.None? then answer.Refused?
            else answer == Page(start, end.value, PageText(ctx, items, start, end.value), NextToken(ctx, items, end.value))
  {
  }

  /** The limit of a request lies between 1 and 200 records, is 50 when it names none, and any other is
      refused. A page never exceeds it, and reaches it when the records fit. */
  lemma LimitsBoundPages(ctx: Context, items: seq<string>, token: Option<string>, limit: Option<nat>)
    requires Listing(ctx, items)
    ensures var answer := Respond(ctx, items, token, limit);
            var n := if limit.Some? then limit.value else 50;
            && (n < 1 || n > 200 ==> answer.Refused?)
            && (answer.Page? ==> answer.first <= answer.end <= answer.first + n)
    ensures var start, n := StartOf(ctx, items, token), if limit.Some? then limit.value else 50;
            start.Some? && start.value < |items| && 1 <= n <= 200 ==>
              var last := if start.value + n < |items| then start.value + n else |items|;
              Fits(ctx, items, start.value, last) ==>
                Respond(ctx, items, token, limit).Page? && Respond(ctx, items, token, limit).end == last
  {
    var start, n := StartOf(ctx, items, token), LimitOf(limit);
    if start.Some? && n.Some? {
      RespondsWithin(ctx, items, token, limit, start.value, n.value);
      if start.value < |items| {
        PageIsLargest(ctx, items, start.value, n.value);
      }
    }
  }

  /** A token is accepted exactly when it is within the size limit and decodes to a cursor that this very
      listing issues: version 1, its Session, revision, kind and filter, and a position inside the list. */
  lemma AcceptedExactly(ctx: Context, items: seq<string>, token: string, index: nat)
    requires Listing(ctx, items)
    ensures StartOf(ctx, items, Some(token)) == Some(index) <==>
            |token| <= 20480 && 0 < index < |items|
            && Redeem(token) == Some(Cursor(1, ctx.sessionId, ctx.revision, ctx.kind, ctx.server, index))
    ensures StartOf(ctx, items, None) == Some(0)
  {
  }

  /** Every cursor a page carries passes the listing's own checks and continues where the page ended. */
  lemma IssuedCursorIsAccepted(ctx: Context, items: seq<string>, start: nat, end: nat)
    requires Listing(ctx, items) && start < end < |items| && Fits(ctx, items, start, end)
    ensures StartOf(ctx, items, Some(TokenAt(ctx, items, end))) == Some(end)
  {
    RedeemToken(CursorAt(ctx, end));
    PageLength(ctx, items, start, end);
  }

  /** A cursor is useless in any other session, revision, kind or filter. */
  lemma ForeignCursorIsRefused(ctx: Context, items: seq<string>, other: Context, more: seq<string>, end: nat)
    requires Listing(ctx, items) && end <= |items| && other != ctx
    ensures StartOf(other, more, Some(TokenAt(ctx, items, end))) == None
  {
    RedeemToken(CursorAt(ctx, end));
  }

  // ---------------------------------------------------------------- the whole chain

  datatype Walked = Walked(records: seq<string>, complete: bool)

  /** Whoever answers a cursor at the k-th request, and the position a cursor stands for. */
  type Responder = (Option<string>, nat) -> Answer
  type Positions = Option<string> -> Option<nat>

  /** What a client reads from a page. */
  predicate Says(text: string, records: seq<string>, next: Option<string>) {
    ReadPage(text).Some? && ReadPage(text).value.records == records && ReadPage(text).value.next == next
  }

  /** A page starts where its cursor stands, and its own cursor stands where it ends. */
  predicate Continues(items: seq<string>, at: Positions, start: nat, answer: Answer) {
    && start <= |items|
    && (answer.Page? ==>
          && answer.first == start <= answer.end <= |items|
          && (answer.next.None? ==> answer.end == |items|)
          && (answer.next.Some? ==> start < answer.end < |items| && at(answer.next) == Some(answer.end))
          && Says(answer.text, items[answer.first..answer.end], answer.next))
  }

  predicate ContinuesAt(items: seq<string>, respond: Responder, at: Positions, token: Option<string>, k: nat) {
    at(token).Some? ==> Continues(items, at, at(token).value, respond(token, k))
  }

  ghost predicate Chains(items: seq<string>, respond: Responder, at: Positions) {
    forall token, k :: ContinuesAt(items, respond, at, token, k)
  }

  /** Follows `nextCursor` from a request; the client knows only the texts it receives. */
  ghost function Follow(items: seq<string>, respond: Responder, at: Positions, token: Option<string>, k: nat): Walked
    requires Chains(items, respond, at) && at(token).Some?
    decreases |items| - at(token).value
  {
    var answer := respond(token, k);
    assert ContinuesAt(items, respond, at, token, k);
    if answer.Refused? then Walked([], false)
    else
      var page := ReadPage(answer.text).value;
      if page.next.None? then Walked(page.records, true)
      else
        var rest := Follow(items, respond, at, page.next, k + 1);
        Walked(page.records + rest.records, rest.complete)
  }

  /** Some request for a position is refused. */
  ghost predicate RefusedAt(respond: Responder, at: Positions, position: nat) {
    exists token, k :: at(token) == Some(position) && respond(token, k).Refused?
  }

  /** What following one request comes to. */
  ghost predicate OnePage(items: seq<string>, at: Positions, start: nat, answer: Answer, whole: Walked, rest: Walked) {
    && answer.Page? && answer.first == start <= answer.end <= |items|
    && (if answer.next.None? then answer.end == |items| && whole == Walked(items[start..answer.end], true)
        else start < answer.end && at(answer.next) == Some(answer.end)
             && whole == Walked(items[start..answer.end] + rest.records, rest.complete))
  }

  lemma FollowOne(items: seq<string>, respond: Responder, at: Positions, token: Option<string>, k: nat) returns (rest: Walked)
    requires Chains(items, respond, at) && at(token).Some? && respond(token, k).Page?
    ensures OnePage(items, at, at(token).value, respond(token, k), Follow(items, respond, at, token, k), rest)
    ensures respond(token, k).next.Some? ==> rest == Follow(items, respond, at, respond(token, k).next, k + 1)
  {
    var answer := respond(token, k);
    assert ContinuesAt(items, respond, at, token, k);
    rest := if answer.next.Some? then Follow(items, respond, at, answer.next, k + 1) else Walked([], true);
  }

  lemma RefusedHere(items: seq<string>, respond: Responder, at: Positions, token: Option<string>, k: nat)
    requires Chains(items, respond, at) && at(token).Some? && respond(token, k).Refused?
    ensures at(token).value <= |items| && Follow(items, respond, at, token, k) == Walked([], false)
    ensures RefusedAt(respond, at, at(token).value)
  {
    assert ContinuesAt(items, respond, at, token, k);
  }

  lemma PageCovers(items: seq<string>, at: Positions, start: nat, answer: Answer, whole: Walked, rest: Walked, stop: nat)
    requires OnePage(items, at, start, answer, whole, rest)
    requires if answer.next.Some? then Covers(items, answer.end, stop, rest) else stop == |items|
    ensures Covers(items, start, stop, whole)
    ensures answer.next.None? ==> whole.complete
    ensures answer.next.Some? ==> whole.complete == rest.complete
  {
    if answer.next.Some? {
      CoversMore(items, start, answer.end, stop, rest);
    }
  }

  lemma {:induction false} FollowCovers(items: seq<string>, respond: Responder, at: Positions, token: Option<string>, k: nat)
    returns (stop: nat)
    requires Chains(items, respond, at) && at(token).Some?
    ensures Covers(items, at(token).value, stop, Follow(items, respond, at, token, k))
    ensures !Follow(items, respond, at, token, k).complete ==> RefusedAt(respond, at, stop)
    decreases |items| - at(token).value
  {
    var start, answer := at(token).value, respond(token, k);
    if answer.Refused? {
      RefusedHere(items, respond, at, token, k);
      stop := start;
    } else {
      var rest := FollowOne(items, respond, at, token, k);
      stop := |items|;
      if answer.next.Some? {
        stop := FollowCovers(items, respond, at, answer.next, k + 1);
      }
      PageCovers(items, at, start, answer, Follow(items, respond, at, token, k), rest, stop);
    }
  }

  lemma CoversMore(items: seq<string>, start: nat, end: nat, stop: nat, rest: Walked)
    requires start <= end && Covers(items, end, stop, rest)
    ensures Covers(items, start, stop, Walked(items[start..end] + rest.records, rest.complete))
  {
    assert items[start..end] + items[end..stop] == items[start..stop];
  }

  function PositionsOf(ctx: Context, items: seq<string>): Positions {
    (token: Option<string>) => StartOf(ctx, items, token)
  }

  ghost function ResponderOf(ctx: Context, items: seq<string>, limits: nat -> Option<nat>): Responder
    requires Listing(ctx, items)
  {
    (token: Option<string>, k: nat) => Respond(ctx, items, token, limits(k))
  }

  /** The chain of a listing, with any limit on each page. */
  ghost function Walk(ctx: Context, items: seq<string>, token: Option<string>, limits: nat -> Option<nat>, k: nat): Walked
    requires Listing(ctx, items) && AreObjects(items) && StartOf(ctx, items, token).Some?
  {
    ListingChains(ctx, items, limits);
    Follow(items, ResponderOf(ctx, items, limits), PositionsOf(ctx, items), token, k)
  }

  ghost predicate ValidLimits(limits: nat -> Option<nat>) {
    forall k :: LimitOf(limits(k)).Some?
  }

  /** The record at a position fits on no page, with the limit of some request. */
  ghost predicate StuckAt(ctx: Context, items: seq<string>, index: nat)
    requires Listing(ctx, items)
  {
    index < |items| && exists limit :: 1 <= limit <= 200 && PageEnd(ctx, items, index, limit).None?
  }

  /** A chain listed everything from one position to another. */
  predicate Covers(items: seq<string>, start: nat, stop: nat, walked: Walked) {
    start <= stop <= |items| && walked.records == items[start..stop] && (walked.complete ==> stop == |items|)
  }

  lemma AnswerContinues(ctx: Context, items: seq<string>, token: Option<string>, limit: Option<nat>)
    requires Listing(ctx, items) && AreObjects(items) && StartOf(ctx, items, token).Some?
    ensures Continues(items, PositionsOf(ctx, items), StartOf(ctx, items, token).value, Respond(ctx, items, token, limit))
  {
    var start, answer := StartOf(ctx, items, token).value, Respond(ctx, items, token, limit);
    if answer.Page? && answer.next.Some? {
      IssuedCursorIsAccepted(ctx, items, start, answer.end);
    }
    if answer.Page? {
      PageReads(ctx, items, start, answer.end);
    }
  }

  lemma ListingChains(ctx: Context, items: seq<string>, limits: nat -> Option<nat>)
    requires Listing(ctx, items) && AreObjects(items)
    ensures Chains(items, ResponderOf(ctx, items, limits), PositionsOf(ctx, items))
  {
    forall token, k: nat
      ensures ContinuesAt(items, ResponderOf(ctx, items, limits), PositionsOf(ctx, items), token, k)
    {
      if StartOf(ctx, items, token).Some? {
        AnswerContinues(ctx, items, token, limits(k));
      }
    }
  }

  /** With a valid limit a position is refused only for a record that does not fit. */
  lemma RefusedIsStuck(ctx: Context, items: seq<string>, limits: nat -> Option<nat>, position: nat)
    requires Listing(ctx, items) && AreObjects(items) && ValidLimits(limits)
    requires RefusedAt(ResponderOf(ctx, items, limits), PositionsOf(ctx, items), position)
    ensures StuckAt(ctx, items, position)
  {
    var token, k: nat :| PositionsOf(ctx, items)(token) == Some(position) && ResponderOf(ctx, items, limits)(token, k).Refused?;
    assert LimitOf(limits(k)).Some?;
    AnswerContinues(ctx, items, token, limits(k));
  }

  /** The chain of cursors from any accepted request lists the rest of the list exactly once, in order,
      read from the pages' texts, unless it meets a record that does not fit, and then it has listed everything before that one. */
  lemma WalkCovers(ctx: Context, items: seq<string>, token: Option<string>, limits: nat -> Option<nat>, k: nat) returns (stop: nat)
    requires Listing(ctx, items) && AreObjects(items) && ValidLimits(limits) && StartOf(ctx, items, token).Some?
    ensures Covers(items, StartOf(ctx, items, token).value, stop, Walk(ctx, items, token, limits, k))
    ensures !Walk(ctx, items, token, limits, k).complete ==> StuckAt(ctx, items, stop)
  {
    var respond, at := ResponderOf(ctx, items, limits), PositionsOf(ctx, items);
    ListingChains(ctx, items, limits);
    stop := FollowCovers(items, respond, at, token, k);
    if RefusedAt(respond, at, stop) {
      RefusedIsStuck(ctx, items, limits, stop);
    }
  }

  /** One record and the cursor after it fit in a page. */
  ghost predicate FitsAlone(ctx: Context, items: seq<string>, index: nat)
    requires Listing(ctx, items)
  {
    index < |items| && Fits(ctx, items, index, index + 1)
  }

  lemma NotStuck(ctx: Context, items: seq<string>, index: nat)
    requires Listing(ctx, items) && FitsAlone(ctx, items, index)
    ensures !StuckAt(ctx, items, index)
  {
    forall limit | 1 <= limit <= 200
      ensures PageEnd(ctx, items, index, limit).Some?
    {
      RefusedExactly(ctx, items, index, limit);
    }
  }

  /** From the first page the whole list is covered; and if every record fits on a page of its own, every
      chain is complete, whatever the limits. */
  lemma ChainCoversTheList(ctx: Context, items: seq<string>, limits: nat -> Option<nat>) returns (stop: nat)
    requires Listing(ctx, items) && AreObjects(items) && ValidLimits(limits)
    ensures var walked := Walk(ctx, items, None, limits, 0);
            && Covers(items, 0, stop, walked)
            && (if walked.complete then walked.records == items else StuckAt(ctx, items, stop))
            && ((forall i :: 0 <= i < |items| ==> FitsAlone(ctx, items, i)) ==> walked.complete)
  {
    stop := WalkCovers(ctx, items, None, limits, 0);
    assert items[0..|items|] == items;
    if stop < |items| && FitsAlone(ctx, items, stop) {
      NotStuck(ctx, items, stop);
    }
  }
}
