/** The byte budget of MCP progress messages, crates/mcp/src/tool.rs: a message is shown as text and
    again inside a JSON value (string encoding of RFC 8259, section 7), both within one budget. */
module Progress {
  import opened JsonText

  const BUDGET: nat := 800
  const ELLIPSIS := "..."

  function Utf8Length(c: char): nat {
    if c as int < 0x80 then 1 else if c as int < 0x800 then 2 else if c as int < 0x10000 then 3 else 4
  }

  /** The UTF-8 bytes of a text. */
  function Bytes(s: string): nat {
    if s == "" then 0 else Bytes(s[..|s| - 1]) + Utf8Length(s[|s| - 1])
  }

  predicate IsControl(c: char) {
    c as int < 0x20 || 0x7F <= c as int < 0xA0
  }

  /** The cost model of the source: display bytes and an upper bound of the JSON bytes. */
  function CharCost(c: char): nat {
    Utf8Length(c) + (if IsControl(c) then 6 else if c == '"' || c == '\\' then 2 else Utf8Length(c))
  }

  function Cost(s: string): nat {
    if s == "" then 0 else Cost(s[..|s| - 1]) + CharCost(s[|s| - 1])
  }

  ghost predicate Longest(message: string, n: nat) {
    && n <= |message| && Cost(message[..n]) <= BUDGET
    && forall k :: n < k <= |message| ==> Cost(message[..k]) > BUDGET
  }

  /** The length of the longest prefix within the budget. */
  function LongestPrefix(message: string): (n: nat)
    ensures Longest(message, n)
  {
    if Cost(message) <= BUDGET then
      assert message[..|message|] == message;
      |message|
    else
      var front := message[..|message| - 1];
      assert message[..|message|] == message;
      assert forall k :: 0 <= k <= |front| ==> message[..k] == front[..k];
      LongestPrefix(front)
  }

  /** The published text. */
  function Truncated(message: string): string {
    var n := LongestPrefix(message);
    if n == |message| then message else message[..n] + ELLIPSIS
  }

  lemma {:induction false} CostGrows(s: string, a: nat, b: nat)
    requires a <= b <= |s|
    ensures Cost(s[..a]) <= Cost(s[..b]) && Bytes(s[..a]) + (b - a) <= Bytes(s[..b])
  {
    if a < b {
      CostGrows(s, a, b - 1);
      assert s[..b][..b - 1] == s[..b - 1];
    }
  }

  lemma LongestIsUnique(message: string, n: nat)
    requires Longest(message, n)
    ensures LongestPrefix(message) == n
  {
  }

  /** `publish`'s truncation; `end` counts bytes, so it falls on a character boundary by construction. */
  method Truncate(message: string) returns (kept: string)
    ensures kept == Truncated(message)
  {
    var cost, end, chars := 0, 0, 0;
    while chars < |message|
      invariant chars <= |message|
      invariant cost == Cost(message[..chars]) <= BUDGET && end == Bytes(message[..chars])
    {
      assert message[..chars + 1][..chars] == message[..chars];
      cost := cost + CharCost(message[chars]);
      if cost > BUDGET {
        break;
      }
      end := end + Utf8Length(message[chars]);
      chars := chars + 1;
    }
    forall k | chars < k <= |message|
      ensures Cost(message[..k]) > BUDGET
    {
      CostGrows(message, chars + 1, k);
    }
    LongestIsUnique(message, chars);
    CostGrows(message, chars, |message|);
    assert message[..|message|] == message;
    kept := if end < Bytes(message) then message[..chars] + ELLIPSIS else message;
  }

  lemma {:induction false} BytesJoined(a: string, b: string)
    ensures Bytes(a + b) == Bytes(a) + Bytes(b)
  {
    if b == "" {
      assert a + b == a;
    } else {
      assert (a + b)[..|a + b| - 1] == a + b[..|b| - 1];
      BytesJoined(a, b[..|b| - 1]);
    }
  }

  lemma {:induction false} EscapedJoined(a: string, b: string)
    ensures Escaped(a + b) == Escaped(a) + Escaped(b)
  {
    if a == "" {
      assert a + b == b;
    } else {
      assert (a + b)[1..] == a[1..] + b;
      EscapedJoined(a[1..], b);
    }
  }

  lemma {:induction false} AsciiBytes(s: string)
    requires forall i :: 0 <= i < |s| ==> s[i] as int < 0x80
    ensures Bytes(s) == |s|
  {
    if s != "" {
      AsciiBytes(s[..|s| - 1]);
    }
  }

  lemma EscapeCost(c: char)
    ensures Utf8Length(c) + Bytes(Escape(c)) <= CharCost(c)
  {
    if |Escape(c)| > 1 {
      AsciiBytes(Escape(c));
    } else {
      assert Escape(c) == [c] && [c][..0] == "";
      assert Bytes([c]) == Bytes([c][..0]) + Utf8Length(c);
    }
  }

  /** The cost model never under-counts: it covers the text and its real JSON string encoding. */
  lemma {:induction false} CostCoversBothViews(s: string)
    ensures Bytes(s) + Bytes(Escaped(s)) <= Cost(s)
  {
    if s != "" {
      var front, last := s[..|s| - 1], s[|s| - 1];
      CostCoversBothViews(front);
      assert front + [last] == s && Escaped([last]) == Escape(last) + Escaped([last][1..]);
      assert [last][1..] == "" && Escape(last) + "" == Escape(last);
      EscapedJoined(front, [last]);
      BytesJoined(Escaped(front), Escape(last));
      EscapeCost(last);
    }
  }

  /** Both views of a published message hold at most 806 bytes, ellipses included. */
  lemma BothViewsAreBounded(message: string)
    ensures Bytes(Truncated(message)) + Bytes(Escaped(Truncated(message))) <= 806
  {
    var n := LongestPrefix(message);
    CostCoversBothViews(message[..n]);
    assert message[..|message|] == message;
    if n < |message| {
      AsciiBytes(ELLIPSIS);
      EscapedJoined(message[..n], ELLIPSIS);
      PlainEllipsis();
      BytesJoined(message[..n], ELLIPSIS);
      BytesJoined(Escaped(message[..n]), ELLIPSIS);
    }
  }

  lemma PlainEllipsis()
    ensures Escaped(ELLIPSIS) == ELLIPSIS
  {
    assert ELLIPSIS[1..] == ".." && ".."[1..] == "." && "."[1..] == "";
    assert Escaped(".") == "." && Escaped("..") == "..";
  }

  /** Text that JSON writes as it is. */
  predicate IsPlain(s: string) {
    forall i :: 0 <= i < |s| ==> !(s[i] as int < 0x20 || 0x7F <= s[i] as int < 0xA0) && s[i] != '"' && s[i] != '\\'
  }

  lemma {:induction false} PlainCost(s: string)
    requires IsPlain(s)
    ensures Cost(s) == 2 * Bytes(s)
  {
    if s != "" {
      PlainCost(s[..|s| - 1]);
    }
  }

  /** The code points that `n` bytes of UTF-8 can hold: 7 bits in one byte, and `5 n + 1` bits in more. */
  function Capacity(n: nat): nat {
    if n == 0 then 0 else if n == 1 then 0x80 else if n == 2 then 0x800 else if n == 3 then 0x10000 else 0x200000
  }

  /** A character takes the fewest bytes that can hold it. */
  lemma Utf8LengthIsLeast(c: char)
    ensures 1 <= Utf8Length(c) <= 4 && Capacity(Utf8Length(c) - 1) <= c as int < Capacity(Utf8Length(c))
  {
  }

  /** The cost model is exact but for control characters, which count six JSON bytes whatever they need. */
  lemma CostIsExact(c: char)
    ensures c as int < 0x20 || 0x7F <= c as int < 0xA0 ==> CharCost(c) == Utf8Length(c) + 6 <= 8
    ensures !(c as int < 0x20 || 0x7F <= c as int < 0xA0) ==> CharCost(c) == Utf8Length(c) + Bytes(Escape(c))
  {
    if |Escape(c)| > 1 {
      AsciiBytes(Escape(c));
    } else {
      assert Escape(c) == [c] && [c][..0] == "";
      assert Bytes([c]) == Bytes([c][..0]) + Utf8Length(c);
    }
  }

  /** A message is published whole when its cost is at most 800, as plain text up to 400 bytes is. A longer
      one is cut before the first character that does not fit, and ends in three dots. */
  lemma BudgetIsExact(message: string) returns (n: nat)
    ensures Cost(message) <= 800 ==> Truncated(message) == message
    ensures IsPlain(message) && Bytes(message) <= 400 ==> Truncated(message) == message
    ensures Cost(message) > 800 ==>
              n < |message| && Truncated(message) == message[..n] + "..." && Cost(message[..n]) <= 800 < Cost(message[..n + 1])
  {
    n := LongestPrefix(message);
    assert message[..|message|] == message;
    assert Longest(message, n);
    if IsPlain(message) {
      PlainCost(message);
    }
  }
}
