/** Unpadded URL-safe base64, section 5 of RFC 4648. Byte strings are strings of characters below 256. */
module Base64 {
  import opened Wrappers

  predicate IsBytes(s: string) {
    forall i :: 0 <= i < |s| ==> s[i] as int < 256
  }

  type Sextet = n: int | 0 <= n < 64

  // ---------------------------------------------------------------- the alphabet

  function Symbol(n: Sextet): (c: char)
    ensures Value(c) == Some(n)
  {
    if n < 26 then (n + 65) as char
    else if n < 52 then (n + 71) as char
    else if n < 62 then (n - 4) as char
    else if n == 62 then '-'
    else '_'
  }

  function Value(c: char): Option<Sextet> {
    if 'A' <= c <= 'Z' then Some(c as int - 65)
    else if 'a' <= c <= 'z' then Some(c as int - 71)
    else if '0' <= c <= '9' then Some(c as int + 4)
    else if c == '-' then Some(62)
    else if c == '_' then Some(63)
    else None
  }

  lemma SymbolOfValue(c: char)
    ensures Value(c).Some? ==> Symbol(Value(c).value) == c
  {
  }

  function Symbols(sextets: seq<Sextet>): (text: string)
    ensures |text| == |sextets|
    ensures forall i :: 0 <= i < |text| ==> Value(text[i]) == Some(sextets[i])
  {
    if sextets == [] then "" else [Symbol(sextets[0])] + Symbols(sextets[1..])
  }

  function Values(text: string): (r: Option<seq<Sextet>>)
    ensures r.Some? <==> forall i :: 0 <= i < |text| ==> Value(text[i]).Some?
    ensures r.Some? ==> |r.value| == |text| && forall i :: 0 <= i < |text| ==> r.value[i] == Value(text[i]).value
  {
    if text == "" then Some([])
    else
      var first :- Value(text[0]);
      var rest :- Values(text[1..]);
      Some([first] + rest)
  }

  lemma ValuesOfSymbols(sextets: seq<Sextet>)
    ensures Values(Symbols(sextets)) == Some(sextets)
  {
    assert Values(Symbols(sextets)).value == sextets;
  }

  lemma SymbolsOfValues(text: string)
    requires Values(text).Some?
    ensures Symbols(Values(text).value) == text
  {
    forall i | 0 <= i < |text|
      ensures Symbols(Values(text).value)[i] == text[i]
    {
      SymbolOfValue(text[i]);
      SymbolOfValue(Symbols(Values(text).value)[i]);
    }
  }

  // ---------------------------------------------------------------- regrouping

  function Sextets(bytes: string): seq<Sextet>
    requires IsBytes(bytes)
  {
    if |bytes| == 0 then []
    else
      var x := bytes[0] as int;
      if |bytes| == 1 then [x / 4, x % 4 * 16]
      else
        var y := bytes[1] as int;
        if |bytes| == 2 then [x / 4, x % 4 * 16 + y / 16, y % 16 * 4]
        else
          var z := bytes[2] as int;
          [x / 4, x % 4 * 16 + y / 16, y % 16 * 4 + z / 64, z % 64] + Sextets(bytes[3..])
  }

  /** Refuses an impossible length and unused bits that are not zero. */
  function Octets(s: seq<Sextet>): (r: Option<string>)
    ensures r.Some? ==> IsBytes(r.value)
  {
    if |s| == 0 then Some("")
    else if |s| == 1 then None
    else
      var a: int, b: int := s[0], s[1];
      var first := (a * 4 + b / 16) as char;
      if |s| == 2 then
        if b % 16 == 0 then Some([first]) else None
      else
        var c: int := s[2];
        var second := (b % 16 * 16 + c / 4) as char;
        if |s| == 3 then
          if c % 4 == 0 then Some([first, second]) else None
        else
          var d: int := s[3];
          var rest :- Octets(s[4..]);
          Some([first, second, (c % 4 * 64 + d) as char] + rest)
  }

  /** Three bytes regrouped as four sextets and back, and the other way round. */
  lemma Regrouped(x: int, y: int, z: int)
    requires 0 <= x < 256 && 0 <= y < 256 && 0 <= z < 256
    ensures x / 4 * 4 + (x % 4 * 16 + y / 16) / 16 == x
    ensures (x % 4 * 16 + y / 16) % 16 * 16 + (y % 16 * 4 + z / 64) / 4 == y
    ensures (y % 16 * 4 + z / 64) % 4 * 64 + z % 64 == z
  {
  }

  lemma Ungrouped(a: int, b: int, c: int, d: int)
    requires 0 <= a < 64 && 0 <= b < 64 && 0 <= c < 64 && 0 <= d < 64
    ensures (a * 4 + b / 16) / 4 == a
    ensures (a * 4 + b / 16) % 4 * 16 + (b % 16 * 16 + c / 4) / 16 == b
    ensures (b % 16 * 16 + c / 4) % 16 * 4 + (c % 4 * 64 + d) / 64 == c
    ensures (c % 4 * 64 + d) % 64 == d
  {
  }

  lemma {:induction false} OctetsOfSextets(bytes: string)
    requires IsBytes(bytes)
    ensures Octets(Sextets(bytes)) == Some(bytes)
  {
    if |bytes| >= 3 {
      OctetsOfSextets(bytes[3..]);
      Regrouped(bytes[0] as int, bytes[1] as int, bytes[2] as int);
      assert Sextets(bytes)[4..] == Sextets(bytes[3..]);
      assert bytes == [bytes[0], bytes[1], bytes[2]] + bytes[3..];
    } else {
      ShortOctets(bytes);
    }
  }

  lemma OneOctet(c: char)
    requires c as int < 256
    ensures Octets(Sextets([c])) == Some([c])
  {
    var x := c as int;
    assert x % 4 * 16 % 16 == 0 && x / 4 * 4 + x % 4 * 16 / 16 == x;
  }

  lemma TwoOctets(c: char, d: char)
    requires c as int < 256 && d as int < 256
    ensures Octets(Sextets([c, d])) == Some([c, d])
  {
    var x, y := c as int, d as int;
    Regrouped(x, y, 0);
    assert y % 16 * 4 % 4 == 0;
  }

  lemma ShortOctets(bytes: string)
    requires IsBytes(bytes) && |bytes| < 3
    ensures Octets(Sextets(bytes)) == Some(bytes)
  {
    if |bytes| == 1 {
      OneOctet(bytes[0]);
      assert bytes == [bytes[0]];
    } else if |bytes| == 2 {
      TwoOctets(bytes[0], bytes[1]);
      assert bytes == [bytes[0], bytes[1]];
    }
  }

  lemma {:induction false} SextetsOfOctets(s: seq<Sextet>)
    requires Octets(s).Some?
    ensures Sextets(Octets(s).value) == s
  {
    if |s| >= 4 {
      SextetsOfOctets(s[4..]);
      Ungrouped(s[0], s[1], s[2], s[3]);
      assert Octets(s).value[3..] == Octets(s[4..]).value;
      assert s == [s[0], s[1], s[2], s[3]] + s[4..];
    } else {
      ShortSextets(s);
    }
  }

  lemma TwoSextets(a: Sextet, b: Sextet)
    requires Octets([a, b]).Some?
    ensures Sextets(Octets([a, b]).value) == [a, b]
  {
    Ungrouped(a, b, 0, 0);
  }

  lemma ThreeSextets(a: Sextet, b: Sextet, c: Sextet)
    requires Octets([a, b, c]).Some?
    ensures Sextets(Octets([a, b, c]).value) == [a, b, c]
  {
    Ungrouped(a, b, c, 0);
  }

  lemma ShortSextets(s: seq<Sextet>)
    requires Octets(s).Some? && |s| < 4
    ensures Sextets(Octets(s).value) == s
  {
    if |s| == 2 {
      assert s == [s[0], s[1]];
      TwoSextets(s[0], s[1]);
    } else if |s| == 3 {
      assert s == [s[0], s[1], s[2]];
      ThreeSextets(s[0], s[1], s[2]);
    }
  }

  // ---------------------------------------------------------------- the codec

  function Encode(bytes: string): string
    requires IsBytes(bytes)
  {
    Symbols(Sextets(bytes))
  }

  function Decode(text: string): Option<string> {
    var sextets :- Values(text);
    Octets(sextets)
  }

  lemma DecodeEncode(bytes: string)
    requires IsBytes(bytes)
    ensures Decode(Encode(bytes)) == Some(bytes)
  {
    ValuesOfSymbols(Sextets(bytes));
    OctetsOfSextets(bytes);
  }

  /** Only the canonical text decodes: a decoded text is the encoding of what it decodes to. */
  lemma EncodeDecode(text: string)
    requires Decode(text).Some?
    ensures IsBytes(Decode(text).value) && Encode(Decode(text).value) == text
  {
    SextetsOfOctets(Values(text).value);
    SymbolsOfValues(text);
  }

  lemma {:induction false} EncodeLength(bytes: string)
    requires IsBytes(bytes)
    ensures |Encode(bytes)| == (4 * |bytes| + 2) / 3
  {
    if |bytes| >= 3 {
      EncodeLength(bytes[3..]);
    }
  }

  // ---------------------------------------------------------------- the standard's alphabet and bit order

  /** The digits are those of table 2 of RFC 4648: the capitals, the small letters, the decimal digits, the
      hyphen and the underscore, in the order of their values. */
  lemma AlphabetIsStandard(n: Sextet)
    ensures n < 26 ==> Symbol(n) == 'A' + n as char
    ensures 26 <= n < 52 ==> Symbol(n) == 'a' + (n - 26) as char
    ensures 52 <= n < 62 ==> Symbol(n) == '0' + (n - 52) as char
    ensures Symbol(62) == '-' && Symbol(63) == '_'
  {
  }

  /** Four digits as one number, most significant first. */
  function Number(a: int, b: int, c: int, d: int): int {
    ((a * 64 + b) * 64 + c) * 64 + d
  }

  /** Three bytes and four digits are the same 24-bit number; one or two last bytes are padded with zero
      bits. */
  lemma {:induction false} SextetsAreBits(bytes: string, k: nat)
    requires IsBytes(bytes) && 3 * k < |bytes|
    ensures var s := Sextets(bytes);
            var left := |bytes| - 3 * k;
            if left >= 3 then
              4 * k + 3 < |s|
              && Number(s[4 * k], s[4 * k + 1], s[4 * k + 2], s[4 * k + 3])
                 == bytes[3 * k] as int * 65536 + bytes[3 * k + 1] as int * 256 + bytes[3 * k + 2] as int
            else if left == 2 then
              |s| == 4 * k + 3
              && Number(s[4 * k], s[4 * k + 1], s[4 * k + 2], 0) == bytes[3 * k] as int * 65536 + bytes[3 * k + 1] as int * 256
            else |s| == 4 * k + 2 && Number(s[4 * k], s[4 * k + 1], 0, 0) == bytes[3 * k] as int * 65536
  {
    if k > 0 {
      SextetsAreBits(bytes[3..], k - 1);
      assert Sextets(bytes)[4..] == Sextets(bytes[3..]);
    }
  }
}
