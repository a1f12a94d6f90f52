/** XML escaping and guideline de-duplication of the system prompt, crates/prompt/src/system.rs. */
module SystemPrompt {
  import opened Wrappers

  // ---------------------------------------------------------------- escaping

  /** `str::replace` of one character. */
  function Replace(s: string, c: char, entity: string): string {
    if s == "" then ""
    else (if s[0] == c then entity else [s[0]]) + Replace(s[1..], c, entity)
  }

  /** `escape_xml`: five replacements, one after the other. */
  function EscapeXml(value: string): string {
    Replace(Replace(Replace(Replace(Replace(value, '&', "&amp;"), '<', "&lt;"), '>', "&gt;"), '"', "&quot;"), '\'', "&apos;")
  }

  /** The predefined entities of XML 1.0, section 4.6. */
  function Entity(c: char): string {
    if c == '&' then "&amp;"
    else if c == '<' then "&lt;"
    else if c == '>' then "&gt;"
    else if c == '"' then "&quot;"
    else if c == '\'' then "&apos;"
    else [c]
  }

  predicate IsMarkup(c: char) {
    c == '&' || c == '<' || c == '>' || c == '"' || c == '\''
  }

  /** Every character escaped at once. */
  function Simultaneous(s: string): string {
    if s == "" then "" else Entity(s[0]) + Simultaneous(s[1..])
  }

  lemma {:induction false} ReplaceJoined(a: string, b: string, c: char, entity: string)
    ensures Replace(a + b, c, entity) == Replace(a, c, entity) + Replace(b, c, entity)
  {
    if a == "" {
      assert a + b == b;
    } else {
      assert (a + b)[1..] == a[1..] + b;
      ReplaceJoined(a[1..], b, c, entity);
    }
  }

  lemma {:induction false} ReplaceAbsent(s: string, c: char, entity: string)
    requires c !in s
    ensures Replace(s, c, entity) == s
  {
    if s != "" {
      ReplaceAbsent(s[1..], c, entity);
      assert s == [s[0]] + s[1..];
    }
  }

  lemma ReplaceOne(c: char, entity: string)
    ensures Replace([c], c, entity) == entity
  {
    assert [c][1..] == "";
    assert entity + "" == entity;
  }

  lemma EscapeJoined(a: string, b: string)
    ensures EscapeXml(a + b) == EscapeXml(a) + EscapeXml(b)
  {
    var a1, b1 := Replace(a, '&', "&amp;"), Replace(b, '&', "&amp;");
    var a2, b2 := Replace(a1, '<', "&lt;"), Replace(b1, '<', "&lt;");
    var a3, b3 := Replace(a2, '>', "&gt;"), Replace(b2, '>', "&gt;");
    var a4, b4 := Replace(a3, '"', "&quot;"), Replace(b3, '"', "&quot;");
    ReplaceJoined(a, b, '&', "&amp;");
    ReplaceJoined(a1, b1, '<', "&lt;");
    ReplaceJoined(a2, b2, '>', "&gt;");
    ReplaceJoined(a3, b3, '"', "&quot;");
    ReplaceJoined(a4, b4, '\'', "&apos;");
  }

  lemma LaterStages(s: string)
    requires '<' !in s && '>' !in s && '"' !in s && '\'' !in s
    ensures Replace(s, '<', "&lt;") == Replace(s, '>', "&gt;") == Replace(s, '"', "&quot;") == Replace(s, '\'', "&apos;") == s
  {
    ReplaceAbsent(s, '<', "&lt;");
    ReplaceAbsent(s, '>', "&gt;");
    ReplaceAbsent(s, '"', "&quot;");
    ReplaceAbsent(s, '\'', "&apos;");
  }

  lemma OtherCharacter(c: char, other: char, entity: string)
    requires c != other
    ensures Replace([c], other, entity) == [c]
  {
    ReplaceAbsent([c], other, entity);
  }

  /** A later replacement never touches the ampersand of an earlier entity. */
  lemma EscapeOne(c: char)
    ensures EscapeXml([c]) == Entity(c)
  {
    if c == '&' {
      ReplaceOne(c, "&amp;");
      LaterStages("&amp;");
    } else {
      OtherCharacter(c, '&', "&amp;");
      if c == '<' {
        ReplaceOne(c, "&lt;");
        LaterStages("&lt;");
      } else {
        OtherCharacter(c, '<', "&lt;");
        EscapeRest(c);
      }
    }
  }

  lemma EscapeRest(c: char)
    requires c != '&' && c != '<'
    ensures Replace(Replace(Replace([c], '>', "&gt;"), '"', "&quot;"), '\'', "&apos;") == Entity(c)
  {
    if c == '>' {
      ReplaceOne(c, "&gt;");
      LaterStages("&gt;");
    } else {
      OtherCharacter(c, '>', "&gt;");
      if c == '"' {
        ReplaceOne(c, "&quot;");
        LaterStages("&quot;");
      } else {
        OtherCharacter(c, '"', "&quot;");
        if c == '\'' {
          ReplaceOne(c, "&apos;");
        } else {
          OtherCharacter(c, '\'', "&apos;");
        }
      }
    }
  }

  /** The five chained replacements escape every character exactly once. */
  lemma {:induction false} ChainIsSimultaneous(s: string)
    ensures EscapeXml(s) == Simultaneous(s)
  {
    if s == "" {
      ReplaceAbsent(s, '&', "&amp;");
    } else {
      ChainIsSimultaneous(s[1..]);
      EscapeOne(s[0]);
      EscapeJoined([s[0]], s[1..]);
      assert s == [s[0]] + s[1..];
    }
  }

  // ---------------------------------------------------------------- unescaping

  /** The entity a text starts with. */
  function LeadingEntity(text: string): Option<char> {
    if "&amp;" <= text then Some('&')
    else if "&lt;" <= text then Some('<')
    else if "&gt;" <= text then Some('>')
    else if "&quot;" <= text then Some('"')
    else if "&apos;" <= text then Some('\'')
    else None
  }

  /** An XML reader's view of the text; `None` for raw markup or an ampersand that starts no entity. */
  function Unescape(text: string): Option<string>
    decreases |text|
  {
    if text == "" then Some("")
    else if LeadingEntity(text).Some? then
      var c := LeadingEntity(text).value;
      var rest :- Unescape(text[|Entity(c)|..]);
      Some([c] + rest)
    else if IsMarkup(text[0]) then None
    else
      var rest :- Unescape(text[1..]);
      Some([text[0]] + rest)
  }

  lemma UnescapeHead(c: char, rest: string)
    ensures Unescape(Entity(c) + rest) == if Unescape(rest).Some? then Some([c] + Unescape(rest).value) else None
  {
    var text := Entity(c) + rest;
    assert text[|Entity(c)|..] == rest;
    if IsMarkup(c) {
      EntityLeads(c, rest);
    } else {
      assert text[0] == c && c != '&';
    }
  }

  lemma EntityLeads(c: char, rest: string)
    requires IsMarkup(c)
    ensures LeadingEntity(Entity(c) + rest) == Some(c)
  {
    var text := Entity(c) + rest;
    assert text[..|Entity(c)|] == Entity(c);
    assert text[1] == Entity(c)[1] && text[2] == Entity(c)[2];
  }

  /** For every string, the escaped text has no raw markup besides its entities' ampersands, and reading
      it back gives the string. */
  lemma {:induction false} UnescapeRecovers(s: string)
    ensures Unescape(EscapeXml(s)) == Some(s)
  {
    ChainIsSimultaneous(s);
    if s != "" {
      UnescapeRecovers(s[1..]);
      ChainIsSimultaneous(s[1..]);
      UnescapeHead(s[0], Simultaneous(s[1..]));
      assert s == [s[0]] + s[1..];
    }
  }

  /** Every markup character is an ampersand that starts an entity. */
  ghost predicate OnlyEntities(text: string) {
    forall i :: 0 <= i < |text| && IsMarkup(text[i]) ==> text[i] == '&' && LeadingEntity(text[i..]).Some?
  }

  lemma EntityOnly(c: char, rest: string)
    requires OnlyEntities(rest)
    ensures OnlyEntities(Entity(c) + rest)
  {
    var head := Entity(c);
    var text := head + rest;
    forall i | 0 <= i < |text| && IsMarkup(text[i])
      ensures text[i] == '&' && LeadingEntity(text[i..]).Some?
    {
      if i >= |head| {
        assert text[i] == rest[i - |head|] && text[i..] == rest[i - |head|..];
      } else {
        EntityHead(c, i);
        EntityLeads(c, rest);
        assert text[0..] == text;
      }
    }
  }

  lemma EntityHead(c: char, i: nat)
    requires i < |Entity(c)| && IsMarkup(Entity(c)[i])
    ensures i == 0 && IsMarkup(c) && Entity(c)[i] == '&'
  {
  }

  lemma {:induction false} NoRawMarkup(s: string)
    ensures OnlyEntities(EscapeXml(s))
  {
    ChainIsSimultaneous(s);
    if s != "" {
      NoRawMarkup(s[1..]);
      ChainIsSimultaneous(s[1..]);
      EntityOnly(s[0], Simultaneous(s[1..]));
    }
  }

  // ---------------------------------------------------------------- guidelines

  const FALLBACK := "Use bash for file operations like ls, rg, find"
  const CONCISE := "Be concise in your responses"
  const PATHS := "Show file paths clearly when working with files"

  datatype Tool = Tool(name: string, guidelines: seq<string>)

  predicate NeedsFallback(tools: seq<Tool>) {
    && (exists i :: 0 <= i < |tools| && tools[i].name == "bash")
    && (forall i :: 0 <= i < |tools| ==> tools[i].name != "grep" && tools[i].name != "find" && tools[i].name != "ls")
  }

  function Contributed(tools: seq<Tool>): seq<string> {
    if tools == [] then [] else Contributed(tools[..|tools| - 1]) + tools[|tools| - 1].guidelines
  }

  /** The trimmed guidelines that are not blank. */
  function Trimmed(guidelines: seq<string>, trim: string -> string): seq<string> {
    if guidelines == [] then []
    else
      var front := Trimmed(guidelines[..|guidelines| - 1], trim);
      var last := trim(guidelines[|guidelines| - 1]);
      if last == "" then front else front + [last]
  }

  /** Everything the prompt might list, in order. */
  function Offered(tools: seq<Tool>, trim: string -> string): seq<string> {
    (if NeedsFallback(tools) then [FALLBACK] else []) + Trimmed(Contributed(tools), trim) + [CONCISE, PATHS]
  }

  function FirstOccurrences(s: seq<string>): seq<string> {
    if s == [] then []
    else
      var front, last := s[..|s| - 1], s[|s| - 1];
      if last in front then FirstOccurrences(front) else FirstOccurrences(front) + [last]
  }

  /** What the prompt lists and remembers after some offered guidelines. */
  ghost predicate Lists(guidelines: seq<string>, seen: set<string>, offered: seq<string>) {
    guidelines == FirstOccurrences(offered) && forall g :: g in seen <==> g in offered
  }

  lemma ListsOneMore(guidelines: seq<string>, seen: set<string>, offered: seq<string>, g: string)
    requires Lists(guidelines, seen, offered)
    ensures if g in seen then Lists(guidelines, seen, offered + [g])
            else Lists(guidelines + [g], seen + {g}, offered + [g])
  {
    assert (offered + [g])[..|offered|] == offered;
  }

  /** Adds the guidelines not seen yet. */
  method AddUnseen(ghost before: seq<string>, more: seq<string>, listed: seq<string>, known: set<string>)
    returns (guidelines: seq<string>, seen: set<string>)
    requires Lists(listed, known, before)
    ensures Lists(guidelines, seen, before + more)
  {
    guidelines, seen := listed, known;
    assert before + more[..0] == before;
    for i := 0 to |more|
      invariant Lists(guidelines, seen, before + more[..i])
    {
      ListsOneMore(guidelines, seen, before + more[..i], more[i]);
      assert before + more[..i + 1] == (before + more[..i]) + [more[i]];
      if more[i] !in seen {
        seen := seen + {more[i]};
        guidelines := guidelines + [more[i]];
      }
    }
    assert more[..|more|] == more;
  }

  method Guidelines(tools: seq<Tool>, trim: string -> string) returns (guidelines: seq<string>)
    ensures guidelines == FirstOccurrences(Offered(tools, trim))
  {
    var seen: set<string> := {};
    guidelines := [];
    var fallback := if NeedsFallback(tools) then [FALLBACK] else [];
    var trimmed := Trimmed(Contributed(tools), trim);
    guidelines, seen := AddUnseen([], fallback, guidelines, seen);
    assert [] + fallback == fallback;
    guidelines, seen := AddUnseen(fallback, trimmed, guidelines, seen);
    guidelines, seen := AddUnseen(fallback + trimmed, [CONCISE, PATHS], guidelines, seen);
  }

  /** Every offered guideline is listed exactly once, in the order of first appearance. */
  lemma {:induction false} ListedOnceInOrder(s: seq<string>)
    ensures var r := FirstOccurrences(s);
            && (forall g :: g in r <==> g in s)
            && (forall i, k :: 0 <= i < k < |r| ==> r[i] != r[k])
            && (forall i, k :: 0 <= i < k < |r| ==> FirstAt(s, r[i]) < FirstAt(s, r[k]))
  {
    if s != [] {
      var front, last := s[..|s| - 1], s[|s| - 1];
      ListedOnceInOrder(front);
      assert s == front + [last];
      var r := FirstOccurrences(front);
      forall g | g in front
        ensures FirstAt(s, g) == FirstAt(front, g)
      {
        FirstAtPrefix(front, last, g);
      }
      FirstAtNew(front, last);
    }
  }

  function FirstAt(s: seq<string>, g: string): (i: nat)
    ensures i <= |s| && (g in s ==> i < |s| && s[i] == g)
  {
    if s == [] || s[0] == g then 0 else 1 + FirstAt(s[1..], g)
  }

  lemma {:induction false} FirstAtPrefix(s: seq<string>, last: string, g: string)
    requires g in s
    ensures FirstAt(s + [last], g) == FirstAt(s, g)
  {
    if s[0] != g {
      FirstAtPrefix(s[1..], last, g);
      assert (s + [last])[1..] == s[1..] + [last];
    }
  }

  lemma {:induction false} FirstAtNew(s: seq<string>, last: string)
    ensures last !in s ==> FirstAt(s + [last], last) == |s|
  {
    if s != [] && last !in s {
      FirstAtNew(s[1..], last);
      assert (s + [last])[1..] == s[1..] + [last];
    }
  }

  lemma {:induction false} TrimmedMembers(guidelines: seq<string>, trim: string -> string, g: string)
    ensures g in Trimmed(guidelines, trim) <==> g != "" && exists x :: x in guidelines && trim(x) == g
  {
    if guidelines != [] {
      var front, last := guidelines[..|guidelines| - 1], guidelines[|guidelines| - 1];
      TrimmedMembers(front, trim, g);
      assert guidelines == front + [last];
      if g != "" && trim(last) == g {
        assert last in guidelines;
      }
    }
  }

  lemma {:induction false} ContributedMembers(tools: seq<Tool>, x: string)
    ensures x in Contributed(tools) <==> exists tool :: tool in tools && x in tool.guidelines
  {
    if tools != [] {
      var front, last := tools[..|tools| - 1], tools[|tools| - 1];
      ContributedMembers(front, x);
      assert tools == front + [last];
      assert last in tools;
    }
  }

  /** The prompt lists exactly the non-blank guidelines of its tools, the two fixed ones, and the bash
      fallback when there is a bash tool but none of grep, find and ls; the fallback comes first. */
  lemma ListedExactly(tools: seq<Tool>, trim: string -> string, g: string)
    ensures g in FirstOccurrences(Offered(tools, trim)) <==>
            || (g != "" && exists tool, x :: tool in tools && x in tool.guidelines && trim(x) == g)
            || g == "Be concise in your responses" || g == "Show file paths clearly when working with files"
            || (g == "Use bash for file operations like ls, rg, find" && (exists tool :: tool in tools && tool.name == "bash")
                && forall tool :: tool in tools ==> tool.name !in {"grep", "find", "ls"})
  {
    ListedOnceInOrder(Offered(tools, trim));
    TrimmedMembers(Contributed(tools), trim, g);
    forall x
      ensures x in Contributed(tools) <==> exists tool :: tool in tools && x in tool.guidelines
    {
      ContributedMembers(tools, x);
    }
    assert NeedsFallback(tools) <==>
             (exists tool :: tool in tools && tool.name == "bash") && forall tool :: tool in tools ==> tool.name !in {"grep", "find", "ls"};
  }

  /** The fallback is listed before everything else. */
  lemma FallbackComesFirst(tools: seq<Tool>, trim: string -> string)
    requires exists i :: 0 <= i < |tools| && tools[i].name == "bash"
    requires forall i :: 0 <= i < |tools| ==> tools[i].name !in {"grep", "find", "ls"}
    ensures FirstOccurrences(Offered(tools, trim)) != []
            && FirstOccurrences(Offered(tools, trim))[0] == "Use bash for file operations like ls, rg, find"
  {
    FirstStaysFirst(Offered(tools, trim));
  }

  lemma {:induction false} FirstStaysFirst(s: seq<string>)
    requires s != []
    ensures FirstOccurrences(s) != [] && FirstOccurrences(s)[0] == s[0]
  {
    if |s| > 1 {
      FirstStaysFirst(s[..|s| - 1]);
    } else {
      assert s[..0] == [];
    }
  }
}
