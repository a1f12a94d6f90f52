/** The display view of a native assistant message, crates/kernel/src/provider/content.rs, and the
    comparison that decides whether stored native history is still what the user sees. */
module Display {
  import opened Wrappers

  datatype CallId = CallId(wire: string, provenance: Option<string>)

  /** A native call; a provider's unparsable arguments are kept as text beside an empty object. */
  datatype Call = Call(id: CallId, name: string, arguments: string, invalid: Option<string>)

  datatype NativeStop = Stop | Length | ToolUse | Aborted(reason: string) | Failed(reason: string)

  datatype Part =
    | TextPart(text: string)
    | ReasoningPart(text: string, redacted: bool)
    | CallPart(call: Call)
    | ImagePart(data: string, base64: bool, mime: Option<string>)
    | OpaquePart(payload: string)

  datatype Native = Native(parts: seq<Part>, stop: Option<NativeStop>, signature: string)

  datatype StopReason = EndTurn | ToolUsed | MaxTokens | Refusal | Error | Cancelled

  /** Call arguments as stored for display: a JSON object, or some other JSON value. */
  datatype Arguments = ObjectArguments(text: string) | OtherArguments(text: string)

  /** A content block; `Rich` stands for audio, resources and links with their model-visible text. */
  datatype Block =
    | Text(text: string)
    | Reasoning(text: string)
    | Image(data: string, mime: string)
    | ToolCall(id: string, name: string, arguments: Arguments, invalid: Option<string>)
    | Rich(text: string)

  function StopOf(native: Native): StopReason {
    match native.stop
    case None => EndTurn
    case Some(Stop) => EndTurn
    case Some(Length) => MaxTokens
    case Some(ToolUse) => ToolUsed
    case Some(Aborted(_)) => Cancelled
    case Some(Failed(_)) => Error
  }

  predicate IsVisible(part: Part) {
    match part
    case TextPart(_) => true
    case CallPart(_) => true
    case ReasoningPart(text, redacted) => !redacted && text != ""
    case ImagePart(_, base64, mime) => base64 && mime.Some?
    case OpaquePart(_) => false
  }

  function Visible(parts: seq<Part>): (r: seq<Part>)
    ensures forall p :: p in r ==> IsVisible(p)
  {
    if parts == [] then []
    else if IsVisible(parts[0]) then [parts[0]] + Visible(parts[1..])
    else Visible(parts[1..])
  }

  /** One visible part as a block. */
  function Shown(part: Part): Block
    requires IsVisible(part)
  {
    match part
    case TextPart(text) => Text(text)
    case ReasoningPart(text, _) => Reasoning(text)
    case CallPart(call) => ToolCall(call.id.wire, call.name, ObjectArguments(call.arguments), call.invalid)
    case ImagePart(data, _, mime) => Image(data, mime.value)
  }

  function ShownAll(parts: seq<Part>): (r: seq<Block>)
    requires forall p :: p in parts ==> IsVisible(p)
    ensures |r| == |parts| && forall i :: 0 <= i < |r| ==> r[i] == Shown(parts[i])
  {
    seq(|parts|, i requires 0 <= i < |parts| => Shown(parts[i]))
  }

  // ---------------------------------------------------------------- maximal runs of text

  predicate Joins(a: Block, b: Block) {
    (a.Text? && b.Text?) || (a.Reasoning? && b.Reasoning?)
  }

  /** How many leading blocks continue a run of the given kind of text. */
  function RunLength(kind: Block, blocks: seq<Block>): (n: nat)
    ensures n <= |blocks| && forall i :: 0 <= i < n ==> Joins(kind, blocks[i])
    ensures n < |blocks| ==> !Joins(kind, blocks[n])
  {
    if blocks == [] || !Joins(kind, blocks[0]) then 0 else 1 + RunLength(kind, blocks[1..])
  }

  function TextsOf(blocks: seq<Block>): string {
    if blocks == [] then ""
    else (if blocks[0].Text? || blocks[0].Reasoning? then blocks[0].text else "") + TextsOf(blocks[1..])
  }

  /** What a reader sees: adjacent blocks of one kind of text are one. */
  function Merged(blocks: seq<Block>): seq<Block>
    decreases |blocks|
  {
    if blocks == [] then []
    else if blocks[0].Text? || blocks[0].Reasoning? then
      var n := RunLength(blocks[0], blocks);
      [blocks[0].(text := TextsOf(blocks[..n]))] + Merged(blocks[n..])
    else [blocks[0]] + Merged(blocks[1..])
  }

  // ---------------------------------------------------------------- text comparison

  function Concat(chunks: seq<string>): string {
    if chunks == [] then "" else chunks[0] + Concat(chunks[1..])
  }

  /** The next non-empty chunk and the chunks after it. */
  method Refill(held: string, chunks: seq<string>) returns (text: string, rest: seq<string>)
    ensures text + Concat(rest) == held + Concat(chunks)
    ensures text == "" ==> rest == []
    ensures |rest| <= |chunks| && (held != "" ==> text == held && rest == chunks)
  {
    text, rest := held, chunks;
    while text == "" && rest != []
      invariant text + Concat(rest) == held + Concat(chunks)
      invariant |rest| <= |chunks| && (held != "" ==> text == held && rest == chunks)
      decreases |rest|
    {
      assert text + Concat(rest) == rest[0] + Concat(rest[1..]);
      text, rest := rest[0], rest[1..];
    }
  }

  lemma SplitPrefix(a: string, b: string, x: string, y: string, n: nat)
    requires n <= |a| && n <= |b|
    ensures a + x == b + y <==> a[..n] == b[..n] && a[n..] + x == b[n..] + y
  {
    assert a + x == a[..n] + (a[n..] + x);
    assert b + y == b[..n] + (b[n..] + y);
    if a + x == b + y {
      assert (a + x)[..n] == a[..n] && (b + y)[..n] == b[..n];
      assert (a + x)[n..] == a[n..] + x && (b + y)[n..] == b[n..] + y;
    }
  }

  function Total(held: string, chunks: seq<string>): nat {
    |held + Concat(chunks)|
  }

  /** `same_text`: compares two chunked texts slice by slice without joining them. */
  method SameText(left: seq<string>, right: seq<string>) returns (same: bool)
    ensures same <==> Concat(left) == Concat(right)
  {
    var lhs, rhs, l, r := "", "", left, right;
    assert "" + Concat(left) == Concat(left) && "" + Concat(right) == Concat(right);
    while true
      invariant Concat(left) == Concat(right) <==> lhs + Concat(l) == rhs + Concat(r)
      decreases Total(lhs, l)
    {
      var a, b := lhs + Concat(l), rhs + Concat(r);
      lhs, l := Refill(lhs, l);
      rhs, r := Refill(rhs, r);
      if lhs == "" || rhs == "" {
        assert lhs == "" ==> lhs + Concat(l) == "";
        assert rhs == "" ==> rhs + Concat(r) == "";
        return lhs == "" && rhs == "";
      }
      var length := if |lhs| < |rhs| then |lhs| else |rhs|;
      SplitPrefix(lhs, rhs, Concat(l), Concat(r), length);
      if lhs[..length] != rhs[..length] {
        return false;
      }
      lhs, rhs := lhs[length..], rhs[length..];
    }
  }

  // ---------------------------------------------------------------- projection and comparison

  /** `AssistantProjection::blocks`: text runs are joined as they are pushed. */
  function Push(blocks: seq<Block>, block: Block): seq<Block> {
    if blocks != [] && Joins(blocks[|blocks| - 1], block)
    then blocks[..|blocks| - 1] + [block.(text := blocks[|blocks| - 1].text + block.text)]
    else blocks + [block]
  }

  function Projected(blocks: seq<Block>): seq<Block> {
    if blocks == [] then [] else Push(Projected(blocks[..|blocks| - 1]), blocks[|blocks| - 1])
  }

  function BlocksOf(native: Native): seq<Block> {
    Projected(ShownAll(Visible(native.parts)))
  }

  /** What the comparison decides: the stop reason is unchanged and both sides show the same. */
  predicate Matches(native: Native, blocks: seq<Block>, stop: StopReason) {
    StopOf(native) == stop && Merged(ShownAll(Visible(native.parts))) == Merged(blocks)
  }

  function Texts(blocks: seq<Block>): (r: seq<string>)
    requires forall i :: 0 <= i < |blocks| ==> blocks[i].Text? || blocks[i].Reasoning?
    ensures |r| == |blocks| && forall i :: 0 <= i < |r| ==> r[i] == blocks[i].text
    ensures Concat(r) == TextsOf(blocks)
  {
    if blocks == [] then [] else [blocks[0].text] + Texts(blocks[1..])
  }

  /** `AssistantProjection::matches`, on the visible native parts as blocks. */
  method MatchesDisplay(native: Native, blocks: seq<Block>, stop: StopReason) returns (matches: bool)
    ensures matches <==> Matches(native, blocks, stop)
  {
    if StopOf(native) != stop {
      return false;
    }
    var expected, actual := ShownAll(Visible(native.parts)), blocks;
    while true
      invariant Merged(ShownAll(Visible(native.parts))) == Merged(blocks) <==> Merged(expected) == Merged(actual)
      decreases |expected|
    {
      if expected == [] || actual == [] {
        return expected == [] && actual == [];
      }
      if Joins(expected[0], actual[0]) {
        var n, m := RunLength(expected[0], expected), RunLength(actual[0], actual);
        var same := SameText(Texts(expected[..n]), Texts(actual[..m]));
        RunsCompare(expected, actual);
        if !same {
          return false;
        }
        expected, actual := expected[n..], actual[m..];
      } else {
        HeadsCompare(expected, actual);
        // A call or image must be equal; blocks of different kinds never are.
        if expected[0].Text? || expected[0].Reasoning? || expected[0] != actual[0] {
          return false;
        }
        expected, actual := expected[1..], actual[1..];
      }
    }
  }

  lemma RunsCompare(a: seq<Block>, b: seq<Block>)
    requires a != [] && b != [] && Joins(a[0], b[0])
    ensures var n, m := RunLength(a[0], a), RunLength(b[0], b);
            && n > 0 && m > 0
            && (Merged(a) == Merged(b) <==> TextsOf(a[..n]) == TextsOf(b[..m]) && Merged(a[n..]) == Merged(b[m..]))
  {
    var n, m := RunLength(a[0], a), RunLength(b[0], b);
    assert Merged(a)[0].text == TextsOf(a[..n]) && Merged(b)[0].text == TextsOf(b[..m]);
    assert Merged(a)[1..] == Merged(a[n..]) && Merged(b)[1..] == Merged(b[m..]);
    assert Merged(a) == [Merged(a)[0]] + Merged(a)[1..] && Merged(b) == [Merged(b)[0]] + Merged(b)[1..];
  }

  lemma HeadsCompare(a: seq<Block>, b: seq<Block>)
    requires a != [] && b != [] && !Joins(a[0], b[0])
    ensures a[0].Text? || a[0].Reasoning? || a[0] != b[0] ==> Merged(a) != Merged(b)
    ensures !(a[0].Text? || a[0].Reasoning?) && a[0] == b[0] ==> (Merged(a) == Merged(b) <==> Merged(a[1..]) == Merged(b[1..]))
  {
    assert Merged(a)[0].Text? == a[0].Text? && Merged(a)[0].Reasoning? == a[0].Reasoning?;
    assert Merged(b)[0].Text? == b[0].Text? && Merged(b)[0].Reasoning? == b[0].Reasoning?;
    if !(a[0].Text? || a[0].Reasoning?) && a[0] == b[0] {
      assert Merged(a)[1..] == Merged(a[1..]) && Merged(b)[1..] == Merged(b[1..]);
    }
  }

  lemma {:induction false} TextsOfConcat(a: seq<Block>, b: Block)
    ensures TextsOf(a + [b]) == TextsOf(a) + (if b.Text? || b.Reasoning? then b.text else "")
  {
    if a != [] {
      TextsOfConcat(a[1..], b);
      assert (a + [b])[1..] == a[1..] + [b];
    }
  }

  lemma {:induction false} RunLengthConcat(kind: Block, a: seq<Block>, b: Block)
    ensures var n := RunLength(kind, a);
            RunLength(kind, a + [b]) == if n < |a| then n else if Joins(kind, b) then n + 1 else n
  {
    if a != [] && Joins(kind, a[0]) {
      RunLengthConcat(kind, a[1..], b);
      assert (a + [b])[1..] == a[1..] + [b];
    } else if a == [] {
      assert (a + [b])[1..] == [];
    }
  }

  lemma MergedOne(b: Block)
    ensures Merged([b]) == [b]
  {
    assert [b][1..] == [] && [b][..1] == [b];
    if b.Text? || b.Reasoning? {
      assert RunLength(b, [b]) == 1 + RunLength(b, [b][1..]);
      assert TextsOf([b]) == b.text + TextsOf([b][1..]);
      assert b.(text := TextsOf([b])) == b;
    }
  }

  /** Splitting off the first maximal run. */
  lemma MergedSplit(a: seq<Block>, n: nat)
    requires a != [] && (a[0].Text? || a[0].Reasoning?) && n == RunLength(a[0], a)
    ensures n > 0 && Merged(a) == [a[0].(text := TextsOf(a[..n]))] + Merged(a[n..])
  {
  }

  lemma PushBehind(first: Block, rest: seq<Block>, b: Block)
    requires rest != []
    ensures [first] + Push(rest, b) == Push([first] + rest, b)
  {
    assert ([first] + rest)[..|rest|] == [first] + rest[..|rest| - 1];
  }

  function Joined(run: seq<Block>): Block
    requires run != [] && (run[0].Text? || run[0].Reasoning?)
  {
    run[0].(text := TextsOf(run))
  }

  lemma MergedFrom(run: seq<Block>, rest: seq<Block>)
    requires run != [] && (run[0].Text? || run[0].Reasoning?) && RunLength(run[0], run + rest) == |run|
    ensures Merged(run + rest) == [Joined(run)] + Merged(rest)
  {
    MergedSplit(run + rest, |run|);
    assert (run + rest)[..|run|] == run && (run + rest)[|run|..] == rest;
  }

  lemma MergedBehindRun(run: seq<Block>, rest: seq<Block>, b: Block)
    requires run != [] && (run[0].Text? || run[0].Reasoning?) && rest != [] && RunLength(run[0], run + rest) == |run|
    requires Merged(rest + [b]) == Push(Merged(rest), b)
    ensures Merged(run + rest + [b]) == Push(Merged(run + rest), b)
  {
    RunLengthConcat(run[0], run + rest, b);
    assert run + rest + [b] == run + (rest + [b]);
    MergedFrom(run, rest);
    MergedFrom(run, rest + [b]);
    MergedNonEmpty(rest);
    PushBehind(Joined(run), Merged(rest), b);
  }

  lemma MergedWhole(a: seq<Block>)
    requires a != [] && (a[0].Text? || a[0].Reasoning?) && RunLength(a[0], a) == |a|
    ensures Merged(a) == [Joined(a)]
  {
    assert a + [] == a;
    MergedFrom(a, []);
  }

  lemma PushJoined(a: seq<Block>, b: Block)
    requires a != [] && Joins(a[0], b)
    ensures Push([Joined(a)], b) == [Joined(a + [b])]
  {
    TextsOfConcat(a, b);
    assert (a + [b])[0] == a[0];
    assert [Joined(a)][..0] == [];
  }

  lemma MergedRun(a: seq<Block>, b: Block)
    requires a != [] && (a[0].Text? || a[0].Reasoning?) && RunLength(a[0], a) == |a|
    ensures Merged(a + [b]) == Push(Merged(a), b)
  {
    RunLengthConcat(a[0], a, b);
    MergedWhole(a);
    if Joins(a[0], b) {
      MergedWhole(a + [b]);
      PushJoined(a, b);
    } else {
      MergedOne(b);
      MergedFrom(a, [b]);
      assert Push([Joined(a)], b) == [Joined(a)] + [b];
    }
  }

  lemma MergedNonEmpty(a: seq<Block>)
    ensures Merged(a) == [] <==> a == []
  {
  }

  lemma MergedHead(head: Block, rest: seq<Block>)
    requires !head.Text? && !head.Reasoning?
    ensures Merged([head] + rest) == [head] + Merged(rest)
  {
    assert ([head] + rest)[1..] == rest;
  }

  lemma PushHead(head: Block, rest: seq<Block>, b: Block)
    requires !head.Text? && !head.Reasoning?
    ensures [head] + Push(rest, b) == Push([head] + rest, b)
  {
    if rest == [] {
      assert Push(rest, b) == [b] && [head] + rest == [head];
      assert Push([head], b) == [head] + [b];
    } else {
      PushBehind(head, rest, b);
    }
  }

  lemma MergedBehindHead(head: Block, rest: seq<Block>, b: Block)
    requires !head.Text? && !head.Reasoning?
    requires Merged(rest + [b]) == Push(Merged(rest), b)
    ensures Merged([head] + (rest + [b])) == Push(Merged([head] + rest), b)
  {
    MergedHead(head, rest);
    MergedHead(head, rest + [b]);
    PushHead(head, Merged(rest), b);
  }

  /** The first maximal run of a text, and what follows it. */
  lemma FirstRun(a: seq<Block>) returns (run: seq<Block>, rest: seq<Block>)
    requires a != [] && (a[0].Text? || a[0].Reasoning?)
    ensures a == run + rest && run != [] && run[0] == a[0] && RunLength(run[0], run + rest) == |run|
  {
    var n := RunLength(a[0], a);
    run, rest := a[..n], a[n..];
  }

  lemma {:induction false} MergedLast(a: seq<Block>, b: Block)
    ensures Merged(a + [b]) == Push(Merged(a), b)
    decreases |a|
  {
    if a == [] {
      assert a + [b] == [b];
      MergedOne(b);
    } else if a[0].Text? || a[0].Reasoning? {
      var run, rest := FirstRun(a);
      if rest == [] {
        assert a == run;
        MergedRun(a, b);
      } else {
        MergedLast(rest, b);
        MergedBehindRun(run, rest, b);
      }
    } else {
      var head, rest := a[0], a[1..];
      assert a == [head] + rest && a + [b] == [head] + (rest + [b]);
      MergedLast(rest, b);
      MergedBehindHead(head, rest, b);
    }
  }

  /** The projection shows exactly the maximal runs. */
  lemma {:induction false} ProjectedIsMerged(blocks: seq<Block>)
    ensures Projected(blocks) == Merged(blocks)
  {
    if blocks != [] {
      var front := blocks[..|blocks| - 1];
      ProjectedIsMerged(front);
      MergedLast(front, blocks[|blocks| - 1]);
      assert front + [blocks[|blocks| - 1]] == blocks;
    }
  }

  ghost predicate Apart(blocks: seq<Block>) {
    forall i, k :: 0 <= i && k == i + 1 < |blocks| ==> !Joins(blocks[i], blocks[k])
  }

  lemma {:induction false} ProjectedApart(blocks: seq<Block>)
    ensures Apart(Projected(blocks))
  {
    if blocks != [] {
      ProjectedApart(blocks[..|blocks| - 1]);
    }
  }

  lemma {:induction false} ApartProjected(blocks: seq<Block>)
    requires Apart(blocks)
    ensures Projected(blocks) == blocks
  {
    if blocks != [] {
      ApartProjected(blocks[..|blocks| - 1]);
      assert blocks == blocks[..|blocks| - 1] + [blocks[|blocks| - 1]];
    }
  }

  /** A native message always matches its own display, however that display was cut into text blocks;
      any other visible content, or another stop reason, does not match. */
  lemma OwnDisplayMatches(native: Native, blocks: seq<Block>, stop: StopReason)
    ensures Matches(native, BlocksOf(native), StopOf(native))
    ensures Matches(native, blocks, stop) <==> stop == StopOf(native) && Projected(blocks) == BlocksOf(native)
  {
    var shown := ShownAll(Visible(native.parts));
    ProjectedIsMerged(shown);
    ProjectedIsMerged(blocks);
    ProjectedApart(shown);
    ApartProjected(BlocksOf(native));
    ProjectedIsMerged(BlocksOf(native));
  }

  // ---------------------------------------------------------------- what a display says

  /** What a reader meets, one after the other: the letters of the answer, those of the reasoning, and whole
      images and calls. */
  datatype Atom = Letter(c: char) | Thought(c: char) | Picture(data: string, mime: string) | Invocation(id: string, name: string, arguments: Arguments, invalid: Option<string>)

  function Letters(text: string): (r: seq<Atom>)
    ensures |r| == |text| && forall i :: 0 <= i < |r| ==> r[i] == Letter(text[i])
  {
    seq(|text|, i requires 0 <= i < |text| => Letter(text[i]))
  }

  function Thoughts(text: string): (r: seq<Atom>)
    ensures |r| == |text| && forall i :: 0 <= i < |r| ==> r[i] == Thought(text[i])
  {
    seq(|text|, i requires 0 <= i < |text| => Thought(text[i]))
  }

  /** What one native part says: redacted reasoning, opaque items and images that are not inline base64 with
      a type say nothing. */
  function PartSays(part: Part): seq<Atom> {
    match part
    case TextPart(text) => Letters(text)
    case ReasoningPart(text, redacted) => if redacted then [] else Thoughts(text)
    case CallPart(call) => [Invocation(call.id.wire, call.name, ObjectArguments(call.arguments), call.invalid)]
    case ImagePart(data, base64, mime) => if base64 && mime.Some? then [Picture(data, mime.value)] else []
    case OpaquePart(_) => []
  }

  function BlockSays(block: Block): seq<Atom> {
    match block
    case Text(text) => Letters(text)
    case Reasoning(text) => Thoughts(text)
    case Image(data, mime) => [Picture(data, mime)]
    case ToolCall(id, name, arguments, invalid) => [Invocation(id, name, arguments, invalid)]
    case Rich(text) => Letters(text)
  }

  function Say<T>(says: T -> seq<Atom>, items: seq<T>): seq<Atom> {
    if items == [] then [] else says(items[0]) + Say(says, items[1..])
  }

  lemma {:induction false} SayLast<T>(says: T -> seq<Atom>, front: seq<T>, last: T)
    ensures Say(says, front + [last]) == Say(says, front) + says(last)
  {
    if front == [] {
      assert front + [last] == [last] && [last][1..] == [];
    } else {
      assert (front + [last])[1..] == front[1..] + [last];
      SayLast(says, front[1..], last);
    }
  }

  lemma {:induction false} VisibleSays(parts: seq<Part>)
    ensures Say(BlockSays, ShownAll(Visible(parts))) == Say(PartSays, parts)
  {
    if parts != [] {
      var rest := Visible(parts[1..]);
      VisibleSays(parts[1..]);
      if IsVisible(parts[0]) {
        assert Visible(parts)[1..] == rest;
        assert ShownAll(Visible(parts))[1..] == ShownAll(rest);
        assert BlockSays(Shown(parts[0])) == PartSays(parts[0]);
      } else {
        assert PartSays(parts[0]) == [];
      }
    }
  }

  lemma JoinedSays(last: Block, block: Block)
    requires Joins(last, block)
    ensures BlockSays(block.(text := last.text + block.text)) == BlockSays(last) + BlockSays(block)
  {
  }

  lemma Regroup(a: seq<Atom>, b: seq<Atom>, c: seq<Atom>)
    ensures (a + b) + c == a + (b + c)
  {
  }

  lemma PushJoinedSays(front: seq<Block>, last: Block, block: Block)
    requires Joins(last, block)
    ensures Say(BlockSays, front + [block.(text := last.text + block.text)]) == Say(BlockSays, front + [last]) + BlockSays(block)
  {
    var joined := block.(text := last.text + block.text);
    JoinedSays(last, block);
    SayLast(BlockSays, front, last);
    SayLast(BlockSays, front, joined);
    Regroup(Say(BlockSays, front), BlockSays(last), BlockSays(block));
  }

  lemma PushSays(blocks: seq<Block>, block: Block)
    ensures Say(BlockSays, Push(blocks, block)) == Say(BlockSays, blocks) + BlockSays(block)
  {
    if blocks != [] && Joins(blocks[|blocks| - 1], block) {
      var front, last := blocks[..|blocks| - 1], blocks[|blocks| - 1];
      assert front + [last] == blocks;
      PushJoinedSays(front, last, block);
    } else {
      SayLast(BlockSays, blocks, block);
    }
  }

  lemma SplitLast(blocks: seq<Block>) returns (front: seq<Block>, last: Block)
    requires blocks != []
    ensures blocks == front + [last] && |front| < |blocks|
  {
    front, last := blocks[..|blocks| - 1], blocks[|blocks| - 1];
  }

  lemma NothingSaid()
    ensures Say(BlockSays, Projected([])) == Say(BlockSays, [])
  {
  }

  lemma {:induction false} ProjectedSays(blocks: seq<Block>)
    ensures Say(BlockSays, Projected(blocks)) == Say(BlockSays, blocks)
    decreases |blocks|
  {
    if blocks == [] {
      NothingSaid();
    } else {
      var front, last := SplitLast(blocks);
      ProjectedSays(front);
      ProjectedLast(front, last);
    }
  }

  lemma ProjectedLast(front: seq<Block>, last: Block)
    requires Say(BlockSays, Projected(front)) == Say(BlockSays, front)
    ensures Say(BlockSays, Projected(front + [last])) == Say(BlockSays, front + [last])
  {
    assert (front + [last])[..|front|] == front;
    PushSays(Projected(front), last);
    SayLast(BlockSays, front, last);
  }

  /** The display of a native message says exactly what its parts say, in their order. */
  lemma DisplaySaysTheParts(native: Native)
    ensures Say(BlockSays, BlocksOf(native)) == Say(PartSays, native.parts)
  {
    VisibleSays(native.parts);
    ProjectedSays(ShownAll(Visible(native.parts)));
  }
}
