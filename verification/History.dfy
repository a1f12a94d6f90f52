/** Conversion of a stored history into one provider request, crates/kernel/src/provider.rs. */
module History {
  import opened Wrappers
  import opened Display

  datatype Message =
    | System(blocks: seq<Block>)
    | User(blocks: seq<Block>)
    | ExpandedUser(blocks: seq<Block>)
    | Assistant(blocks: seq<Block>, stop: StopReason, native: Option<Native>)
    | ToolResult(callId: string, blocks: seq<Block>, isError: bool)
    | BashExecution(text: string, excluded: bool)
    | Extension(blocks: seq<Block>, included: bool)
    | SlashCommand(text: string)
    | Compaction(text: string)

  datatype ResultPart = ResultText(text: string) | ResultImage(data: string, mime: string)

  datatype UserPart =
    | UserText(text: string)
    | UserImage(data: string, mime: string)
    | UserResult(call: CallId, name: string, content: seq<ResultPart>, isError: bool)

  datatype Sent = SentSystem(text: string) | SentUser(parts: seq<UserPart>) | SentAssistant(native: Native)

  datatype Request = Request(messages: seq<Sent>, prompt: Sent, tools: seq<string>)

  /** The provider library's own validation: image types, tool names and call arguments. */
  datatype Rules = Rules(
    image: string -> bool,
    toolName: string -> bool,
    arguments: (Arguments, Option<string>) -> (string, Option<string>))

  const UNSUPPORTED_IMAGE := "unsupported image MIME type"
  const BAD_NAME := "invalid tool name"
  const BAD_SYSTEM := "system messages cannot contain images or calls"
  const BAD_USER := "user messages cannot contain reasoning or calls"
  const BAD_RESULT := "tool results cannot contain reasoning or tool calls"
  const EMPTY_HISTORY := "model history is empty"

  // ---------------------------------------------------------------- blocks

  function MapAll<A, B>(f: A -> Result<B, string>, items: seq<A>): (r: Result<seq<B>, string>)
    ensures r.Ok? <==> forall i :: 0 <= i < |items| ==> f(items[i]).Ok?
    ensures r.Ok? ==> |r.value| == |items| && forall i :: 0 <= i < |items| ==> f(items[i]) == Ok(r.value[i])
  {
    if items == [] then Ok([])
    else
      var first :- f(items[0]);
      var rest :- MapAll(f, items[1..]);
      Ok([first] + rest)
  }

  function SystemText(block: Block): Result<string, string> {
    match block
    case Text(text) => Ok(text)
    case Reasoning(text) => Ok(text)
    case Rich(text) => Ok(text)
    case _ => Err(BAD_SYSTEM)
  }

  function UserPartOf(rules: Rules, block: Block): Result<UserPart, string> {
    match block
    case Text(text) => Ok(UserText(text))
    case Image(data, mime) => if rules.image(mime) then Ok(UserImage(data, mime)) else Err(UNSUPPORTED_IMAGE)
    case Rich(text) => Ok(UserText(text))
    case _ => Err(BAD_USER)
  }

  function ResultPartOf(rules: Rules, block: Block): Result<ResultPart, string> {
    match block
    case Text(text) => Ok(ResultText(text))
    case Image(data, mime) => if rules.image(mime) then Ok(ResultImage(data, mime)) else Err(UNSUPPORTED_IMAGE)
    case Rich(text) => Ok(ResultText(text))
    case _ => Err(BAD_RESULT)
  }

  function AssistantPartOf(rules: Rules, block: Block): Result<Part, string> {
    match block
    case Text(text) => Ok(TextPart(text))
    case Reasoning(text) => Ok(ReasoningPart(text, false))
    case Image(data, mime) => if rules.image(mime) then Ok(ImagePart(data, true, Some(mime))) else Err(UNSUPPORTED_IMAGE)
    case ToolCall(id, name, arguments, invalid) =>
      if !rules.toolName(name) then Err(BAD_NAME)
      else
        var parsed := rules.arguments(arguments, invalid);
        Ok(CallPart(Call(CallId(id, None), name, parsed.0, parsed.1)))
    case Rich(text) => Ok(TextPart(text))
  }

  function Lines(lines: seq<string>): string {
    if lines == [] then "" else if |lines| == 1 then lines[0] else lines[0] + "\n" + Lines(lines[1..])
  }

  function UserOf(rules: Rules, blocks: seq<Block>): Result<Sent, string> {
    var parts :- MapAll(block => UserPartOf(rules, block), blocks);
    Ok(SentUser(parts))
  }

  function StopFor(stop: StopReason): NativeStop {
    match stop
    case EndTurn => Stop
    case ToolUsed => ToolUse
    case MaxTokens => Length
    case Cancelled => Aborted("cancelled")
    case _ => Failed("failed attempt")
  }

  /** The unchanged native message, or one rebuilt from the display. */
  function AssistantOf(rules: Rules, blocks: seq<Block>, stop: StopReason, native: Option<Native>): Result<Native, string> {
    if native.Some? && Matches(native.value, blocks, stop) then Ok(native.value)
    else
      var parts :- MapAll(block => AssistantPartOf(rules, block), blocks);
      Ok(Native(parts, Some(StopFor(stop)), ""))
  }

  // ---------------------------------------------------------------- the reference: searching backwards

  datatype Target = Target(call: CallId, name: string)

  /** The last call of one message with a wire id. */
  function LatestIn(parts: seq<Part>, wire: string): Option<Target> {
    if parts == [] then None
    else
      var last := parts[|parts| - 1];
      if last.CallPart? && last.call.id.wire == wire then Some(Target(last.call.id, last.call.name))
      else LatestIn(parts[..|parts| - 1], wire)
  }

  /** The calls one message makes. */
  function Calls(rules: Rules, message: Message): seq<Part> {
    if message.Assistant? then
      var native := AssistantOf(rules, message.blocks, message.stop, message.native);
      if native.Ok? then native.value.parts else []
    else []
  }

  /** The most recent call with a wire id in a history. */
  function LatestCall(rules: Rules, history: seq<Message>, wire: string): Option<Target> {
    if history == [] then None
    else
      var here := LatestIn(Calls(rules, history[|history| - 1]), wire);
      if here.Some? then here else LatestCall(rules, history[..|history| - 1], wire)
  }

  function ResultContent(parts: seq<ResultPart>, isError: bool): seq<ResultPart> {
    if parts == [] then [ResultText(if isError then "Tool failed without returning content." else "")] else parts
  }

  /** One message after the given history; `None` drops it. */
  function ConvertOne(rules: Rules, earlier: seq<Message>, message: Message): Result<Option<Sent>, string> {
    match message
    case System(blocks) =>
      var lines :- MapAll(SystemText, blocks);
      Ok(Some(SentSystem(Lines(lines))))
    case User(blocks) =>
      var sent :- UserOf(rules, blocks);
      Ok(Some(sent))
    case ExpandedUser(blocks) =>
      var sent :- UserOf(rules, blocks);
      Ok(Some(sent))
    case Assistant(blocks, stop, native) =>
      var assistant :- AssistantOf(rules, blocks, stop, native);
      Ok(Some(SentAssistant(assistant)))
    case ToolResult(id, blocks, isError) =>
      var target := LatestCall(rules, earlier, id);
      if target.None? then Ok(None)
      else
        var parts :- MapAll(block => ResultPartOf(rules, block), blocks);
        Ok(Some(SentUser([UserResult(target.value.call, target.value.name, ResultContent(parts, isError), isError)])))
    case BashExecution(text, excluded) => if excluded then Ok(None) else Ok(Some(SentUser([UserText(text)])))
    case Extension(blocks, included) =>
      if !included then Ok(None)
      else
        var sent :- UserOf(rules, blocks);
        Ok(Some(sent))
    case SlashCommand(_) => Ok(None)
    case Compaction(text) => Ok(Some(SentUser([UserText(text)])))
  }

  function ConvertAll(rules: Rules, history: seq<Message>): Result<seq<Sent>, string> {
    if history == [] then Ok([])
    else
      var front, last := history[..|history| - 1], history[|history| - 1];
      var before :- ConvertAll(rules, front);
      var sent :- ConvertOne(rules, front, last);
      Ok(if sent.Some? then before + [sent.value] else before)
  }

  // ---------------------------------------------------------------- the conversion

  /** Correlates results with calls while a history is traversed. */
  class ProviderMessage {
    var calls: map<string, Target>

    constructor ()
      ensures calls == map[]
    {
      calls := map[];
    }

    /** The index holds the most recent call of every wire id. */
    ghost predicate Knows(rules: Rules, history: seq<Message>)
      reads this
    {
      forall wire :: LatestCall(rules, history, wire) == if wire in calls then Some(calls[wire]) else None
    }

    /** `convert`. */
    method Convert(rules: Rules, ghost earlier: seq<Message>, message: Message) returns (r: Result<Option<Sent>, string>)
      requires Knows(rules, earlier)
      modifies this
      ensures r == ConvertOne(rules, earlier, message)
      ensures r.Ok? ==> Knows(rules, earlier + [message])
    {
      assert forall wire :: LatestCall(rules, earlier + [message], wire) ==
               if LatestIn(Calls(rules, message), wire).Some? then LatestIn(Calls(rules, message), wire)
               else LatestCall(rules, earlier, wire) by {
        assert (earlier + [message])[..|earlier|] == earlier;
      }
      if message.Assistant? {
        var native := AssistantNative(rules, message.blocks, message.stop, message.native);
        if native.Err? {
          return Err(native.error);
        }
        Remember(native.value.parts);
        r := Ok(Some(SentAssistant(native.value)));
      } else if message.ToolResult? {
        if message.callId !in calls {
          return Ok(None);
        }
        var target := calls[message.callId];
        var parts := MapAll(block => ResultPartOf(rules, block), message.blocks);
        if parts.Err? {
          return Err(parts.error);
        }
        r := Ok(Some(SentUser([UserResult(target.call, target.name, ResultContent(parts.value, message.isError), message.isError)])));
      } else {
        r := ConvertOne(rules, [], message);
      }
    }

    /** Later calls replace earlier ones with the same id. */
    method Remember(parts: seq<Part>)
      modifies this
      ensures forall wire :: (if wire in calls then Some(calls[wire]) else None) ==
                if LatestIn(parts, wire).Some? then LatestIn(parts, wire)
                else if wire in old(calls) then Some(old(calls)[wire]) else None
    {
      for i := 0 to |parts|
        invariant forall wire :: (if wire in calls then Some(calls[wire]) else None) ==
                    if LatestIn(parts[..i], wire).Some? then LatestIn(parts[..i], wire)
                    else if wire in old(calls) then Some(old(calls)[wire]) else None
      {
        assert parts[..i + 1][..i] == parts[..i];
        if parts[i].CallPart? {
          var call := parts[i].call;
          calls := calls[call.id.wire := Target(call.id, call.name)];
        }
      }
      assert parts[..|parts|] == parts;
    }
  }

  method AssistantNative(rules: Rules, blocks: seq<Block>, stop: StopReason, native: Option<Native>)
    returns (r: Result<Native, string>)
    ensures r == AssistantOf(rules, blocks, stop, native)
  {
    if native.Some? {
      var matches := MatchesDisplay(native.value, blocks, stop);
      if matches {
        return Ok(native.value);
      }
    }
    var parts := MapAll(block => AssistantPartOf(rules, block), blocks);
    if parts.Err? {
      return Err(parts.error);
    }
    r := Ok(Native(parts.value, Some(StopFor(stop)), ""));
  }

  /** `ProviderRequest::try_from`: the converted history with its last message as the prompt. */
  method ToRequest(rules: Rules, history: seq<Message>, tools: seq<string>) returns (r: Result<Request, string>)
    ensures ConvertAll(rules, history).Err? ==> r.Err? && r.error == ConvertAll(rules, history).error
    ensures ConvertAll(rules, history) == Ok([]) ==> r == Err(EMPTY_HISTORY)
    ensures r.Ok? ==> ConvertAll(rules, history) == Ok(r.value.messages + [r.value.prompt]) && r.value.tools == tools
    ensures r.Ok? <==> ConvertAll(rules, history).Ok? && ConvertAll(rules, history).value != []
                       && forall i :: 0 <= i < |tools| ==> rules.toolName(tools[i])
  {
    var projection := new ProviderMessage();
    var messages: seq<Sent> := [];
    for i := 0 to |history|
      invariant projection.Knows(rules, history[..i])
      invariant ConvertAll(rules, history[..i]) == Ok(messages)
    {
      var sent := projection.Convert(rules, history[..i], history[i]);
      assert history[..i + 1][..i] == history[..i] && history[..i] + [history[i]] == history[..i + 1];
      if sent.Err? {
        ErrorsStay(rules, history, i + 1);
        return Err(sent.error);
      }
      if sent.value.Some? {
        messages := messages + [sent.value.value];
      }
    }
    assert history[..|history|] == history;
    if messages == [] {
      return Err(EMPTY_HISTORY);
    }
    var prompt := messages[|messages| - 1];
    var names := MapAll((name: string) => if rules.toolName(name) then Ok(name) else Err(BAD_NAME), tools);
    if names.Err? {
      return Err(names.error);
    }
    assert messages == messages[..|messages| - 1] + [prompt];
    r := Ok(Request(messages[..|messages| - 1], prompt, names.value));
  }

  lemma {:induction false} ErrorsStay(rules: Rules, history: seq<Message>, i: nat)
    requires i <= |history| && ConvertAll(rules, history[..i]).Err?
    ensures ConvertAll(rules, history).Err? && ConvertAll(rules, history).error == ConvertAll(rules, history[..i]).error
    decreases |history|
  {
    if i < |history| {
      var front := history[..|history| - 1];
      assert front[..i] == history[..i];
      ErrorsStay(rules, front, i);
    } else {
      assert history[..i] == history;
    }
  }

  // ---------------------------------------------------------------- what a request keeps

  /** Context-excluded messages and orphan results; nothing else is ever dropped. */
  predicate Dropped(rules: Rules, earlier: seq<Message>, message: Message) {
    match message
    case ToolResult(id, _, _) => LatestCall(rules, earlier, id).None?
    case BashExecution(_, excluded) => excluded
    case Extension(_, included) => !included
    case SlashCommand(_) => true
    case _ => false
  }

  /** The positions of the messages that are sent. */
  function Kept(rules: Rules, history: seq<Message>): seq<nat> {
    if history == [] then []
    else
      var n := |history| - 1;
      var front := Kept(rules, history[..n]);
      if Dropped(rules, history[..n], history[n]) then front else front + [n]
  }

  ghost predicate SentAt(rules: Rules, history: seq<Message>, i: nat, sent: Sent) {
    i < |history| && ConvertOne(rules, history[..i], history[i]) == Ok(Some(sent))
  }

  lemma {:induction false} KeptPositions(rules: Rules, history: seq<Message>)
    ensures forall a, b :: 0 <= a < b < |Kept(rules, history)| ==> Kept(rules, history)[a] < Kept(rules, history)[b]
    ensures forall a :: 0 <= a < |Kept(rules, history)| ==> Kept(rules, history)[a] < |history|
    ensures forall i :: 0 <= i < |history| ==> (i in Kept(rules, history) <==> !Dropped(rules, history[..i], history[i]))
  {
    if history != [] {
      var n := |history| - 1;
      var front := history[..n];
      KeptPositions(rules, front);
      assert forall i :: 0 <= i < n ==> front[..i] == history[..i];
    }
  }

  /** The request lists, in input order, exactly the conversions of the messages that are not dropped. */
  lemma {:induction false} RequestKeepsOrder(rules: Rules, history: seq<Message>)
    requires ConvertAll(rules, history).Ok?
    ensures var sent, kept := ConvertAll(rules, history).value, Kept(rules, history);
            |sent| == |kept| && forall k :: 0 <= k < |kept| ==> SentAt(rules, history, kept[k], sent[k])
  {
    if history != [] {
      var n := |history| - 1;
      var front := history[..n];
      RequestKeepsOrder(rules, front);
      var sent, kept := ConvertAll(rules, front).value, Kept(rules, front);
      forall k | 0 <= k < |kept|
        ensures SentAt(rules, history, kept[k], sent[k])
      {
        assert SentAt(rules, front, kept[k], sent[k]);
        assert front[..kept[k]] == history[..kept[k]];
      }
    }
  }

  predicate AllBlocks(blocks: seq<Block>, ok: Block -> bool) {
    forall i :: 0 <= i < |blocks| ==> ok(blocks[i])
  }

  /** Which content each kind of message may hold. */
  predicate Convertible(rules: Rules, message: Message) {
    match message
    case System(blocks) => AllBlocks(blocks, (b: Block) => !b.Image? && !b.ToolCall?)
    case Assistant(blocks, stop, native) =>
      (native.Some? && Matches(native.value, blocks, stop))
      || AllBlocks(blocks, (b: Block) => (b.Image? ==> rules.image(b.mime)) && (b.ToolCall? ==> rules.toolName(b.name)))
    case BashExecution(_, _) => true
    case SlashCommand(_) => true
    case Compaction(_) => true
    case _ => AllBlocks(message.blocks, (b: Block) => !b.Reasoning? && !b.ToolCall? && (b.Image? ==> rules.image(b.mime)))
  }

  lemma ConvertOneFails(rules: Rules, earlier: seq<Message>, message: Message)
    ensures ConvertOne(rules, earlier, message).Err? <==> !Dropped(rules, earlier, message) && !Convertible(rules, message)
    ensures ConvertOne(rules, earlier, message) == Ok(None) <==> Dropped(rules, earlier, message)
  {
  }

  /** The i-th message would be sent, but holds unsupported content. */
  ghost predicate Unsupported(rules: Rules, history: seq<Message>, i: int) {
    0 <= i < |history| && !Dropped(rules, history[..i], history[i]) && !Convertible(rules, history[i])
  }

  lemma UnsupportedPrefix(rules: Rules, front: seq<Message>, last: Message, i: nat)
    requires i < |front|
    ensures Unsupported(rules, front + [last], i) <==> Unsupported(rules, front, i)
  {
    assert (front + [last])[..i] == front[..i];
  }

  lemma ConvertLast(rules: Rules, front: seq<Message>, last: Message)
    ensures ConvertAll(rules, front + [last]).Err? <==>
            ConvertAll(rules, front).Err? || Unsupported(rules, front + [last], |front|)
  {
    assert (front + [last])[..|front|] == front;
    ConvertOneFails(rules, front, last);
  }

  /** A history is refused exactly when some message that would be sent holds unsupported content. */
  lemma {:induction false} RefusedExactly(rules: Rules, history: seq<Message>)
    ensures ConvertAll(rules, history).Err? <==> exists i :: Unsupported(rules, history, i)
  {
    if history != [] {
      var n := |history| - 1;
      var front, last := history[..n], history[n];
      assert front + [last] == history;
      RefusedExactly(rules, front);
      ConvertLast(rules, front, last);
      forall i | 0 <= i < n
        ensures Unsupported(rules, history, i) <==> Unsupported(rules, front, i)
      {
        UnsupportedPrefix(rules, front, last, i);
      }
      if (exists i :: Unsupported(rules, history, i)) && !Unsupported(rules, history, n) {
        var i :| Unsupported(rules, history, i);
        assert Unsupported(rules, front, i);
      }
    }
  }

  lemma {:induction false} LatestInIsLast(parts: seq<Part>, wire: string)
    ensures LatestIn(parts, wire).Some? <==> exists p :: 0 <= p < |parts| && parts[p].CallPart? && parts[p].call.id.wire == wire
    ensures LatestIn(parts, wire).Some? ==> LatestIn(parts, wire).value.call.wire == wire
  {
    if parts != [] {
      LatestInIsLast(parts[..|parts| - 1], wire);
    }
  }

  /** The latest list with a call of a wire id, for any lists of calls. */
  function LatestOf(lists: seq<seq<Part>>, wire: string): (r: Option<nat>)
    ensures r.Some? ==> r.value < |lists|
  {
    if lists == [] then None
    else if LatestIn(lists[|lists| - 1], wire).Some? then Some(|lists| - 1)
    else LatestOf(lists[..|lists| - 1], wire)
  }

  lemma {:induction false} LatestOfIsLast(lists: seq<seq<Part>>, wire: string)
    ensures var r := LatestOf(lists, wire);
            && (r.Some? ==> r.value < |lists| && LatestIn(lists[r.value], wire).Some?)
            && (forall k :: (if r.Some? then r.value else -1) < k < |lists| ==> LatestIn(lists[k], wire).None?)
  {
    if lists != [] && LatestIn(lists[|lists| - 1], wire).None? {
      LatestOfIsLast(lists[..|lists| - 1], wire);
    }
  }

  function CallLists(rules: Rules, history: seq<Message>): (r: seq<seq<Part>>)
    ensures |r| == |history| && forall i :: 0 <= i < |r| ==> r[i] == Calls(rules, history[i])
  {
    seq(|history|, i requires 0 <= i < |history| => Calls(rules, history[i]))
  }

  lemma {:induction false} LatestCallIsLatestOf(rules: Rules, history: seq<Message>, wire: string)
    ensures var lists := CallLists(rules, history);
            LatestCall(rules, history, wire) ==
            if LatestOf(lists, wire).Some? then LatestIn(lists[LatestOf(lists, wire).value], wire) else None
  {
    LatestOfIsLast(CallLists(rules, history), wire);
    if history != [] {
      var front := history[..|history| - 1];
      LatestCallIsLatestOf(rules, front, wire);
      LatestOfIsLast(CallLists(rules, front), wire);
      assert CallLists(rules, history)[..|history| - 1] == CallLists(rules, front);
    }
  }

  lemma LatestCallIsRecent(rules: Rules, history: seq<Message>, i: nat, wire: string) returns (j: nat)
    requires i <= |history| && LatestCall(rules, history[..i], wire).Some?
    ensures j < i && history[j].Assistant?
    ensures LatestCall(rules, history[..i], wire) == LatestIn(CallLists(rules, history)[j], wire)
    ensures LatestIn(CallLists(rules, history)[j], wire).Some?
    ensures forall k :: j < k < i ==> LatestIn(CallLists(rules, history)[k], wire).None?
  {
    var lists := CallLists(rules, history[..i]);
    LatestCallIsLatestOf(rules, history[..i], wire);
    LatestOfIsLast(lists, wire);
    assert forall k :: 0 <= k < i ==> lists[k] == CallLists(rules, history)[k];
    j := LatestOf(lists, wire).value;
    assert Calls(rules, history[j]) != [];
  }

  /** Every result that is sent names the latest earlier assistant call with its id: that message made
      such a call, no message between made another, and the sent content is never empty. */
  lemma ResultNamesItsCall(rules: Rules, history: seq<Message>, i: nat, sent: Sent) returns (j: nat)
    requires SentAt(rules, history, i, sent) && history[i].ToolResult?
    ensures j < i && history[j].Assistant?
    ensures sent.SentUser? && |sent.parts| == 1 && sent.parts[0].UserResult?
    ensures LatestIn(CallLists(rules, history)[j], history[i].callId) == Some(Target(sent.parts[0].call, sent.parts[0].name))
    ensures forall k :: j < k < i ==> LatestIn(CallLists(rules, history)[k], history[i].callId).None?
    ensures sent.parts[0].call.wire == history[i].callId && sent.parts[0].content != []
    ensures sent.parts[0].isError == history[i].isError
  {
    j := LatestCallIsRecent(rules, history, i, history[i].callId);
    LatestInIsLast(CallLists(rules, history)[j], history[i].callId);
  }

  lemma NativeSurvives(rules: Rules, earlier: seq<Message>, native: Native)
    ensures ConvertOne(rules, earlier, Assistant(BlocksOf(native), StopOf(native), Some(native))) == Ok(Some(SentAssistant(native)))
  {
    OwnDisplayMatches(native, BlocksOf(native), StopOf(native));
  }

  /** How a rebuilt message says that it ended. */
  predicate Ends(native: Native, stop: StopReason) {
    && (stop == Cancelled ==> native.stop == Some(Aborted("cancelled")))
    && (stop in {Refusal, Error} ==> native.stop == Some(Failed("failed attempt")))
    && (stop == EndTurn ==> native.stop == Some(Stop))
  }

  lemma RebuiltStop(rules: Rules, blocks: seq<Block>, stop: StopReason)
    ensures var r := AssistantOf(rules, blocks, stop, None);
            r.Ok? ==> r.value.signature == "" && StopOf(r.value) == (if stop == Refusal then Error else stop) && Ends(r.value, stop)
  {
  }

  lemma UnmatchedIsRebuilt(rules: Rules, earlier: seq<Message>, native: Native, blocks: seq<Block>, stop: StopReason)
    requires !Matches(native, blocks, stop)
    ensures ConvertOne(rules, earlier, Assistant(blocks, stop, Some(native)))
            == (match AssistantOf(rules, blocks, stop, None) case Ok(n) => Ok(Some(SentAssistant(n))) case Err(e) => Err(e))
    ensures ConvertOne(rules, earlier, Assistant(blocks, stop, Some(native))) == ConvertOne(rules, earlier, Assistant(blocks, stop, None))
  {
  }

  /** A native message stored with its own display is sent unchanged, signature included; after any edit
      of what is shown it is rebuilt from the display and loses its provenance. */
  lemma NativeSurvivesExactly(rules: Rules, earlier: seq<Message>, native: Native, blocks: seq<Block>, stop: StopReason)
    ensures ConvertOne(rules, earlier, Assistant(BlocksOf(native), StopOf(native), Some(native))) == Ok(Some(SentAssistant(native)))
    ensures !(stop == StopOf(native) && Projected(blocks) == BlocksOf(native)) ==>
              var r := ConvertOne(rules, earlier, Assistant(blocks, stop, Some(native)));
              r == ConvertOne(rules, earlier, Assistant(blocks, stop, None))
              && (r.Ok? ==> r.value.Some? && r.value.value.SentAssistant? && r.value.value.native.signature == ""
                            && StopOf(r.value.value.native) == (if stop == Refusal then Error else stop)
                            && Ends(r.value.value.native, stop))
  {
    NativeSurvives(rules, earlier, native);
    OwnDisplayMatches(native, blocks, stop);
    if !Matches(native, blocks, stop) {
      UnmatchedIsRebuilt(rules, earlier, native, blocks, stop);
      RebuiltStop(rules, blocks, stop);
    }
  }

  // ---------------------------------------------------------------- what is sent says what was stored

  function UserPartSays(part: UserPart): seq<Atom> {
    match part
    case UserText(text) => Letters(text)
    case UserImage(data, mime) => [Picture(data, mime)]
    case UserResult(_, _, content, _) => Say(ResultPartSays, content)
  }

  function ResultPartSays(part: ResultPart): seq<Atom> {
    match part
    case ResultText(text) => Letters(text)
    case ResultImage(data, mime) => [Picture(data, mime)]
  }

  /** A stored block, with the call arguments as the provider library reads them. */
  function StoredSays(rules: Rules, block: Block): seq<Atom> {
    if block.ToolCall? then
      var parsed := rules.arguments(block.arguments, block.invalid);
      [Invocation(block.id, block.name, ObjectArguments(parsed.0), parsed.1)]
    else BlockSays(block)
  }

  function StoredBy(rules: Rules): Block -> seq<Atom> {
    (block: Block) => StoredSays(rules, block)
  }

  lemma {:induction false} MappedSays<A, B>(f: A -> Result<B, string>, from: A -> seq<Atom>, to: B -> seq<Atom>, items: seq<A>)
    requires MapAll(f, items).Ok?
    requires forall a :: f(a).Ok? ==> to(f(a).value) == from(a)
    ensures Say(to, MapAll(f, items).value) == Say(from, items)
  {
    if items != [] {
      MappedSays(f, from, to, items[1..]);
      assert MapAll(f, items).value[1..] == MapAll(f, items[1..]).value;
    }
  }

  lemma UserSays(rules: Rules, blocks: seq<Block>)
    requires UserOf(rules, blocks).Ok?
    ensures Say(UserPartSays, UserOf(rules, blocks).value.parts) == Say(BlockSays, blocks)
  {
    MappedSays((b: Block) => UserPartOf(rules, b), BlockSays, UserPartSays, blocks);
    assert MapAll(block => UserPartOf(rules, block), blocks) == MapAll((b: Block) => UserPartOf(rules, b), blocks);
  }

  lemma AssistantSays(rules: Rules, blocks: seq<Block>, stop: StopReason)
    requires AssistantOf(rules, blocks, stop, None).Ok?
    ensures Say(PartSays, AssistantOf(rules, blocks, stop, None).value.parts) == Say(StoredBy(rules), blocks)
  {
    MappedSays((b: Block) => AssistantPartOf(rules, b), StoredBy(rules), PartSays, blocks);
    assert MapAll(block => AssistantPartOf(rules, block), blocks) == MapAll((b: Block) => AssistantPartOf(rules, b), blocks);
  }

  lemma ResultSays(rules: Rules, blocks: seq<Block>)
    requires MapAll(block => ResultPartOf(rules, block), blocks).Ok?
    ensures Say(ResultPartSays, MapAll(block => ResultPartOf(rules, block), blocks).value) == Say(BlockSays, blocks)
  {
    MappedSays((b: Block) => ResultPartOf(rules, b), BlockSays, ResultPartSays, blocks);
    assert MapAll(block => ResultPartOf(rules, block), blocks) == MapAll((b: Block) => ResultPartOf(rules, b), blocks);
  }

  /** The texts of a system message's blocks. */
  function BlockTexts(blocks: seq<Block>): (r: seq<string>)
    requires forall i :: 0 <= i < |blocks| ==> !blocks[i].Image? && !blocks[i].ToolCall?
    ensures |r| == |blocks| && forall i :: 0 <= i < |r| ==> r[i] == blocks[i].text
  {
    seq(|blocks|, i requires 0 <= i < |blocks| => blocks[i].text)
  }

  /** Joining lines puts one line break between two of them. */
  lemma {:induction false} LinesJoin(a: seq<string>, b: seq<string>)
    ensures a != [] && b != [] ==> Lines(a + b) == Lines(a) + ("\n" + Lines(b))
    ensures |a| == 1 ==> Lines(a) == a[0]
  {
    if |a| == 1 {
      assert (a + b)[1..] == b;
    } else if |a| > 1 {
      assert (a + b)[1..] == a[1..] + b;
      LinesJoin(a[1..], b);
      if b != [] {
        assert a[0] + "\n" + (Lines(a[1..]) + ("\n" + Lines(b))) == a[0] + "\n" + Lines(a[1..]) + ("\n" + Lines(b));
      }
    }
  }

  /** Every message that is sent says what was stored, in the same order: a user message its blocks, a result
      its blocks or the standing sentence for none, a rebuilt assistant message its blocks, a shell command
      or a summary its text, and a system message the lines of its blocks. */
  lemma SentSaysTheMessage(rules: Rules, earlier: seq<Message>, message: Message, sent: Sent)
    requires ConvertOne(rules, earlier, message) == Ok(Some(sent))
    ensures match message
            case System(blocks) =>
              (forall i :: 0 <= i < |blocks| ==> !blocks[i].Image? && !blocks[i].ToolCall?) && sent == SentSystem(Lines(BlockTexts(blocks)))
            case Assistant(blocks, stop, native) =>
              sent.SentAssistant? && (native != Some(sent.native) ==>
                Say(PartSays, sent.native.parts) == Say(StoredBy(rules), blocks))
            case ToolResult(_, blocks, isError) =>
              sent.SentUser? && |sent.parts| == 1 && sent.parts[0].UserResult? &&
              (if blocks == [] then sent.parts[0].content == [ResultText(if isError then "Tool failed without returning content." else "")]
               else Say(ResultPartSays, sent.parts[0].content) == Say(BlockSays, blocks))
            case BashExecution(text, _) => sent == SentUser([UserText(text)])
            case Compaction(text) => sent == SentUser([UserText(text)])
            case SlashCommand(_) => false
            case _ => sent.SentUser? && Say(UserPartSays, sent.parts) == Say(BlockSays, message.blocks)
  {
    match message
    case System(blocks) =>
      assert MapAll(SystemText, blocks).value == BlockTexts(blocks);
    case User(blocks) => UserSays(rules, blocks);
    case ExpandedUser(blocks) => UserSays(rules, blocks);
    case Extension(blocks, _) => UserSays(rules, blocks);
    case Assistant(blocks, stop, native) =>
      if !(native.Some? && Matches(native.value, blocks, stop)) {
        AssistantSays(rules, blocks, stop);
      }
    case ToolResult(_, blocks, _) => ResultSays(rules, blocks);
    case _ =>
  }
}
