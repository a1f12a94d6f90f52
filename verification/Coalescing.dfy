/** Merging of adjacent streaming chunks before they are sent, crates/acp/src/coalescing.rs, against
    the client buffer that follows their sequences, web/src/workspace/recovery.ts. */
module Coalescing {
  import opened Wrappers
  import opened Messages

  datatype Kind = MessageChunk | ThoughtChunk

  /** The equality key of a mergeable chunk. */
  datatype Key = Key(kind: Kind, sessionId: string, messageId: string, annotations: Option<Json>, runId: string, turnId: string)

  datatype Chunk = Chunk(key: Key, first: nat, last: nat, text: string)

  function KindOf(tag: string): Option<Kind> {
    if tag == "agent_message_chunk" then Some(MessageChunk)
    else if tag == "agent_thought_chunk" then Some(ThoughtChunk)
    else None
  }

  /** The text block of an update that carries a stream chunk. */
  datatype Block = Block(kind: Kind, messageId: string, annotations: Option<Json>, text: string)

  function BlockOf(update: Fields): Option<Block> {
    var tag :- TextAt(update, "sessionUpdate");
    var kind :- KindOf(tag);
    var messageId :- TextAt(update, "messageId");
    var content :- ObjectAt(update, "content");
    var contentType :- TextAt(content, "type");
    if contentType != "text" then None
    else
      var text :- TextAt(content, "text");
      Some(Block(kind, messageId, At(content, "annotations"), text))
  }

  /** The recovery identity and sequence range of a product metadata object. */
  datatype Range = Range(runId: string, turnId: string, first: nat, last: nat)

  function RangeOf(product: Fields): Option<Range> {
    var turnId :- TextAt(product, "turnId");
    var first :- U64At(product, "sequence");
    var group :- ObjectAt(product, "sessionRecovery");
    var index :- U64At(group, "projectionIndex");
    var count :- U64At(group, "projectionCount");
    if index != 0 || count != 1 || "operationPhase" in group then None
    else
      var runId :- TextAt(group, "runId");
      var last :- if "lastSequence" in group then U64At(group, "lastSequence") else Some(first);
      if first == 0 || last < first then None else Some(Range(runId, turnId, first, last))
  }

  function ProductOf(params: Fields): Option<Fields> {
    var meta :- ObjectAt(params, "_meta");
    ObjectAt(meta, NAMESPACE)
  }

  /** `StreamChunk::from_message`. */
  function Parse(message: Message): Option<Chunk> {
    var params :- UpdateParams(message);
    var sessionId :- TextAt(params, "sessionId");
    var update :- ObjectAt(params, "update");
    var block :- BlockOf(update);
    var product :- ProductOf(params);
    var range :- RangeOf(product);
    Some(Chunk(Key(block.kind, sessionId, block.messageId, block.annotations, range.runId, range.turnId),
               range.first, range.last, block.text))
  }

  // ---------------------------------------------------------------- appending

  function WithText(update: Fields, text: string): Fields
    requires BlockOf(update).Some?
  {
    var content := update["content"].fields;
    update["content" := Object(content["text" := Text(text)])]
  }

  function WithLast(product: Fields, last: nat): Fields
    requires RangeOf(product).Some?
  {
    var group := product["sessionRecovery"].fields;
    product["sessionRecovery" := Object(group["lastSequence" := Natural(last)])]
  }

  /** `append_chunk`: extends the text in place and records the new inclusive endpoint. */
  function Append(message: Message, text: string, last: nat): Message
    requires Parse(message).Some?
  {
    var params := message.params.value.fields;
    var update, meta := params["update"].fields, params["_meta"].fields;
    var block, product := BlockOf(update).value, meta[NAMESPACE].fields;
    message.(params := Some(Named(
      params["_meta" := Object(meta[NAMESPACE := Object(WithLast(product, last))])]
            ["update" := Object(WithText(update, block.text + text))])))
  }

  lemma WithTextBlock(update: Fields, text: string)
    requires BlockOf(update).Some?
    ensures BlockOf(WithText(update, text)) == Some(BlockOf(update).value.(text := text))
  {
  }

  lemma WithLastRange(product: Fields, last: nat)
    requires RangeOf(product).Some? && RangeOf(product).value.first <= last <= U64_MAX
    ensures RangeOf(WithLast(product, last)) == Some(RangeOf(product).value.(last := last))
  {
  }

  /** Appending changes what a chunk says by exactly the appended text and the new endpoint. */
  lemma AppendedChunk(message: Message, text: string, last: nat)
    requires Parse(message).Some? && Parse(message).value.first <= last <= U64_MAX
    ensures var chunk := Parse(message).value;
            Parse(Append(message, text, last)) == Some(chunk.(text := chunk.text + text, last := last))
  {
    var params := message.params.value.fields;
    var update, meta := params["update"].fields, params["_meta"].fields;
    WithTextBlock(update, BlockOf(update).value.text + text);
    WithLastRange(meta[NAMESPACE].fields, last);
  }

  lemma WithTextTwice(update: Fields, text: string, more: string)
    requires BlockOf(update).Some?
    ensures BlockOf(WithText(update, text)).Some? && WithText(WithText(update, text), more) == WithText(update, more)
  {
    WithTextBlock(update, text);
    var content := update["content"].fields;
    assert content["text" := Text(text)]["text" := Text(more)] == content["text" := Text(more)];
  }

  lemma WithLastTwice(product: Fields, last: nat, later: nat)
    requires RangeOf(product).Some? && RangeOf(product).value.first <= last <= U64_MAX
    ensures RangeOf(WithLast(product, last)).Some? && WithLast(WithLast(product, last), later) == WithLast(product, later)
  {
    WithLastRange(product, last);
    var group := product["sessionRecovery"].fields;
    assert group["lastSequence" := Natural(last)]["lastSequence" := Natural(later)] == group["lastSequence" := Natural(later)];
  }

  lemma MetaTwice(meta: Fields, a: Json, b: Json)
    ensures meta[NAMESPACE := a][NAMESPACE := b] == meta[NAMESPACE := b]
  {
  }

  lemma ParamsTwice(params: Fields, meta: Json, update: Json, more: Json, later: Json)
    ensures params["_meta" := meta]["update" := update]["_meta" := more]["update" := later]
            == params["_meta" := more]["update" := later]
  {
  }

  lemma AppendTwice(message: Message, text: string, last: nat, more: string, later: nat)
    requires Parse(message).Some? && Parse(message).value.first <= last <= later <= U64_MAX
    ensures Parse(Append(message, text, last)).Some?
    ensures Append(Append(message, text, last), more, later) == Append(message, text + more, later)
  {
    AppendedChunk(message, text, last);
    var params := message.params.value.fields;
    var update, meta := params["update"].fields, params["_meta"].fields;
    var product, was := meta[NAMESPACE].fields, BlockOf(update).value.text;
    WithTextBlock(update, was + text);
    assert (was + text) + more == was + (text + more);
    WithTextTwice(update, was + text, was + text + more);
    WithLastTwice(product, last, later);
    WithLastRange(product, last);
    var first, second := Object(WithLast(product, last)), Object(WithLast(product, later));
    MetaTwice(meta, first, second);
    ParamsTwice(params, Object(meta[NAMESPACE := first]), Object(WithText(update, was + text)),
                Object(meta[NAMESPACE := second]), Object(WithText(update, was + text + more)));
  }

  // ---------------------------------------------------------------- merging

  predicate Mergeable(target: Message, source: Message) {
    var t, s := Parse(target), Parse(source);
    t.Some? && s.Some? && t.value.key == s.value.key && t.value.last < s.value.first
  }

  function Merge(target: Message, source: Message): Message
    requires Mergeable(target, source)
  {
    Append(target, Parse(source).value.text, Parse(source).value.last)
  }

  lemma ParsedRange(message: Message)
    requires Parse(message).Some?
    ensures var chunk := Parse(message).value; 0 < chunk.first <= chunk.last <= U64_MAX
  {
  }

  lemma MergedChunk(target: Message, source: Message)
    requires Mergeable(target, source)
    ensures var t, s := Parse(target).value, Parse(source).value;
            Parse(Merge(target, source)) == Some(Chunk(t.key, t.first, s.last, t.text + s.text))
  {
    ParsedRange(target);
    ParsedRange(source);
    AppendedChunk(target, Parse(source).value.text, Parse(source).value.last);
  }

  lemma MergeAssociative(a: Message, b: Message, c: Message)
    requires Mergeable(a, b) && Mergeable(b, c)
    ensures Mergeable(Merge(a, b), c) && Mergeable(a, Merge(b, c))
    ensures Merge(Merge(a, b), c) == Merge(a, Merge(b, c))
  {
    MergedChunk(a, b);
    MergedChunk(b, c);
    ParsedRange(a);
    ParsedRange(b);
    ParsedRange(c);
    AppendTwice(a, Parse(b).value.text, Parse(b).value.last, Parse(c).value.text, Parse(c).value.last);
  }

  // ---------------------------------------------------------------- the fold

  function Push(output: seq<Message>, message: Message): seq<Message> {
    var n := |output|;
    if n > 0 && Mergeable(output[n - 1], message) then output[..n - 1] + [Merge(output[n - 1], message)]
    else output + [message]
  }

  function PushAll(output: seq<Message>, messages: seq<Message>): seq<Message> {
    if messages == [] then output
    else Push(PushAll(output, messages[..|messages| - 1]), messages[|messages| - 1])
  }

  function Coalesce(messages: seq<Message>): seq<Message> {
    PushAll([], messages)
  }

  /** `coalesce_updates`. */
  method CoalesceUpdates(messages: seq<Message>) returns (output: seq<Message>)
    ensures output == Coalesce(messages)
  {
    output := [];
    for i := 0 to |messages|
      invariant output == Coalesce(messages[..i])
    {
      assert messages[..i + 1][..i] == messages[..i];
      var n := |output|;
      if n > 0 && Mergeable(output[n - 1], messages[i]) {
        output := output[..n - 1] + [Merge(output[n - 1], messages[i])];
      } else {
        output := output + [messages[i]];
      }
    }
    assert messages[..|messages|] == messages;
  }

  lemma {:induction false} PushAllConcat(output: seq<Message>, a: seq<Message>, b: seq<Message>)
    ensures PushAll(output, a + b) == PushAll(PushAll(output, a), b)
  {
    if b == [] {
      assert a + b == a;
    } else {
      assert (a + b)[..|a + b| - 1] == a + b[..|b| - 1];
      PushAllConcat(output, a, b[..|b| - 1]);
    }
  }

  /** Pushing a merged message is pushing its two parts. */
  lemma PushMerged(output: seq<Message>, target: Message, source: Message)
    requires Mergeable(target, source)
    ensures Push(Push(output, target), source) == Push(output, Merge(target, source))
  {
    MergedChunk(target, source);
    var n := |output|;
    if n > 0 && Mergeable(output[n - 1], target) {
      MergeAssociative(output[n - 1], target, source);
    }
  }

  /** Coalescing first what is pushed later changes nothing. */
  lemma {:induction false} PushAllCoalesced(output: seq<Message>, messages: seq<Message>)
    ensures PushAll(output, Coalesce(messages)) == PushAll(output, messages)
  {
    if messages != [] {
      var front, last := messages[..|messages| - 1], messages[|messages| - 1];
      var c := Coalesce(front);
      var n := |c|;
      PushAllCoalesced(output, front);
      if n > 0 && Mergeable(c[n - 1], last) {
        assert c == c[..n - 1] + [c[n - 1]];
        PushMerged(PushAll(output, c[..n - 1]), c[n - 1], last);
        assert (c[..n - 1] + [Merge(c[n - 1], last)])[..n - 1] == c[..n - 1];
      } else {
        assert (c + [last])[..n] == c;
      }
    }
  }

  lemma Idempotent(messages: seq<Message>)
    ensures Coalesce(Coalesce(messages)) == Coalesce(messages)
  {
    PushAllCoalesced([], messages);
  }

  /** Where the stream is cut into separately coalesced pieces does not matter. */
  lemma SplitInsensitive(a: seq<Message>, b: seq<Message>)
    ensures Coalesce(Coalesce(a) + Coalesce(b)) == Coalesce(a + b)
    ensures Coalesce(a + Coalesce(b)) == Coalesce(Coalesce(a) + b) == Coalesce(a + b)
  {
    PushAllConcat([], a, b);
    PushAllConcat([], a, Coalesce(b));
    PushAllConcat([], Coalesce(a), b);
    PushAllConcat([], Coalesce(a), Coalesce(b));
    PushAllCoalesced([], a);
    PushAllCoalesced(Coalesce(a), b);
  }

  /** The result is the coarsest one: nothing adjacent is still mergeable. */
  lemma {:induction false} NothingLeftToMerge(messages: seq<Message>, i: nat)
    requires i + 1 < |Coalesce(messages)|
    ensures !Mergeable(Coalesce(messages)[i], Coalesce(messages)[i + 1])
  {
    var front, last := messages[..|messages| - 1], messages[|messages| - 1];
    var c := Coalesce(front);
    if i + 1 < |c| {
      NothingLeftToMerge(front, i);
      if Mergeable(c[|c| - 1], last) {
        MergedChunk(c[|c| - 1], last);
      }
    }
  }

  // ---------------------------------------------------------------- what merging leaves alone

  /** A chunk without its text and its inclusive endpoint. */
  function Envelope(message: Message): Fields
    requires Parse(message).Some?
  {
    var params := message.params.value.fields;
    var update, meta := params["update"].fields, params["_meta"].fields;
    var product := meta[NAMESPACE].fields;
    var group := product["sessionRecovery"].fields - {"lastSequence"};
    params["update" := Object(WithText(update, ""))]
          ["_meta" := Object(meta[NAMESPACE := Object(product["sessionRecovery" := Object(group)])])]
  }

  /** A merged notification is its target in everything but the text and the endpoint. */
  lemma MergeKeepsEnvelope(target: Message, source: Message)
    requires Mergeable(target, source)
    ensures Parse(Merge(target, source)).Some? && Envelope(Merge(target, source)) == Envelope(target)
  {
    MergedChunk(target, source);
    var chunk := Parse(source).value;
    var params := target.params.value.fields;
    var update, meta := params["update"].fields, params["_meta"].fields;
    var product := meta[NAMESPACE].fields;
    var group := product["sessionRecovery"].fields;
    WithTextTwice(update, BlockOf(update).value.text + chunk.text, "");
    assert group["lastSequence" := Natural(chunk.last)] - {"lastSequence"} == group - {"lastSequence"};
    var bare := Object(group - {"lastSequence"});
    assert WithLast(product, chunk.last)["sessionRecovery" := bare] == product["sessionRecovery" := bare];
    var nested := Object(product["sessionRecovery" := bare]);
    assert meta[NAMESPACE := Object(WithLast(product, chunk.last))][NAMESPACE := nested] == meta[NAMESPACE := nested];
  }

  // ---------------------------------------------------------------- what a reader of the stream sees

  function Fold<S>(step: (S, Message) -> S, state: S, messages: seq<Message>): S {
    if messages == [] then state
    else step(Fold(step, state, messages[..|messages| - 1]), messages[|messages| - 1])
  }

  /** A reader that handles a merged chunk like its parts, for the messages it expects. */
  ghost predicate RespectsMerging<S(!new)>(step: (S, Message) -> S, expected: Message -> bool) {
    && (forall t, s :: Mergeable(t, s) && expected(t) && expected(s) ==> expected(Merge(t, s)))
    && (forall state, t, s :: Mergeable(t, s) && expected(t) && expected(s) ==>
          step(step(state, t), s) == step(state, Merge(t, s)))
  }

  ghost predicate AllExpected(expected: Message -> bool, messages: seq<Message>) {
    forall i :: 0 <= i < |messages| ==> expected(messages[i])
  }

  lemma PushExpected<S(!new)>(step: (S, Message) -> S, expected: Message -> bool, state: S, output: seq<Message>, message: Message)
    requires RespectsMerging(step, expected) && AllExpected(expected, output) && expected(message)
    ensures AllExpected(expected, Push(output, message))
    ensures Fold(step, state, Push(output, message)) == step(Fold(step, state, output), message)
  {
    var n := |output|;
    if n > 0 && Mergeable(output[n - 1], message) {
      var merged := Merge(output[n - 1], message);
      assert expected(output[n - 1]);
      assert (output[..n - 1] + [merged])[..n - 1] == output[..n - 1];
      assert step(step(Fold(step, state, output[..n - 1]), output[n - 1]), message) == step(Fold(step, state, output[..n - 1]), merged);
    } else {
      assert (output + [message])[..n] == output;
    }
  }

  /** Such a reader ends in the same state on the coalesced stream. */
  lemma {:induction false} FoldCoalesced<S(!new)>(step: (S, Message) -> S, expected: Message -> bool, state: S, messages: seq<Message>)
    requires RespectsMerging(step, expected) && AllExpected(expected, messages)
    ensures AllExpected(expected, Coalesce(messages))
    ensures Fold(step, state, Coalesce(messages)) == Fold(step, state, messages)
  {
    if messages != [] {
      var front, last := messages[..|messages| - 1], messages[|messages| - 1];
      assert AllExpected(expected, front) && expected(last);
      FoldCoalesced(step, expected, state, front);
      PushExpected(step, expected, state, Coalesce(front), last);
    }
  }

  /** The visible stream a chunk belongs to. */
  datatype Place = Place(kind: Kind, sessionId: string, messageId: string)

  function PlaceOf(chunk: Chunk): Place {
    Place(chunk.key.kind, chunk.key.sessionId, chunk.key.messageId)
  }

  function AddText(place: Place, text: string, message: Message): string {
    if Parse(message).Some? && PlaceOf(Parse(message).value) == place then text + Parse(message).value.text else text
  }

  /** All text of one message, in stream order. */
  function TextOf(place: Place, messages: seq<Message>): string {
    Fold((text: string, message: Message) => AddText(place, text, message), "", messages)
  }

  function AddLast(sessionId: string, last: nat, message: Message): nat {
    if Parse(message).Some? && Parse(message).value.key.sessionId == sessionId then Parse(message).value.last else last
  }

  /** The last sequence one session's chunks reach. */
  function LastOf(sessionId: string, messages: seq<Message>): nat {
    Fold((last: nat, message: Message) => AddLast(sessionId, last, message), 0, messages)
  }

  lemma TextPreserved(place: Place, messages: seq<Message>)
    ensures TextOf(place, Coalesce(messages)) == TextOf(place, messages)
  {
    var step := (text: string, message: Message) => AddText(place, text, message);
    forall text, t, s | Mergeable(t, s)
      ensures step(step(text, t), s) == step(text, Merge(t, s))
    {
      MergedChunk(t, s);
    }
    FoldCoalesced(step, (m: Message) => true, "", messages);
  }

  lemma LastSequencePreserved(sessionId: string, messages: seq<Message>)
    ensures LastOf(sessionId, Coalesce(messages)) == LastOf(sessionId, messages)
  {
    var step := (last: nat, message: Message) => AddLast(sessionId, last, message);
    forall last, t, s | Mergeable(t, s)
      ensures step(step(last, t), s) == step(last, Merge(t, s))
    {
      MergedChunk(t, s);
    }
    FoldCoalesced(step, (m: Message) => true, 0, messages);
  }

  // ---------------------------------------------------------------- the raw fields

  const TAG := ["update", "sessionUpdate"]
  const MESSAGE_ID := ["update", "messageId"]
  const ANNOTATIONS := ["update", "content", "annotations"]
  const CONTENT_TYPE := ["update", "content", "type"]
  const CONTENT_TEXT := ["update", "content", "text"]
  const SESSION_ID := ["sessionId"]
  const TURN_ID := ["_meta", "clawcode", "turnId"]
  const SEQUENCE := ["_meta", "clawcode", "sequence"]
  const RUN_ID := ["_meta", "clawcode", "sessionRecovery", "runId"]
  const PROJECTION_INDEX := ["_meta", "clawcode", "sessionRecovery", "projectionIndex"]
  const PROJECTION_COUNT := ["_meta", "clawcode", "sessionRecovery", "projectionCount"]
  const PHASE := ["_meta", "clawcode", "sessionRecovery", "operationPhase"]
  const LAST_SEQUENCE := ["_meta", "clawcode", "sessionRecovery", "lastSequence"]

  predicate IsText(field: Option<Json>) {
    field.Some? && field.value.Text?
  }

  predicate IsU64(field: Option<Json>) {
    field.Some? && field.value.Natural? && field.value.n <= 0xFFFF_FFFF_FFFF_FFFF
  }

  /** The sequences a notification covers: an absent endpoint is the first one. */
  function FirstField(message: Message): Option<Json> {
    FieldAt(message, SEQUENCE)
  }

  function LastField(message: Message): Option<Json> {
    if FieldAt(message, LAST_SEQUENCE).Some? then FieldAt(message, LAST_SEQUENCE) else FieldAt(message, SEQUENCE)
  }

  /** A streaming chunk, by the fields of the notification alone. */
  predicate IsStreamChunk(message: Message) {
    && FieldAt(message, TAG) in {Some(Text("agent_message_chunk")), Some(Text("agent_thought_chunk"))}
    && FieldAt(message, CONTENT_TYPE) == Some(Text("text")) && IsText(FieldAt(message, CONTENT_TEXT))
    && IsText(FieldAt(message, SESSION_ID)) && IsText(FieldAt(message, MESSAGE_ID))
    && IsText(FieldAt(message, TURN_ID)) && IsText(FieldAt(message, RUN_ID))
    && FieldAt(message, PROJECTION_INDEX) == Some(Natural(0)) && FieldAt(message, PROJECTION_COUNT) == Some(Natural(1))
    && FieldAt(message, PHASE).None?
    && IsU64(FirstField(message)) && IsU64(LastField(message))
    && 0 < FirstField(message).value.n <= LastField(message).value.n
  }

  lemma UpdateFields(message: Message)
    ensures var update := Enter(FieldAt(message, []), "update");
            var content := Enter(update, "content");
            && FieldAt(message, TAG) == Enter(update, "sessionUpdate")
            && FieldAt(message, MESSAGE_ID) == Enter(update, "messageId")
            && FieldAt(message, ANNOTATIONS) == Enter(content, "annotations")
            && FieldAt(message, CONTENT_TYPE) == Enter(content, "type")
            && FieldAt(message, CONTENT_TEXT) == Enter(content, "text")
            && FieldAt(message, SESSION_ID) == Enter(FieldAt(message, []), "sessionId")
  {
    FieldLast(message, [], "update");
    FieldLast(message, [], "sessionId");
    assert [] + ["update"] == ["update"] && [] + ["sessionId"] == SESSION_ID;
    FieldLast(message, ["update"], "sessionUpdate");
    FieldLast(message, ["update"], "messageId");
    FieldLast(message, ["update"], "content");
    assert ["update"] + ["sessionUpdate"] == TAG && ["update"] + ["messageId"] == MESSAGE_ID;
    var content := ["update"] + ["content"];
    FieldLast(message, content, "annotations");
    FieldLast(message, content, "type");
    FieldLast(message, content, "text");
    assert content + ["annotations"] == ANNOTATIONS && content + ["type"] == CONTENT_TYPE && content + ["text"] == CONTENT_TEXT;
  }

  lemma ProductFields(message: Message)
    ensures var product := Enter(Enter(FieldAt(message, []), "_meta"), "clawcode");
            var group := Enter(product, "sessionRecovery");
            && FieldAt(message, TURN_ID) == Enter(product, "turnId")
            && FieldAt(message, SEQUENCE) == Enter(product, "sequence")
            && FieldAt(message, RUN_ID) == Enter(group, "runId")
            && FieldAt(message, PROJECTION_INDEX) == Enter(group, "projectionIndex")
            && FieldAt(message, PROJECTION_COUNT) == Enter(group, "projectionCount")
            && FieldAt(message, PHASE) == Enter(group, "operationPhase")
            && FieldAt(message, LAST_SEQUENCE) == Enter(group, "lastSequence")
  {
    FieldLast(message, [], "_meta");
    assert [] + ["_meta"] == ["_meta"];
    FieldLast(message, ["_meta"], "clawcode");
    var product := ["_meta"] + ["clawcode"];
    FieldLast(message, product, "turnId");
    FieldLast(message, product, "sequence");
    FieldLast(message, product, "sessionRecovery");
    assert product + ["turnId"] == TURN_ID && product + ["sequence"] == SEQUENCE;
    var group := product + ["sessionRecovery"];
    GroupFields(message, group);
    assert group + ["runId"] == RUN_ID && group + ["projectionIndex"] == PROJECTION_INDEX;
    assert group + ["projectionCount"] == PROJECTION_COUNT && group + ["operationPhase"] == PHASE;
    assert group + ["lastSequence"] == LAST_SEQUENCE;
  }

  lemma GroupFields(message: Message, group: seq<string>)
    ensures FieldAt(message, group + ["runId"]) == Enter(FieldAt(message, group), "runId")
    ensures FieldAt(message, group + ["projectionIndex"]) == Enter(FieldAt(message, group), "projectionIndex")
    ensures FieldAt(message, group + ["projectionCount"]) == Enter(FieldAt(message, group), "projectionCount")
    ensures FieldAt(message, group + ["operationPhase"]) == Enter(FieldAt(message, group), "operationPhase")
    ensures FieldAt(message, group + ["lastSequence"]) == Enter(FieldAt(message, group), "lastSequence")
  {
    FieldLast(message, group, "runId");
    FieldLast(message, group, "projectionIndex");
    FieldLast(message, group, "projectionCount");
    FieldLast(message, group, "operationPhase");
    FieldLast(message, group, "lastSequence");
  }

  function TagOf(kind: Kind): string {
    match kind
    case MessageChunk => "agent_message_chunk"
    case ThoughtChunk => "agent_thought_chunk"
  }

  lemma BlockFields(update: Fields)
    ensures var content := Enter(Some(Object(update)), "content");
            var tag, id := At(update, "sessionUpdate"), At(update, "messageId");
            && (BlockOf(update).Some? <==>
                  && tag in {Some(Text("agent_message_chunk")), Some(Text("agent_thought_chunk"))} && IsText(id)
                  && Enter(content, "type") == Some(Text("text")) && IsText(Enter(content, "text")))
            && (BlockOf(update).Some? ==>
                  var block := BlockOf(update).value;
                  && tag == Some(Text(TagOf(block.kind))) && id == Some(Text(block.messageId))
                  && Enter(content, "annotations") == block.annotations && Enter(content, "text") == Some(Text(block.text)))
  {
  }

  lemma RangeFields(product: Fields)
    ensures var group := Enter(Some(Object(product)), "sessionRecovery");
            var turn, first := At(product, "turnId"), At(product, "sequence");
            var last := if Enter(group, "lastSequence").Some? then Enter(group, "lastSequence") else first;
            && (RangeOf(product).Some? <==>
                  && IsText(turn) && IsText(Enter(group, "runId"))
                  && Enter(group, "projectionIndex") == Some(Natural(0)) && Enter(group, "projectionCount") == Some(Natural(1))
                  && Enter(group, "operationPhase").None?
                  && IsU64(first) && IsU64(last) && 0 < first.value.n <= last.value.n)
            && (RangeOf(product).Some? ==>
                  var range := RangeOf(product).value;
                  && turn == Some(Text(range.turnId)) && Enter(group, "runId") == Some(Text(range.runId))
                  && first == Some(Natural(range.first)) && last == Some(Natural(range.last)))
  {
  }

  lemma ParseParts(message: Message)
    requires UpdateParams(message).Some?
    ensures var params := UpdateParams(message).value;
            && (Parse(message).Some? <==>
                  && TextAt(params, "sessionId").Some?
                  && ObjectAt(params, "update").Some? && BlockOf(ObjectAt(params, "update").value).Some?
                  && ProductOf(params).Some? && RangeOf(ProductOf(params).value).Some?)
            && (Parse(message).Some? ==>
                  var block, range := BlockOf(ObjectAt(params, "update").value).value, RangeOf(ProductOf(params).value).value;
                  Parse(message) == Some(Chunk(Key(block.kind, TextAt(params, "sessionId").value, block.messageId, block.annotations,
                                                   range.runId, range.turnId), range.first, range.last, block.text)))
  {
  }

  lemma EnterProduct(params: Fields)
    ensures var product := Enter(Enter(Some(Object(params)), "_meta"), "clawcode");
            ProductOf(params) == if product.Some? && product.value.Object? then Some(product.value.fields) else None
  {
  }

  /** What a parsed chunk's fields are. */
  ghost predicate FieldsSay(message: Message, chunk: Chunk) {
    && FieldAt(message, TAG) == Some(Text(TagOf(chunk.key.kind)))
    && FieldAt(message, SESSION_ID) == Some(Text(chunk.key.sessionId))
    && FieldAt(message, MESSAGE_ID) == Some(Text(chunk.key.messageId))
    && FieldAt(message, ANNOTATIONS) == chunk.key.annotations
    && FieldAt(message, RUN_ID) == Some(Text(chunk.key.runId))
    && FieldAt(message, TURN_ID) == Some(Text(chunk.key.turnId))
    && FieldAt(message, CONTENT_TEXT) == Some(Text(chunk.text))
    && FirstField(message) == Some(Natural(chunk.first)) && LastField(message) == Some(Natural(chunk.last))
  }

  /** The fields of the update, and of the product metadata, as they are parsed. */
  lemma UpdateSays(message: Message, update: Fields)
    requires FieldAt(message, []).Some? && Enter(FieldAt(message, []), "update") == Some(Object(update))
    ensures BlockOf(update).Some? <==>
              && FieldAt(message, TAG) in {Some(Text("agent_message_chunk")), Some(Text("agent_thought_chunk"))}
              && FieldAt(message, CONTENT_TYPE) == Some(Text("text")) && IsText(FieldAt(message, CONTENT_TEXT))
              && IsText(FieldAt(message, MESSAGE_ID))
    ensures BlockOf(update).Some? ==>
              var block := BlockOf(update).value;
              && FieldAt(message, TAG) == Some(Text(TagOf(block.kind))) && FieldAt(message, MESSAGE_ID) == Some(Text(block.messageId))
              && FieldAt(message, ANNOTATIONS) == block.annotations && FieldAt(message, CONTENT_TEXT) == Some(Text(block.text))
  {
    UpdateFields(message);
    BlockFields(update);
  }

  lemma ProductSays(message: Message, product: Fields)
    requires Enter(Enter(FieldAt(message, []), "_meta"), "clawcode") == Some(Object(product))
    ensures RangeOf(product).Some? <==>
              && IsText(FieldAt(message, TURN_ID)) && IsText(FieldAt(message, RUN_ID))
              && FieldAt(message, PROJECTION_INDEX) == Some(Natural(0)) && FieldAt(message, PROJECTION_COUNT) == Some(Natural(1))
              && FieldAt(message, PHASE).None?
              && IsU64(FirstField(message)) && IsU64(LastField(message))
              && 0 < FirstField(message).value.n <= LastField(message).value.n
    ensures RangeOf(product).Some? ==>
              var range := RangeOf(product).value;
              && FieldAt(message, TURN_ID) == Some(Text(range.turnId)) && FieldAt(message, RUN_ID) == Some(Text(range.runId))
              && FirstField(message) == Some(Natural(range.first)) && LastField(message) == Some(Natural(range.last))
  {
    ProductFields(message);
    RangeFields(product);
  }

  lemma MissingUpdate(message: Message)
    requires Enter(FieldAt(message, []), "update").None? || !Enter(FieldAt(message, []), "update").value.Object?
    ensures FieldAt(message, TAG).None?
  {
    UpdateFields(message);
  }

  lemma MissingProduct(message: Message)
    requires var product := Enter(Enter(FieldAt(message, []), "_meta"), "clawcode"); product.None? || !product.value.Object?
    ensures FieldAt(message, TURN_ID).None?
  {
    ProductFields(message);
  }

  /** A notification is read as a chunk exactly when its fields make it one, and then it is read as they say. */
  lemma ParsesExactly(message: Message)
    ensures Parse(message).Some? <==> IsStreamChunk(message)
    ensures Parse(message).Some? ==> FieldsSay(message, Parse(message).value)
  {
    if UpdateParams(message).Some? {
      var params := UpdateParams(message).value;
      assert FieldAt(message, []) == Some(Object(params));
      ParseParts(message);
      EnterProduct(params);
      UpdateFields(message);
      if ObjectAt(params, "update").None? {
        MissingUpdate(message);
      } else if ProductOf(params).None? {
        MissingProduct(message);
      } else {
        UpdateSays(message, ObjectAt(params, "update").value);
        ProductSays(message, ProductOf(params).value);
      }
    }
  }

  /** Two notifications merge exactly when both are streaming chunks with the same kind of update, Session,
      message, annotations, run and turn, and the second starts after the first ends. */
  lemma MergeableExactly(target: Message, source: Message)
    ensures Mergeable(target, source) <==>
            && IsStreamChunk(target) && IsStreamChunk(source)
            && FieldAt(target, ["update", "sessionUpdate"]) == FieldAt(source, ["update", "sessionUpdate"])
            && FieldAt(target, ["sessionId"]) == FieldAt(source, ["sessionId"])
            && FieldAt(target, ["update", "messageId"]) == FieldAt(source, ["update", "messageId"])
            && FieldAt(target, ["update", "content", "annotations"]) == FieldAt(source, ["update", "content", "annotations"])
            && FieldAt(target, ["_meta", "clawcode", "sessionRecovery", "runId"])
               == FieldAt(source, ["_meta", "clawcode", "sessionRecovery", "runId"])
            && FieldAt(target, ["_meta", "clawcode", "turnId"]) == FieldAt(source, ["_meta", "clawcode", "turnId"])
            && LastField(target).value.n < FirstField(source).value.n
  {
    ParsesExactly(target);
    ParsesExactly(source);
  }

  /** The text a notification adds to a message, by its fields alone. */
  function AddField(tag: string, sessionId: string, messageId: string, text: string, message: Message): string {
    if FieldAt(message, ["update", "sessionUpdate"]) == Some(Text(tag))
       && FieldAt(message, ["sessionId"]) == Some(Text(sessionId))
       && FieldAt(message, ["update", "messageId"]) == Some(Text(messageId))
       && IsText(FieldAt(message, ["update", "content", "text"]))
    then text + FieldAt(message, ["update", "content", "text"]).value.text else text
  }

  /** All text a reader of the fields gathers for one kind of update, Session and message. */
  function FieldText(tag: string, sessionId: string, messageId: string, messages: seq<Message>): string {
    Fold((text: string, message: Message) => AddField(tag, sessionId, messageId, text, message), "", messages)
  }

  lemma AddedChunk(tag: string, sessionId: string, messageId: string, text: string, message: Message)
    requires Parse(message).Some?
    ensures var chunk := Parse(message).value;
            AddField(tag, sessionId, messageId, text, message)
            == if TagOf(chunk.key.kind) == tag && chunk.key.sessionId == sessionId && chunk.key.messageId == messageId
               then text + chunk.text else text
  {
    ParsesExactly(message);
  }

  lemma MergedFields(tag: string, sessionId: string, messageId: string, text: string, target: Message, source: Message)
    requires Mergeable(target, source)
    ensures AddField(tag, sessionId, messageId, AddField(tag, sessionId, messageId, text, target), source)
            == AddField(tag, sessionId, messageId, text, Merge(target, source))
  {
    MergedChunk(target, source);
    var t, s := Parse(target).value, Parse(source).value;
    var once := AddField(tag, sessionId, messageId, text, target);
    AddedChunk(tag, sessionId, messageId, text, target);
    AddedChunk(tag, sessionId, messageId, once, source);
    AddedChunk(tag, sessionId, messageId, text, Merge(target, source));
    JoinTexts(text, t.text, s.text);
  }

  lemma JoinTexts(a: string, b: string, c: string)
    ensures (a + b) + c == a + (b + c)
  {
  }

  /** Coalescing keeps every message's text as the raw fields show it: thoughts stay thoughts, answers stay
      answers, and no message takes over another's. */
  lemma FieldTextPreserved(tag: string, sessionId: string, messageId: string, messages: seq<Message>)
    ensures FieldText(tag, sessionId, messageId, Coalesce(messages)) == FieldText(tag, sessionId, messageId, messages)
  {
    var step := (text: string, message: Message) => AddField(tag, sessionId, messageId, text, message);
    forall text, t, s | Mergeable(t, s)
      ensures step(step(text, t), s) == step(text, Merge(t, s))
    {
      MergedFields(tag, sessionId, messageId, text, t, s);
    }
    FoldCoalesced(step, (m: Message) => true, "", messages);
  }

  // ---------------------------------------------------------------- the recovering client

  const MAX_SAFE_INTEGER: nat := 9007199254740991

  datatype Cursor = Cursor(runId: string, next: nat)

  /** The client's recovery buffer and transcript. `pending` are the sessions with an incomplete group of
      several notifications, `fullOnly` those waiting for a full replay. */
  datatype Client = Client(cursors: map<string, Cursor>, fullOnly: set<string>, pending: set<string>, shown: map<Place, string>)

  /** A rejected notification makes the client resynchronize. */
  datatype Outcome = Connected(client: Client) | Rejected

  function Shown(client: Client, place: Place): string {
    if place in client.shown then client.shown[place] else ""
  }

  /** `SessionRecoveryBuffer.accept` and `commit` for a complete single-notification group. */
  function AcceptChunk(client: Client, chunk: Chunk): Outcome {
    var id := chunk.key.sessionId;
    if MAX_SAFE_INTEGER < chunk.last then Rejected
    else if id in client.fullOnly then Connected(client)
    else if id in client.cursors
            && (client.cursors[id].runId != chunk.key.runId || chunk.first < client.cursors[id].next) then Rejected
    else if id in client.pending then Rejected
    else if id !in client.cursors then Connected(client.(fullOnly := client.fullOnly + {id}))
    else
      Connected(client.(cursors := client.cursors[id := Cursor(chunk.key.runId, chunk.last + 1)],
                        shown := client.shown[PlaceOf(chunk) := Shown(client, PlaceOf(chunk)) + chunk.text]))
  }

  predicate Numeric(text: string) {
    text != "" && forall i :: 0 <= i < |text| ==> '0' <= text[i] <= '9'
  }

  /** The client refuses a recoverable chunk without a decimal timestamp. */
  predicate Stamped(message: Message) {
    Parse(message).Some? ==>
      var stamp := TextAt(ProductOf(UpdateParams(message).value).value, "timestampMs");
      stamp.Some? && Numeric(stamp.value)
  }

  /** One notification; `other` is whatever the client does with those that are not stream chunks. */
  function Accept(other: (Client, Message) -> Outcome, outcome: Outcome, message: Message): Outcome {
    if outcome.Rejected? then Rejected
    else if Parse(message).None? then other(outcome.client, message)
    else if !Stamped(message) then Rejected
    else AcceptChunk(outcome.client, Parse(message).value)
  }

  function AcceptNext(outcome: Outcome, chunk: Chunk): Outcome {
    if outcome.Rejected? then Rejected else AcceptChunk(outcome.client, chunk)
  }

  lemma AcceptJoined(client: Client, t: Chunk, s: Chunk)
    requires t.key == s.key && t.first <= t.last < s.first <= s.last
    ensures AcceptNext(AcceptChunk(client, t), s) == AcceptChunk(client, Chunk(t.key, t.first, s.last, t.text + s.text))
  {
    var id, place := t.key.sessionId, PlaceOf(t);
    var before := Shown(client, place);
    assert (before + t.text) + s.text == before + (t.text + s.text);
    var c, d := Cursor(t.key.runId, t.last + 1), Cursor(t.key.runId, s.last + 1);
    assert client.cursors[id := c][id := d] == client.cursors[id := d];
    var x, y := before + t.text, before + t.text + s.text;
    assert client.shown[place := x][place := y] == client.shown[place := y];
  }

  lemma MergeKeepsStamp(target: Message, source: Message)
    requires Mergeable(target, source)
    ensures Stamped(Merge(target, source)) == Stamped(target)
  {
    MergedChunk(target, source);
    var product := ProductOf(UpdateParams(target).value).value;
    assert ProductOf(UpdateParams(Merge(target, source)).value) == Some(WithLast(product, Parse(source).value.last));
  }

  lemma AcceptMerged(other: (Client, Message) -> Outcome, outcome: Outcome, target: Message, source: Message)
    requires Mergeable(target, source) && (Stamped(target) ==> Stamped(source))
    ensures Accept(other, Accept(other, outcome, target), source) == Accept(other, outcome, Merge(target, source))
  {
    MergedChunk(target, source);
    MergeKeepsStamp(target, source);
    ParsedRange(target);
    ParsedRange(source);
    if outcome.Connected? && Stamped(target) {
      AcceptJoined(outcome.client, Parse(target).value, Parse(source).value);
    }
  }

  const RESTARTED := Client(map[], {}, {}, map[])

  /** Merging two chunks is invisible to every client exactly when it hides no missing timestamp, or
      the client cannot represent the endpoint anyway. */
  lemma MergeIsInvisibleExactly(other: (Client, Message) -> Outcome, target: Message, source: Message)
    requires Mergeable(target, source)
    ensures (forall outcome :: Accept(other, Accept(other, outcome, target), source) == Accept(other, outcome, Merge(target, source)))
            <==> (Stamped(target) ==> Stamped(source) || MAX_SAFE_INTEGER < Parse(source).value.last)
  {
    if Stamped(target) ==> Stamped(source) {
      forall outcome
        ensures Accept(other, Accept(other, outcome, target), source) == Accept(other, outcome, Merge(target, source))
      {
        AcceptMerged(other, outcome, target, source);
      }
    } else {
      HiddenStamp(other, target, source);
    }
  }

  lemma HiddenStamp(other: (Client, Message) -> Outcome, target: Message, source: Message)
    requires Mergeable(target, source) && Stamped(target) && !Stamped(source)
    ensures forall outcome :: Accept(other, Accept(other, outcome, target), source) == Rejected
    ensures if MAX_SAFE_INTEGER < Parse(source).value.last
            then forall outcome :: Accept(other, outcome, Merge(target, source)) == Rejected
            else Accept(other, Connected(RESTARTED), Merge(target, source)).Connected?
  {
    MergedChunk(target, source);
    MergeKeepsStamp(target, source);
  }

  /** A client cannot tell a coalesced stream whose chunks have timestamps from the original one: from
      every state it ends with the same cursors, the same sessions waiting for a replay and the same
      transcript, or rejects both. */
  lemma ClientCannotTell(other: (Client, Message) -> Outcome, outcome: Outcome, messages: seq<Message>)
    requires AllExpected((m: Message) => Stamped(m), messages)
    ensures var step := (o: Outcome, m: Message) => Accept(other, o, m);
            Fold(step, outcome, Coalesce(messages)) == Fold(step, outcome, messages)
  {
    var step := (o: Outcome, m: Message) => Accept(other, o, m);
    var expected := (m: Message) => Stamped(m);
    forall t, s | Mergeable(t, s) && expected(t) && expected(s)
      ensures expected(Merge(t, s))
    {
      MergeKeepsStamp(t, s);
    }
    forall o, t, s | Mergeable(t, s) && expected(t) && expected(s)
      ensures step(step(o, t), s) == step(o, Merge(t, s))
    {
      AcceptMerged(other, o, t, s);
    }
    FoldCoalesced(step, expected, outcome, messages);
  }
}
