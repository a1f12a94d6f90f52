/** The outbound relay of crates/acp/src/batching.rs: runs of queued updates of one session are
    coalesced and packed into a carrier, which the client expands (web/src/acp/protocol.ts). */
module Batching {
  import opened Wrappers
  import opened Messages
  import opened Coalescing

  const BATCH_KEY := "sessionUpdateBatch"
  const BATCH_VERSION: nat := 1

  function SessionOf(message: Message): Option<string> {
    var params :- UpdateParams(message);
    TextAt(params, "sessionId")
  }

  // ---------------------------------------------------------------- product metadata

  /** The nested object under a key, where an omitted and a null value mean an empty one. */
  function ObjectOrNew(fields: Fields, key: string): Option<Fields> {
    if key !in fields || fields[key] == Null then Some(map[]) else ObjectAt(fields, key)
  }

  /** `product_meta`: the product object of an update, unless a non-object value is in the way. */
  function ProductMeta(message: Message): Option<Fields> {
    var params :- UpdateParams(message);
    var meta :- ObjectOrNew(params, "_meta");
    ObjectOrNew(meta, NAMESPACE)
  }

  function WithProduct(message: Message, product: Fields): Message
    requires ProductMeta(message).Some?
  {
    var params := message.params.value.fields;
    var meta := ObjectOrNew(params, "_meta").value;
    message.(params := Some(Named(params["_meta" := Object(meta[NAMESPACE := Object(product)])])))
  }

  /** A session update with its absent or null product metadata written as an empty object. */
  function Normal(message: Message): Message {
    if SessionOf(message).Some? && ProductMeta(message).Some?
    then WithProduct(message, ProductMeta(message).value) else message
  }

  function NormalAll(messages: seq<Message>): (r: seq<Message>)
    ensures |r| == |messages| && forall i :: 0 <= i < |r| ==> r[i] == Normal(messages[i])
  {
    seq(|messages|, i requires 0 <= i < |messages| => Normal(messages[i]))
  }

  // ---------------------------------------------------------------- packing and expanding

  function NestedOf(message: Message): Json {
    if UpdateParams(message).Some? then Object(UpdateParams(message).value) else Null
  }

  function Nested(messages: seq<Message>): (r: seq<Json>)
    ensures |r| == |messages| && forall i :: 0 <= i < |r| ==> r[i] == NestedOf(messages[i])
  {
    seq(|messages|, i requires 0 <= i < |messages| => NestedOf(messages[i]))
  }

  function Carrier(outer: Message, nested: seq<Message>): Message
    requires ProductMeta(outer).Some?
  {
    WithProduct(outer, ProductMeta(outer).value[BATCH_KEY := Array(Nested(nested))])
  }

  /** `frames`: one coalesced run as a carrier or as single frames. */
  function Packed(run: seq<Message>, accepts: bool): seq<Message> {
    var messages := Coalesce(run);
    if |messages| < 2 || !accepts || ProductMeta(messages[0]).None? then messages
    else [Carrier(messages[0], messages[1..])]
  }

  /** The product object a client reads. */
  function ClientProduct(params: Fields): Option<Fields> {
    var meta :- ObjectAt(params, "_meta");
    ObjectAt(meta, NAMESPACE)
  }

  predicate HasBatch(params: Fields) {
    ClientProduct(params).Some? && BATCH_KEY in ClientProduct(params).value
  }

  predicate CarriesBatch(message: Message) {
    UpdateParams(message).Some? && HasBatch(UpdateParams(message).value)
  }

  /** A frame the client reads as it is. */
  predicate Clean(message: Message) {
    SessionOf(message).None? || !CarriesBatch(message)
  }

  ghost predicate NoCarriers(messages: seq<Message>) {
    forall i :: 0 <= i < |messages| ==> Clean(messages[i])
  }

  predicate ValidItem(item: Json, sessionId: string) {
    item.Object? && "sessionId" in item.fields && item.fields["sessionId"] == Text(sessionId) && !HasBatch(item.fields)
  }

  function Updates(items: seq<Json>): (r: seq<Message>)
    requires forall i :: 0 <= i < |items| ==> items[i].Object?
    ensures |r| == |items| && forall i :: 0 <= i < |r| ==> r[i] == Notification("session/update", Some(Named(items[i].fields)))
  {
    seq(|items|, i requires 0 <= i < |items| => Notification("session/update", Some(Named(items[i].fields))))
  }

  /** The client's expansion of one frame; `None` where it throws and resynchronizes. */
  function Expand(message: Message): Option<seq<Message>> {
    if Clean(message) then Some([message])
    else
      var product := ClientProduct(UpdateParams(message).value).value;
      var items := product[BATCH_KEY];
      if !items.Array? || items.items == []
         || exists i :: 0 <= i < |items.items| && !ValidItem(items.items[i], SessionOf(message).value) then None
      else Some([WithProduct(message, product - {BATCH_KEY})] + Updates(items.items))
  }

  function Join<T>(a: Option<seq<T>>, b: Option<seq<T>>): Option<seq<T>> {
    if a.Some? && b.Some? then Some(a.value + b.value) else None
  }

  /** All parts in order; nothing if one of them failed. */
  function JoinAll<T>(parts: seq<Option<seq<T>>>): Option<seq<T>> {
    if parts == [] then Some([]) else Join(JoinAll(parts[..|parts| - 1]), parts[|parts| - 1])
  }

  function Expanded(frames: seq<Message>): (r: seq<Option<seq<Message>>>)
    ensures |r| == |frames| && forall i :: 0 <= i < |r| ==> r[i] == Expand(frames[i])
  {
    seq(|frames|, i requires 0 <= i < |frames| => Expand(frames[i]))
  }

  function ExpandAll(frames: seq<Message>): Option<seq<Message>> {
    JoinAll(Expanded(frames))
  }

  lemma JoinAssociative<T>(a: Option<seq<T>>, b: Option<seq<T>>, c: Option<seq<T>>)
    ensures Join(Join(a, b), c) == Join(a, Join(b, c))
  {
    if a.Some? && b.Some? && c.Some? {
      assert (a.value + b.value) + c.value == a.value + (b.value + c.value);
    }
  }

  lemma {:induction false} JoinAllConcat<T>(a: seq<Option<seq<T>>>, b: seq<Option<seq<T>>>)
    ensures JoinAll(a + b) == Join(JoinAll(a), JoinAll(b))
  {
    if b == [] {
      assert a + b == a;
      if JoinAll(a).Some? {
        assert JoinAll(a).value + [] == JoinAll(a).value;
      }
    } else {
      var front, last := b[..|b| - 1], b[|b| - 1];
      assert (a + b)[..|a + b| - 1] == a + front;
      JoinAllConcat(a, front);
      JoinAssociative(JoinAll(a), JoinAll(front), last);
    }
  }

  lemma {:induction false} JoinAllSingles<T>(parts: seq<Option<seq<T>>>, items: seq<T>)
    requires |parts| == |items| && forall i :: 0 <= i < |parts| ==> parts[i] == Some([items[i]])
    ensures JoinAll(parts) == Some(items)
  {
    if parts != [] {
      JoinAllSingles(parts[..|parts| - 1], items[..|items| - 1]);
      assert items == items[..|items| - 1] + [items[|items| - 1]];
    }
  }

  // ---------------------------------------------------------------- one run

  /** A run of updates of one session. */
  ghost predicate OneSession(run: seq<Message>, sessionId: string) {
    forall i :: 0 <= i < |run| ==> SessionOf(run[i]) == Some(sessionId)
  }

  lemma MergeKeepsRoute(target: Message, source: Message)
    requires Mergeable(target, source)
    ensures SessionOf(Merge(target, source)) == SessionOf(target)
    ensures CarriesBatch(Merge(target, source)) == CarriesBatch(target)
  {
    var params := target.params.value.fields;
    var merged := Merge(target, source).params.value.fields;
    assert TextAt(merged, "sessionId") == TextAt(params, "sessionId");
    var product := params["_meta"].fields[NAMESPACE].fields;
    assert ClientProduct(merged) == Some(WithLast(product, Parse(source).value.last));
  }

  lemma PushKeepsRoute(output: seq<Message>, message: Message, i: nat)
    requires i < |Push(output, message)|
    ensures Push(output, message)[i] == message || i < |output|
    ensures Push(output, message)[i] != message ==>
              SessionOf(Push(output, message)[i]) == SessionOf(output[i])
              && CarriesBatch(Push(output, message)[i]) == CarriesBatch(output[i])
  {
    var n := |output|;
    if n > 0 && i == n - 1 && Mergeable(output[n - 1], message) {
      MergeKeepsRoute(output[n - 1], message);
    }
  }

  lemma {:induction false} CoalesceKeepsSession(run: seq<Message>, sessionId: string)
    requires OneSession(run, sessionId)
    ensures OneSession(Coalesce(run), sessionId)
  {
    if run != [] {
      var front, last := run[..|run| - 1], run[|run| - 1];
      CoalesceKeepsSession(front, sessionId);
      forall i | 0 <= i < |Coalesce(run)|
        ensures SessionOf(Coalesce(run)[i]) == Some(sessionId)
      {
        PushKeepsRoute(Coalesce(front), last, i);
      }
    }
  }

  lemma {:induction false} CoalesceKeepsClean(messages: seq<Message>)
    requires NoCarriers(messages)
    ensures NoCarriers(Coalesce(messages))
  {
    if messages != [] {
      var front, last := messages[..|messages| - 1], messages[|messages| - 1];
      CoalesceKeepsClean(front);
      forall i | 0 <= i < |Coalesce(messages)|
        ensures Clean(Coalesce(messages)[i])
      {
        PushKeepsRoute(Coalesce(front), last, i);
        assert i < |Coalesce(front)| ==> Clean(Coalesce(front)[i]);
      }
    }
  }

  lemma NormalTwice(message: Message)
    ensures Normal(Normal(message)) == Normal(message)
  {
    if SessionOf(message).Some? && ProductMeta(message).Some? {
      var params := message.params.value.fields;
      var meta, product := ObjectOrNew(params, "_meta").value, ProductMeta(message).value;
      var normal := Normal(message);
      var fields := normal.params.value.fields;
      assert meta[NAMESPACE := Object(product)][NAMESPACE := Object(product)] == meta[NAMESPACE := Object(product)];
      assert fields["_meta" := Object(meta[NAMESPACE := Object(product)])] == fields;
      assert SessionOf(normal) == SessionOf(message);
      assert ProductMeta(normal) == Some(product);
    }
  }

  /** Normalising never changes what coalescing reads. */
  lemma NormalParses(message: Message)
    ensures Parse(Normal(message)) == Parse(message)
    ensures Parse(message).Some? ==> Normal(message) == message
  {
    if SessionOf(message).Some? && ProductMeta(message).Some? {
      var params := message.params.value.fields;
      var normal := Normal(message).params.value.fields;
      if ProductOf(params).Some? {
        var meta := params["_meta"].fields;
        assert meta[NAMESPACE := meta[NAMESPACE]] == meta;
        assert params["_meta" := params["_meta"]] == params;
        assert normal == params;
      } else {
        assert ProductOf(normal) == Some(map[]);
        assert RangeOf(map[]).None?;
      }
    }
  }

  /** Normalising commutes with merging: what merges is normal already. */
  lemma NormalMerges(target: Message, source: Message)
    ensures Mergeable(Normal(target), Normal(source)) == Mergeable(target, source)
    ensures Mergeable(target, source) ==>
              Normal(target) == target && Normal(source) == source && Normal(Merge(target, source)) == Merge(target, source)
  {
    NormalParses(target);
    NormalParses(source);
    if Mergeable(target, source) {
      MergedChunk(target, source);
      NormalParses(Merge(target, source));
    }
  }

  lemma NormalConcat(a: seq<Message>, b: seq<Message>)
    ensures NormalAll(a + b) == NormalAll(a) + NormalAll(b)
  {
  }

  lemma NormalLast(front: seq<Message>, last: Message)
    ensures NormalAll(front + [last]) == NormalAll(front) + [Normal(last)]
  {
  }

  lemma PushNormal(output: seq<Message>, message: Message)
    ensures Push(NormalAll(output), Normal(message)) == NormalAll(Push(output, message))
  {
    var n := |output|;
    if n == 0 {
      NormalLast(output, message);
    } else {
      var front, last := output[..n - 1], output[n - 1];
      assert output == front + [last];
      NormalLast(front, last);
      PushNormalLast(NormalAll(front), front, last, message);
    }
  }

  lemma PushNormalLast(normal: seq<Message>, front: seq<Message>, last: Message, message: Message)
    requires normal == NormalAll(front)
    ensures Push(normal + [Normal(last)], Normal(message)) == NormalAll(Push(front + [last], message))
  {
    NormalMerges(last, message);
    assert (front + [last])[..|front|] == front && (normal + [Normal(last)])[..|normal|] == normal;
    if Mergeable(last, message) {
      NormalLast(front, Merge(last, message));
    } else {
      NormalLast(front, last);
      NormalLast(front + [last], message);
    }
  }

  lemma {:induction false} NormalCommutes(messages: seq<Message>)
    ensures Coalesce(NormalAll(messages)) == NormalAll(Coalesce(messages))
  {
    if messages != [] {
      var front, last := messages[..|messages| - 1], messages[|messages| - 1];
      NormalCommutes(front);
      assert NormalAll(messages)[..|messages| - 1] == NormalAll(front);
      PushNormal(Coalesce(front), last);
    }
  }

  lemma CleanExpands(message: Message)
    requires Clean(message)
    ensures Expand(message) == Some([message])
  {
  }

  lemma PlainExpands(messages: seq<Message>)
    requires NoCarriers(messages)
    ensures ExpandAll(messages) == Some(messages)
  {
    forall i | 0 <= i < |messages|
      ensures Expanded(messages)[i] == Some([messages[i]])
    {
      CleanExpands(messages[i]);
    }
    JoinAllSingles(Expanded(messages), messages);
  }

  lemma CarrierProduct(outer: Message, nested: seq<Message>)
    requires SessionOf(outer).Some? && ProductMeta(outer).Some?
    ensures var carrier := Carrier(outer, nested);
            && SessionOf(carrier) == SessionOf(outer) && CarriesBatch(carrier)
            && ClientProduct(UpdateParams(carrier).value) == Some(ProductMeta(outer).value[BATCH_KEY := Array(Nested(nested))])
  {
  }

  lemma CarrierOuter(outer: Message, nested: seq<Message>)
    requires SessionOf(outer).Some? && ProductMeta(outer).Some?
    ensures var carrier := Carrier(outer, nested);
            && ProductMeta(carrier).Some?
            && WithProduct(carrier, ProductMeta(carrier).value - {BATCH_KEY}) == WithProduct(outer, ProductMeta(outer).value - {BATCH_KEY})
  {
    var carrier, product := Carrier(outer, nested), ProductMeta(outer).value;
    var params, meta := outer.params.value.fields, ObjectOrNew(outer.params.value.fields, "_meta").value;
    var filled := Object(product[BATCH_KEY := Array(Nested(nested))]);
    var bare := Object(product - {BATCH_KEY});
    assert product[BATCH_KEY := Array(Nested(nested))] - {BATCH_KEY} == product - {BATCH_KEY};
    assert meta[NAMESPACE := filled][NAMESPACE := bare] == meta[NAMESPACE := bare];
    var m, n := Object(meta[NAMESPACE := filled]), Object(meta[NAMESPACE := bare]);
    assert params["_meta" := m]["_meta" := n] == params["_meta" := n];
  }

  /** A carrier expands to exactly the packed updates if and only if none of them carries the batch key
      itself: on the outer update the key would be overwritten, on a nested one the client rejects it. */
  lemma CarrierRoundTrip(messages: seq<Message>, sessionId: string)
    requires |messages| >= 2 && ProductMeta(messages[0]).Some?
    requires forall i :: 0 <= i < |messages| ==> SessionOf(messages[i]) == Some(sessionId)
    ensures Expand(Carrier(messages[0], messages[1..])) == Some([Normal(messages[0])] + messages[1..])
            <==> forall i :: 0 <= i < |messages| ==> !CarriesBatch(messages[i])
  {
    var outer, nested := messages[0], messages[1..];
    var carrier := Carrier(outer, nested);
    CarrierProduct(outer, nested);
    CarrierOuter(outer, nested);
    NestedItems(nested, sessionId);
    StrippedOuter(outer);
    var items := Nested(nested);
    assert Expand(carrier) ==
           if exists i :: 0 <= i < |items| && !ValidItem(items[i], sessionId) then None
           else Some([WithProduct(outer, ProductMeta(outer).value - {BATCH_KEY})] + nested);
    assert CarriesBatch(messages[0]) ==> ([WithProduct(outer, ProductMeta(outer).value - {BATCH_KEY})] + nested)[0] != Normal(outer);
    assert forall i :: 1 <= i < |messages| ==> messages[i] == nested[i - 1];
    assert forall i :: 0 <= i < |nested| ==> nested[i] == messages[i + 1];
  }

  lemma NestedItems(nested: seq<Message>, sessionId: string)
    requires forall i :: 0 <= i < |nested| ==> SessionOf(nested[i]) == Some(sessionId)
    ensures forall i :: 0 <= i < |nested| ==> Nested(nested)[i].Object? && (ValidItem(Nested(nested)[i], sessionId) <==> !CarriesBatch(nested[i]))
    ensures Updates(Nested(nested)) == nested
  {
  }

  lemma StrippedOuter(outer: Message)
    requires SessionOf(outer).Some? && ProductMeta(outer).Some?
    ensures WithProduct(outer, ProductMeta(outer).value - {BATCH_KEY}) == Normal(outer) <==> !CarriesBatch(outer)
  {
    var product := ProductMeta(outer).value;
    if BATCH_KEY in product {
      assert CarriesBatch(outer);
      assert ClientProduct(UpdateParams(Normal(outer)).value) == Some(product);
      assert ClientProduct(UpdateParams(WithProduct(outer, product - {BATCH_KEY})).value) == Some(product - {BATCH_KEY});
      assert BATCH_KEY !in product - {BATCH_KEY};
    } else {
      assert product - {BATCH_KEY} == product;
    }
  }

  lemma CarrierExpands(messages: seq<Message>, sessionId: string)
    requires OneSession(messages, sessionId) && NoCarriers(messages)
    requires |messages| >= 2 && ProductMeta(messages[0]).Some?
    ensures Delivers([Carrier(messages[0], messages[1..])], messages)
  {
    assert forall i :: 0 <= i < |messages| ==> Clean(messages[i]);
    CarrierRoundTrip(messages, sessionId);
    SingleExpands(Carrier(messages[0], messages[1..]));
    NormalHead(messages);
  }

  lemma NormalHead(messages: seq<Message>)
    requires messages != []
    ensures NormalAll([Normal(messages[0])] + messages[1..]) == NormalAll(messages)
  {
    NormalTwice(messages[0]);
  }

  /** The client expands the frames without error, to exactly these updates up to empty product
      metadata. */
  ghost predicate Delivers(frames: seq<Message>, updates: seq<Message>) {
    ExpandAll(frames).Some? && NormalAll(ExpandAll(frames).value) == NormalAll(updates)
  }

  /** A frame that is not packed is read as it is if and only if it does not carry the batch key. */
  lemma SingleFrameExactly(message: Message)
    ensures Expand(message) == Some([message]) <==> Clean(message)
  {
  }

  lemma SingleExpands(message: Message)
    ensures ExpandAll([message]) == Expand(message)
  {
    var part := Expand(message);
    assert Expanded([message]) == [part];
    JoinAllOne(part);
  }

  lemma JoinAllOne<T>(part: Option<seq<T>>)
    ensures JoinAll([part]) == part
  {
    assert [part][..0] == [];
    assert JoinAll([part]) == Join(JoinAll([]), part);
    if part.Some? {
      assert [] + part.value == part.value;
    }
  }

  // ---------------------------------------------------------------- every schedule

  function Flatten(runs: seq<seq<Message>>): seq<Message> {
    if runs == [] then [] else Flatten(runs[..|runs| - 1]) + runs[|runs| - 1]
  }

  /** The frames sent for consecutive runs, where `accepts(r)` is the flag read for the r-th one. */
  function Sent(runs: seq<seq<Message>>, accepts: nat -> bool): seq<Message> {
    if runs == [] then []
    else Sent(runs[..|runs| - 1], accepts) + Packed(runs[|runs| - 1], accepts(|runs| - 1))
  }

  /** A run is one frame that is no session update, or at most `max` updates of one session. */
  predicate Drained(run: seq<Message>, max: nat) {
    && 0 < |run| <= max
    && (SessionOf(run[0]).None? ==> |run| == 1)
    && (forall i :: 0 <= i < |run| ==> SessionOf(run[i]) == SessionOf(run[0]))
  }

  predicate AllDrained(runs: seq<seq<Message>>, max: nat) {
    forall r :: 0 <= r < |runs| ==> Drained(runs[r], max)
  }

  /** The frames sent so far and the runs they were made of, up to a position of the source. */
  ghost predicate SentThrough(source: seq<Message>, at: nat, max: nat, accepts: nat -> bool, runs: seq<seq<Message>>, sink: seq<Message>) {
    at <= |source| && Flatten(runs) == source[..at] && sink == Sent(runs, accepts) && AllDrained(runs, max)
  }

  lemma AppendRun(source: seq<Message>, start: nat, end: nat, max: nat, accepts: nat -> bool,
                  runs: seq<seq<Message>>, sink: seq<Message>, run: seq<Message>)
    requires SentThrough(source, start, max, accepts, runs, sink)
    requires start <= end <= |source| && run == source[start..end] && Drained(run, max)
    ensures SentThrough(source, end, max, accepts, runs + [run], sink + Packed(run, accepts(|runs|)))
  {
    assert (runs + [run])[..|runs|] == runs;
    assert source[..start] + run == source[..end];
  }

  lemma SingleRun(message: Message, accepts: bool)
    ensures Packed([message], accepts) == Coalesce([message]) == [message]
  {
    assert [message][..0] == [];
    assert PushAll([], [message][..0]) == [];
    assert Coalesce([message]) == [message];
  }

  /** The drain loop of one run: it stops only at the batch limit, before a frame of another session,
      at the end of the source, or at a poll that found nothing queued. */
  method Drain(source: seq<Message>, start: nat, max: nat, ready: nat -> bool, asked: nat)
    returns (messages: seq<Message>, end: nat, polls: nat, pending: Option<Message>)
    requires start < |source| && SessionOf(source[start]).Some? && max >= 1
    ensures start < end <= |source| && messages == source[start..end] && Drained(messages, max)
    ensures pending.Some? ==> end < |source| && pending.value == source[end]
                              && SessionOf(pending.value) != SessionOf(source[start])
    ensures |messages| == max || pending.Some? || end == |source| || (polls > asked && !ready(polls - 1))
  {
    messages, end, polls, pending := [source[start]], start + 1, asked, None;
    while |messages| < max && end < |source|
      invariant start < end <= |source| && end - start <= max && polls >= asked
      invariant messages == source[start..end]
      invariant forall i :: 0 <= i < |messages| ==> SessionOf(messages[i]) == SessionOf(source[start])
      decreases |source| - end
    {
      polls := polls + 1;
      if !ready(polls - 1) {
        break;
      }
      if SessionOf(source[end]) != SessionOf(source[start]) {
        pending := Some(source[end]);
        break;
      }
      messages, end := messages + [source[end]], end + 1;
    }
  }

  /** Handles one received frame: a session update starts a drain, anything else is passed on. */
  method TakeRun(source: seq<Message>, start: nat, max: nat, ready: nat -> bool, asked: nat, accepts: bool)
    returns (ghost run: seq<Message>, sent: seq<Message>, end: nat, polls: nat, pending: Option<Message>)
    requires start < |source| && max >= 1
    ensures start < end <= |source| && run == source[start..end] && Drained(run, max)
    ensures sent == Packed(run, accepts)
    ensures pending.Some? ==> end < |source| && pending.value == source[end]
  {
    if SessionOf(source[start]).None? {
      SingleRun(source[start], accepts);
      run, sent, end, polls, pending := [source[start]], [source[start]], start + 1, asked, None;
    } else {
      var messages;
      messages, end, polls, pending := Drain(source, start, max, ready, asked);
      run, sent := messages, Packed(messages, accepts);
    }
  }

  /** `OutboundRelay::forward` over everything the agent ever queues. `ready(k)` says whether the k-th
      non-blocking poll finds the next frame queued, `accepts(r)` is the flag read for the r-th run. The
      sink is the packed frames of consecutive runs. The client gets exactly those runs, coalesced, if
      and only if no coalesced update carries the batch key; and then the stream it gets does not depend
      on the schedule or the negotiation. */
  method Forward(source: seq<Message>, max: nat, ready: nat -> bool, accepts: nat -> bool) returns (sink: seq<Message>)
    requires max >= 1
    ensures exists runs :: SentThrough(source, |source|, max, accepts, runs, sink)
                           && (Delivers(sink, Blocks(runs)) <==> NoCarriers(Blocks(runs)))
                           && (NoCarriers(Blocks(runs)) ==> SameStream(sink, source) && SeesSource(runs, accepts, source))
                           && ((forall r :: 0 <= r < |runs| ==> !accepts(r)) ==> sink == Blocks(runs))
    ensures NoCarriers(source) ==> SameStream(sink, source)
  {
    sink := [];
    ghost var runs: seq<seq<Message>> := [];
    var next, polls, sends := 0, 0, 0;
    var pending: Option<Message> := None;
    while next < |source|
      invariant 0 <= next <= |source| && sends == |runs|
      invariant pending.Some? ==> next < |source| && pending.value == source[next]
      invariant SentThrough(source, next, max, accepts, runs, sink)
      decreases |source| - next
    {
      ghost var run;
      var sent, end;
      // A pending frame is the one that ended the previous drain.
      run, sent, end, polls, pending := TakeRun(source, next, max, ready, polls, accepts(sends));
      AppendRun(source, next, end, max, accepts, runs, sink, run);
      sink, runs, sends, next := sink + sent, runs + [run], sends + 1, end;
    }
    EverythingSent(source, max, accepts, runs, sink);
  }

  lemma EverythingSent(source: seq<Message>, max: nat, accepts: nat -> bool, runs: seq<seq<Message>>, sink: seq<Message>)
    requires SentThrough(source, |source|, max, accepts, runs, sink)
    ensures Delivers(sink, Blocks(runs)) <==> NoCarriers(Blocks(runs))
    ensures NoCarriers(Blocks(runs)) ==> SameStream(sink, source) && SeesSource(runs, accepts, source)
    ensures (forall r :: 0 <= r < |runs| ==> !accepts(r)) ==> sink == Blocks(runs)
    ensures NoCarriers(source) ==> NoCarriers(Blocks(runs))
  {
    assert source[..|source|] == source;
    DeliversExactly(runs, accepts, max);
    CleanIsSeen(runs, accepts, max);
    if forall r :: 0 <= r < |runs| ==> !accepts(r) {
      UndeclaredGetsUpdates(runs, accepts);
    }
    if NoCarriers(source) {
      BlocksStayClean(runs);
    }
  }

  lemma CleanIsSeen(runs: seq<seq<Message>>, accepts: nat -> bool, max: nat)
    requires AllDrained(runs, max)
    ensures NoCarriers(Blocks(runs)) ==> SameStream(Sent(runs, accepts), Flatten(runs)) && SeesSource(runs, accepts, Flatten(runs))
  {
    if NoCarriers(Blocks(runs)) {
      DeliveryIsScheduleIndependent(runs, accepts, max);
      NegotiationIsRespected(runs, accepts, max);
    }
  }

  lemma ExpandConcat(a: seq<Message>, b: seq<Message>)
    ensures ExpandAll(a + b) == Join(ExpandAll(a), ExpandAll(b))
  {
    assert Expanded(a + b) == Expanded(a) + Expanded(b);
    JoinAllConcat(Expanded(a), Expanded(b));
  }

  /** The updates of every run, coalesced run by run. */
  function Blocks(runs: seq<seq<Message>>): seq<Message> {
    if runs == [] then [] else Blocks(runs[..|runs| - 1]) + Coalesce(runs[|runs| - 1])
  }

  /** How runs are cut does not show once everything is coalesced. */
  lemma {:induction false} BlocksCoalesce(runs: seq<seq<Message>>)
    ensures Coalesce(Blocks(runs)) == Coalesce(Flatten(runs))
  {
    if runs != [] {
      var front, last := runs[..|runs| - 1], runs[|runs| - 1];
      BlocksCoalesce(front);
      SplitInsensitive(Blocks(front), last);
      SplitInsensitive(Flatten(front), last);
    }
  }

  lemma ConcatClean(a: seq<Message>, b: seq<Message>)
    ensures NoCarriers(a + b) <==> NoCarriers(a) && NoCarriers(b)
  {
    if NoCarriers(a + b) {
      assert forall i :: 0 <= i < |a| ==> a[i] == (a + b)[i];
      assert forall i :: 0 <= i < |b| ==> b[i] == (a + b)[|a| + i];
    }
  }

  lemma {:induction false} BlocksStayClean(runs: seq<seq<Message>>)
    requires NoCarriers(Flatten(runs))
    ensures NoCarriers(Blocks(runs))
  {
    if runs != [] {
      var front, last := runs[..|runs| - 1], runs[|runs| - 1];
      ConcatClean(Flatten(front), last);
      BlocksStayClean(front);
      CoalesceKeepsClean(last);
      ConcatClean(Blocks(front), Coalesce(last));
    }
  }

  // What the client gets never carries the key.

  lemma StrippedIsClean(message: Message)
    requires SessionOf(message).Some? && CarriesBatch(message)
    ensures ProductMeta(message).Some?
    ensures !CarriesBatch(WithProduct(message, ProductMeta(message).value - {BATCH_KEY}))
    ensures ProductMeta(message) == ClientProduct(UpdateParams(message).value)
  {
    var product := ProductMeta(message).value;
    assert ClientProduct(UpdateParams(WithProduct(message, product - {BATCH_KEY})).value) == Some(product - {BATCH_KEY});
  }

  lemma ExpandedIsClean(message: Message)
    requires Expand(message).Some?
    ensures NoCarriers(Expand(message).value)
  {
    if !Clean(message) {
      StrippedIsClean(message);
      var items := ClientProduct(UpdateParams(message).value).value[BATCH_KEY].items;
      forall i | 0 <= i < |items|
        ensures Clean(Updates(items)[i])
      {
        assert ValidItem(items[i], SessionOf(message).value);
      }
    }
  }

  lemma {:induction false} ExpandAllIsClean(frames: seq<Message>)
    requires ExpandAll(frames).Some?
    ensures NoCarriers(ExpandAll(frames).value)
  {
    if frames != [] {
      var front, last := frames[..|frames| - 1], frames[|frames| - 1];
      assert front + [last] == frames;
      ExpandConcat(front, [last]);
      SingleExpands(last);
      ExpandAllIsClean(front);
      ExpandedIsClean(last);
      ConcatClean(ExpandAll(front).value, Expand(last).value);
    }
  }

  lemma NormalStaysClean(message: Message)
    ensures Clean(Normal(message)) <==> Clean(message)
  {
    NormalKeepsSession(message);
    if SessionOf(message).Some? && ProductMeta(message).Some? {
      assert ClientProduct(UpdateParams(Normal(message)).value) == ProductMeta(message);
    }
  }

  lemma NormalAllStaysClean(messages: seq<Message>)
    ensures NoCarriers(NormalAll(messages)) <==> NoCarriers(messages)
  {
    forall i | 0 <= i < |messages|
      ensures Clean(NormalAll(messages)[i]) <==> Clean(messages[i])
    {
      NormalStaysClean(messages[i]);
    }
  }

  lemma DeliveredIsClean(frames: seq<Message>, updates: seq<Message>)
    requires Delivers(frames, updates)
    ensures NoCarriers(updates)
  {
    ExpandAllIsClean(frames);
    NormalAllStaysClean(ExpandAll(frames).value);
    NormalAllStaysClean(updates);
  }

  // And it gets every clean run.

  lemma RunDelivers(run: seq<Message>, max: nat, accepts: bool)
    requires Drained(run, max) && NoCarriers(Coalesce(run))
    ensures Delivers(Packed(run, accepts), Coalesce(run))
  {
    var c := Coalesce(run);
    if SessionOf(run[0]).None? {
      assert run == [run[0]];
      SingleRun(run[0], accepts);
      PlainExpands(c);
    } else if |c| < 2 || !accepts || ProductMeta(c[0]).None? {
      PlainExpands(c);
    } else {
      CoalesceKeepsSession(run, SessionOf(run[0]).value);
      CarrierExpands(c, SessionOf(run[0]).value);
    }
  }

  lemma JoinDelivers(a: seq<Message>, b: seq<Message>, x: seq<Message>, y: seq<Message>)
    requires Delivers(a, x) && Delivers(b, y)
    ensures Delivers(a + b, x + y)
  {
    ExpandConcat(a, b);
    NormalConcat(ExpandAll(a).value, ExpandAll(b).value);
    NormalConcat(x, y);
  }

  lemma {:induction false} CleanBlocksDelivered(runs: seq<seq<Message>>, accepts: nat -> bool, max: nat)
    requires AllDrained(runs, max) && NoCarriers(Blocks(runs))
    ensures Delivers(Sent(runs, accepts), Blocks(runs))
  {
    if runs != [] {
      var n := |runs| - 1;
      var front, last := runs[..n], runs[n];
      ConcatClean(Blocks(front), Coalesce(last));
      CleanBlocksDelivered(front, accepts, max);
      RunDelivers(last, max, accepts(n));
      JoinDelivers(Sent(front, accepts), Packed(last, accepts(n)), Blocks(front), Coalesce(last));
    }
  }

  /** For every schedule and negotiation the client gets exactly the coalesced runs, up to empty product
      metadata, if and only if none of their updates carries the batch key: a carrying update is
      misread, packed or not. */
  lemma DeliversExactly(runs: seq<seq<Message>>, accepts: nat -> bool, max: nat)
    requires AllDrained(runs, max)
    ensures Delivers(Sent(runs, accepts), Blocks(runs)) <==> NoCarriers(Blocks(runs))
  {
    if NoCarriers(Blocks(runs)) {
      CleanBlocksDelivered(runs, accepts, max);
    } else if Delivers(Sent(runs, accepts), Blocks(runs)) {
      DeliveredIsClean(Sent(runs, accepts), Blocks(runs));
    }
  }

  /** A client that expands a run's frames exactly if it had declared the format sees the source. */
  ghost predicate SeesSource(runs: seq<seq<Message>>, accepts: nat -> bool, source: seq<Message>) {
    Seen(runs, accepts).Some? && Coalesce(NormalAll(Seen(runs, accepts).value)) == Coalesce(NormalAll(source))
  }

  /** The expanded frames and the source are one stream once both are normalised: coalesced, with empty
      product metadata written out. */
  ghost predicate SameStream(frames: seq<Message>, source: seq<Message>) {
    && ExpandAll(frames).Some?
    && Coalesce(NormalAll(ExpandAll(frames).value)) == Coalesce(NormalAll(source))
  }

  /** Expanding what the relay sent and coalescing it gives the source stream coalesced, whatever the
      schedule: nothing is lost, repeated or reordered. */
  lemma DeliveryIsScheduleIndependent(runs: seq<seq<Message>>, accepts: nat -> bool, max: nat)
    requires AllDrained(runs, max) && NoCarriers(Blocks(runs))
    ensures SameStream(Sent(runs, accepts), Flatten(runs))
  {
    CleanBlocksDelivered(runs, accepts, max);
    NormalCommutes(Blocks(runs));
    NormalCommutes(Flatten(runs));
    BlocksCoalesce(runs);
  }

  // ---------------------------------------------------------------- what the negotiation decides

  /** A client that declared the batch format expands every frame; any other client reads them as they are. */
  function SeenOf(frames: seq<Message>, accepts: bool): Option<seq<Message>> {
    if accepts then ExpandAll(frames) else Some(frames)
  }

  /** What the client sees of consecutive runs, where `accepts(r)` says whether it had declared the format. */
  function Seen(runs: seq<seq<Message>>, accepts: nat -> bool): Option<seq<Message>> {
    if runs == [] then Some([])
    else
      var n := |runs| - 1;
      Join(Seen(runs[..n], accepts), SeenOf(Packed(runs[n], accepts(n)), accepts(n)))
  }

  /** There is room for the batch key: the product metadata is absent, null or an object, at both levels. */
  predicate HasRoom(message: Message) {
    var meta, product := FieldAt(message, ["_meta"]), FieldAt(message, ["_meta", "clawcode"]);
    && (meta.None? || meta.value.Null? || meta.value.Object?)
    && (product.None? || product.value.Null? || product.value.Object?)
  }

  lemma RoomExactly(message: Message)
    requires SessionOf(message).Some?
    ensures ProductMeta(message).Some? <==> HasRoom(message)
  {
    FieldLast(message, [], "_meta");
    assert [] + ["_meta"] == ["_meta"] && ["_meta"] + ["clawcode"] == ["_meta", "clawcode"];
    FieldLast(message, ["_meta"], "clawcode");
    assert FieldAt(message, []) == Some(Object(UpdateParams(message).value));
  }

  /** The frames of one run of at least two coalesced updates: without the declaration, or without room in
      the first one, the updates one by one; otherwise a single frame, the first update with the parameters
      of all the others under the batch key. */
  lemma FlagDecidesFrames(run: seq<Message>, accepts: bool, max: nat)
    requires Drained(run, max) && |Coalesce(run)| >= 2
    ensures var c, frames := Coalesce(run), Packed(run, accepts);
            if accepts && HasRoom(c[0]) then
              && |frames| == 1 && SessionOf(frames[0]) == SessionOf(run[0])
              && var batch := FieldAt(frames[0], ["_meta", "clawcode", "sessionUpdateBatch"]);
                 batch.Some? && batch.value.Array? && |batch.value.items| == |c| - 1
                 && forall i :: 1 <= i < |c| ==> FieldAt(c[i], []) == Some(batch.value.items[i - 1])
            else frames == c
  {
    var c := Coalesce(run);
    if SessionOf(run[0]).None? {
      assert run == [run[0]];
      SingleRun(run[0], accepts);
      assert false;
    } else {
      CoalesceKeepsSession(run, SessionOf(run[0]).value);
      RoomExactly(c[0]);
      if accepts && HasRoom(c[0]) {
        CarrierBatch(c[0], c[1..]);
      }
    }
  }

  lemma CarrierBatch(outer: Message, nested: seq<Message>)
    requires SessionOf(outer).Some? && ProductMeta(outer).Some?
    requires forall i :: 0 <= i < |nested| ==> SessionOf(nested[i]).Some?
    ensures SessionOf(Carrier(outer, nested)) == SessionOf(outer)
    ensures FieldAt(Carrier(outer, nested), ["_meta", "clawcode", "sessionUpdateBatch"]) == Some(Array(Nested(nested)))
    ensures forall i :: 0 <= i < |nested| ==> FieldAt(nested[i], []) == Some(Nested(nested)[i])
  {
    var carrier := Carrier(outer, nested);
    CarrierProduct(outer, nested);
    FieldLast(carrier, [], "_meta");
    FieldLast(carrier, ["_meta"], "clawcode");
    FieldLast(carrier, ["_meta", "clawcode"], "sessionUpdateBatch");
    assert [] + ["_meta"] == ["_meta"] && ["_meta"] + ["clawcode"] == ["_meta", "clawcode"];
    assert ["_meta", "clawcode"] + ["sessionUpdateBatch"] == ["_meta", "clawcode", "sessionUpdateBatch"];
    assert FieldAt(carrier, []) == Some(Object(UpdateParams(carrier).value));
  }

  /** A client that never declared the format receives the coalesced updates themselves. */
  lemma {:induction false} UndeclaredGetsUpdates(runs: seq<seq<Message>>, accepts: nat -> bool)
    requires forall r :: 0 <= r < |runs| ==> !accepts(r)
    ensures Sent(runs, accepts) == Blocks(runs)
  {
    if runs != [] {
      UndeclaredGetsUpdates(runs[..|runs| - 1], accepts);
    }
  }

  lemma RunSeen(run: seq<Message>, accepts: bool, max: nat)
    requires Drained(run, max) && NoCarriers(Coalesce(run))
    ensures var seen := SeenOf(Packed(run, accepts), accepts);
            seen.Some? && NormalAll(seen.value) == NormalAll(Coalesce(run))
  {
    RunDelivers(run, max, accepts);
  }

  lemma {:induction false} RunsSeen(runs: seq<seq<Message>>, accepts: nat -> bool, max: nat)
    requires AllDrained(runs, max) && NoCarriers(Blocks(runs))
    ensures Seen(runs, accepts).Some? && NormalAll(Seen(runs, accepts).value) == NormalAll(Blocks(runs))
  {
    if runs != [] {
      var n := |runs| - 1;
      ConcatClean(Blocks(runs[..n]), Coalesce(runs[n]));
      RunsSeen(runs[..n], accepts, max);
      RunSeen(runs[n], accepts(n), max);
      var a, b := Seen(runs[..n], accepts).value, SeenOf(Packed(runs[n], accepts(n)), accepts(n)).value;
      NormalConcat(a, b);
      NormalConcat(Blocks(runs[..n]), Coalesce(runs[n]));
    }
  }

  /** Every client sees the source stream, coalesced, whether it declared the format from the start, never,
      or anew between two runs: it is sent carriers only while it expands them. */
  lemma NegotiationIsRespected(runs: seq<seq<Message>>, accepts: nat -> bool, max: nat)
    requires AllDrained(runs, max) && NoCarriers(Blocks(runs))
    ensures Seen(runs, accepts).Some?
    ensures Coalesce(NormalAll(Seen(runs, accepts).value)) == Coalesce(NormalAll(Flatten(runs)))
  {
    RunsSeen(runs, accepts, max);
    NormalCommutes(Blocks(runs));
    NormalCommutes(Flatten(runs));
    BlocksCoalesce(runs);
  }

  /** The updates a carrier holds: its own and the nested ones. */
  function Held(frame: Message): nat {
    if SessionOf(frame).Some? && Expand(frame).Some? then |Expand(frame).value| else 1
  }

  lemma {:induction false} CoalesceShrinks(messages: seq<Message>)
    ensures |Coalesce(messages)| <= |messages| && (messages != [] ==> Coalesce(messages) != [])
  {
    if messages != [] {
      CoalesceShrinks(messages[..|messages| - 1]);
    }
  }

  /** A frame of a drained run is one of its coalesced updates, or packs all of them, which are at most
      the batch limit; it belongs to the run's session. Unless an update carries the batch key, expanding
      the frame gives at most that many updates of that session. */
  lemma FramesAreBounded(run: seq<Message>, accepts: bool, max: nat, f: nat)
    requires Drained(run, max) && f < |Packed(run, accepts)|
    ensures var c, frame := Coalesce(run), Packed(run, accepts)[f];
            && SessionOf(frame) == SessionOf(run[0]) && 0 < |c| <= max
            && (forall i :: 0 <= i < |c| ==> SessionOf(c[i]) == SessionOf(run[0]))
            && (Packed(run, accepts) == c || (ProductMeta(c[0]).Some? && Packed(run, accepts) == [Carrier(c[0], c[1..])]))
    ensures NoCarriers(Coalesce(run)) ==>
              var frame := Packed(run, accepts)[f];
              && Expand(frame).Some? && Held(frame) <= max
              && forall i :: 0 <= i < |Expand(frame).value| ==> SessionOf(Expand(frame).value[i]) == SessionOf(frame)
  {
    var c := Coalesce(run);
    CoalesceShrinks(run);
    if SessionOf(run[0]).None? {
      assert run == [run[0]];
      SingleRun(run[0], accepts);
    } else {
      var id := SessionOf(run[0]).value;
      CoalesceKeepsSession(run, id);
      if |c| >= 2 && accepts && ProductMeta(c[0]).Some? {
        CarrierProduct(c[0], c[1..]);
        if NoCarriers(c) {
          CarrierIsBounded(c, id);
        }
      } else if NoCarriers(c) {
        assert Clean(c[f]);
      }
    }
  }

  lemma CarrierIsBounded(messages: seq<Message>, sessionId: string)
    requires OneSession(messages, sessionId) && NoCarriers(messages)
    requires |messages| >= 2 && ProductMeta(messages[0]).Some?
    ensures var frame := Carrier(messages[0], messages[1..]);
            && SessionOf(frame) == Some(sessionId)
            && Expand(frame).Some? && |Expand(frame).value| == |messages|
            && forall i :: 0 <= i < |messages| ==> SessionOf(Expand(frame).value[i]) == Some(sessionId)
  {
    assert forall i :: 0 <= i < |messages| ==> Clean(messages[i]);
    CarrierRoundTrip(messages, sessionId);
    CarrierProduct(messages[0], messages[1..]);
    NormalKeepsSession(messages[0]);
  }

  lemma NormalKeepsSession(message: Message)
    ensures SessionOf(Normal(message)) == SessionOf(message)
  {
  }

  // ---------------------------------------------------------------- negotiation

  function Version(meta: Option<Json>): Option<nat> {
    var value :- meta;
    if !value.Object? then None
    else
      var product :- ObjectAt(value.fields, NAMESPACE);
      var capability :- ObjectAt(product, BATCH_KEY);
      U64At(capability, "version")
  }

  /** What one inbound frame declares; only an `initialize` request says anything. */
  function Declared(frame: Message): Option<bool> {
    if frame.Request? && frame.action == "initialize" then
      Some(frame.params.Some? && frame.params.value.Named?
           && Version(At(frame.params.value.fields, "_meta")) == Some(BATCH_VERSION))
    else None
  }

  /** What a path of object keys leads to in the parameters of a request. */
  function RequestField(frame: Message, path: seq<string>): Option<Json> {
    if frame.Request? && frame.params.Some? && frame.params.value.Named? then Lookup(Object(frame.params.value.fields), path) else None
  }

  /** A client declares the format exactly with version 1 in an `initialize` request; any other
      `initialize` request withdraws it, and nothing else says anything. */
  lemma DeclaredExactly(frame: Message)
    ensures Declared(frame).Some? <==> frame.Request? && frame.action == "initialize"
    ensures Declared(frame).Some? ==>
              (Declared(frame).value <==>
                RequestField(frame, ["_meta", "clawcode", "sessionUpdateBatch", "version"]) == Some(Natural(1)))
  {
    if Declared(frame).Some? && frame.params.Some? && frame.params.value.Named? {
      var value := Object(frame.params.value.fields);
      LookupLast(value, [], "_meta");
      LookupLast(value, ["_meta"], "clawcode");
      LookupLast(value, ["_meta", "clawcode"], "sessionUpdateBatch");
      LookupLast(value, ["_meta", "clawcode", "sessionUpdateBatch"], "version");
      assert [] + ["_meta"] == ["_meta"] && ["_meta"] + ["clawcode"] == ["_meta", "clawcode"];
      assert ["_meta", "clawcode"] + ["sessionUpdateBatch"] == ["_meta", "clawcode", "sessionUpdateBatch"];
      assert ["_meta", "clawcode", "sessionUpdateBatch"] + ["version"] == ["_meta", "clawcode", "sessionUpdateBatch", "version"];
    }
  }

  /** The flag both relay directions share. */
  class Negotiation {
    var acceptsBatches: bool

    constructor ()
      ensures !acceptsBatches
    {
      acceptsBatches := false;
    }

    /** `InboundRelay::observe`. */
    method Observe(frame: Message)
      modifies this
      ensures acceptsBatches == if Declared(frame).Some? then Declared(frame).value else old(acceptsBatches)
    {
      if !frame.Request? || frame.action != "initialize" {
        return;
      }
      acceptsBatches := frame.params.Some? && frame.params.value.Named?
                        && Version(At(frame.params.value.fields, "_meta")) == Some(BATCH_VERSION);
    }

    /** Inbound frames are forwarded unchanged; the flag ends as the latest `initialize` declared it. */
    method ForwardInbound(frames: seq<Message>) returns (sink: seq<Message>)
      modifies this
      ensures sink == frames
      ensures forall i :: 0 <= i < |frames| && Declared(frames[i]).Some? && (forall k :: i < k < |frames| ==> Declared(frames[k]).None?) ==>
                acceptsBatches == Declared(frames[i]).value
      ensures (forall i :: 0 <= i < |frames| ==> Declared(frames[i]).None?) ==> acceptsBatches == old(acceptsBatches)
    {
      sink := [];
      for n := 0 to |frames|
        invariant sink == frames[..n]
        invariant forall i :: 0 <= i < n && Declared(frames[i]).Some? && (forall k :: i < k < n ==> Declared(frames[k]).None?) ==>
                    acceptsBatches == Declared(frames[i]).value
        invariant (forall i :: 0 <= i < n ==> Declared(frames[i]).None?) ==> acceptsBatches == old(acceptsBatches)
      {
        Observe(frames[n]);
        sink := sink + [frames[n]];
      }
    }
  }
}
