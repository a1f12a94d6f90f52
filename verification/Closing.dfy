/** session/close against one connection's watcher (crates/acp/src/server.rs, `SessionClose::run`,
    with crates/acp/src/delivery.rs): delivery progress, the barrier a close waits for, its answer,
    and the removal of the projection. */
module Closing {
  import opened Wrappers
  import opened Projection
  import opened Journals
  import opened WatchProtocol
  import opened WatchGuarantees

  // ---------------------------------------------------------------- progress means delivery

  /** An event outside any run carries this sequence: a terminal fallback can reuse the sequence the
      Kernel assigns next. */
  ghost predicate Collides(log: seq<EventGroup>, sequence: nat) {
    exists i :: 0 <= i < |log| && log[i].runId.None? && log[i].sequence == sequence
  }

  ghost predicate Reached(log: seq<EventGroup>, kernel: nat, last: Option<Sequence>) {
    last.Some? ==> last.value <= kernel || (last.value == kernel + 1 && Collides(log, kernel + 1))
  }

  /** Where an ungrouped event's sequence lies among the groups the journals took in. */
  ghost predicate Interleaved(log: seq<EventGroup>, admitted: seq<EventGroup>) {
    forall i, k :: 0 <= i < |log| && 0 <= k < |log| && log[i].runId.None? && log[k] in admitted
                   ==> (k < i ==> log[k].sequence < log[i].sequence) && (i < k ==> log[i].sequence <= log[k].sequence)
  }

  ghost predicate BelowTail(st: State, admitted: seq<EventGroup>) {
    && (st.journal.None? ==> admitted == [])
    && (st.journal.Some? && st.journal.value.groups != [] ==>
          forall g :: g in admitted ==> g.sequence <= st.journal.value.groups[|st.journal.value.groups| - 1].sequence)
  }

  ghost predicate Received(w: Watch, log: seq<EventGroup>) {
    && (forall g :: g in w.pending ==> g in log)
    && (forall g :: g in w.pending && g.runId.None? ==> exists i :: 0 <= i < w.pos && i < |log| && log[i] == g)
  }

  /** Every group at or below the progress is forwarded or superseded, except one that shares the
      progress itself with an ungrouped event. */
  ghost predicate Delivered(w: Watch, log: seq<EventGroup>, admitted: seq<EventGroup>) {
    w.progress.Some? ==>
      forall g :: g in admitted && w.origin <= g.sequence <= w.progress.value
                  ==> Done(w, admitted, g) || (g.sequence == w.progress.value && Collides(log, g.sequence))
  }

  ghost predicate DeliveryInv(s: System) {
    && Inv(s)
    && Interleaved(s.log, s.admitted)
    && (forall i :: 0 <= i < |s.log| && s.log[i].runId.None? ==> s.log[i].sequence <= s.kernel + 1)
    && BelowTail(s.st, s.admitted)
    && Reached(s.log, s.kernel, s.st.lastSequence)
    && Reached(s.log, s.kernel, s.watch.progress)
    && Received(s.watch, s.log)
    && Delivered(s.watch, s.log, s.admitted)
  }

  lemma CollidesGrows(log: seq<EventGroup>, group: EventGroup, sequence: nat)
    requires Collides(log, sequence)
    ensures Collides(log + [group], sequence)
  {
    var i :| 0 <= i < |log| && log[i].runId.None? && log[i].sequence == sequence;
    assert (log + [group])[i] == log[i];
  }

  lemma ReachedGrows(log: seq<EventGroup>, kernel: nat, last: Option<Sequence>, group: EventGroup, more: nat)
    requires Reached(log, kernel, last) && kernel <= more
    ensures Reached(log + [group], more, last)
  {
    if Collides(log, kernel + 1) {
      CollidesGrows(log, group, kernel + 1);
    }
  }

  lemma ReceivedGrows(w: Watch, log: seq<EventGroup>, group: EventGroup)
    requires Received(w, log)
    ensures Received(w, log + [group])
  {
    assert forall i :: 0 <= i < |log| ==> (log + [group])[i] == log[i];
  }

  /** New groups enter above the progress, or share it with an ungrouped event. */
  lemma DeliveredGrows(w: Watch, log: seq<EventGroup>, admitted: seq<EventGroup>, kernel: nat, group: EventGroup,
                       more: seq<EventGroup>)
    requires Delivered(w, log, admitted) && Reached(log, kernel, w.progress)
    requires more == admitted || (more == admitted + [group] && kernel < group.sequence)
    ensures Delivered(w, log + [group], more)
  {
    if w.progress.Some? {
      forall g | g in more && w.origin <= g.sequence <= w.progress.value
        ensures Done(w, more, g) || (g.sequence == w.progress.value && Collides(log + [group], g.sequence))
      {
        if g in admitted {
          if Superseded(g, admitted) {
            SupersededGrows(g, admitted, more);
          }
        }
        if Collides(log, g.sequence) {
          CollidesGrows(log, group, g.sequence);
        }
      }
    }
  }

  lemma EmitKeepsTail(st: State, admitted: seq<EventGroup>, kernel: nat, group: EventGroup, baseline: seq<string>)
    requires BelowTail(st, admitted) && kernel < group.sequence
    requires forall g :: g in admitted ==> g.sequence <= kernel
    requires Append(st, group, baseline).Ok?
    ensures BelowTail(Append(st, group, baseline).value,
                      if TakesIn(st, group) then admitted + [group] else admitted)
  {
  }

  lemma EmitKeepsDelivery(s: System, group: EventGroup, baseline: seq<string>)
    requires DeliveryInv(s) && Enabled(s, Emit(group, baseline))
    ensures DeliveryInv(Emitted(s, group, baseline))
  {
    StepKeepsInv(s, Emit(group, baseline));
    var n := Emitted(s, group, baseline);
    if Append(s.st, group, baseline).Ok? {
      assert forall g :: g in s.admitted ==> g in s.log && g.sequence <= s.kernel;
      EmitKeepsTail(s.st, s.admitted, s.kernel, group, baseline);
      ReachedGrows(s.log, s.kernel, s.watch.progress, group, group.sequence);
      EmitReaches(s.log, s.kernel, s.st.lastSequence, group);
      ReceivedGrows(s.watch, s.log, group);
      DeliveredGrows(s.watch, s.log, s.admitted, s.kernel, group, n.admitted);
      EmitInterleaves(s, group, n.admitted);
      ComposeEmit(s, n, group);
    } else {
      ReachedLater(s.log, s.kernel, s.watch.progress, group.sequence);
      ReachedLater(s.log, s.kernel, s.st.lastSequence, group.sequence);
    }
  }

  lemma EmitReaches(log: seq<EventGroup>, kernel: nat, last: Option<Sequence>, group: EventGroup)
    requires Reached(log, kernel, last) && kernel < group.sequence
    ensures Reached(log + [group], group.sequence, Later(last, group.sequence))
  {
    ReachedGrows(log, kernel, last, group, group.sequence);
  }

  lemma ReachedLater(log: seq<EventGroup>, kernel: nat, last: Option<Sequence>, later: nat)
    requires Reached(log, kernel, last) && kernel < later
    ensures Reached(log, later, last)
  {
  }

  lemma ComposeEmit(s: System, n: System, group: EventGroup)
    requires Inv(n) && BelowTail(n.st, n.admitted) && s.kernel < group.sequence
    requires n.log == s.log + [group] && n.kernel == group.sequence && n.watch == s.watch
    requires forall i :: 0 <= i < |s.log| && s.log[i].runId.None? ==> s.log[i].sequence <= s.kernel + 1
    requires Interleaved(n.log, n.admitted)
    requires Reached(n.log, n.kernel, n.st.lastSequence) && Reached(n.log, n.kernel, n.watch.progress)
    requires Received(n.watch, n.log) && Delivered(n.watch, n.log, n.admitted)
    ensures DeliveryInv(n)
  {
  }

  lemma EmitInterleaves(s: System, group: EventGroup, more: seq<EventGroup>)
    requires Interleaved(s.log, s.admitted) && Ordered(s.log, s.kernel) && s.kernel < group.sequence
    requires forall i :: 0 <= i < |s.log| && s.log[i].runId.None? ==> s.log[i].sequence <= s.kernel + 1
    requires forall g :: g in s.admitted ==> g.runId.Some? && g.sequence <= s.kernel
    requires more == s.admitted || (more == s.admitted + [group] && group.runId.Some?)
    ensures Interleaved(s.log + [group], more)
  {
    var log := s.log + [group];
    assert group.runId.Some? ==> group !in s.log;
    assert forall i :: 0 <= i < |s.log| ==> log[i] == s.log[i] && s.log[i] in s.log;
  }

  lemma FallbackInterleaves(s: System)
    requires Inv(s) && Interleaved(s.log, s.admitted) && BelowTail(s.st, s.admitted)
    requires Fallback(s.st).1.Some?
    ensures Interleaved(s.log + [Fallback(s.st).1.value], s.admitted)
    ensures Fallback(s.st).1.value.sequence <= s.kernel + 1
  {
    var terminal := Fallback(s.st).1.value;
    var log := s.log + [terminal];
    assert forall i :: 0 <= i < |s.log| ==> log[i] == s.log[i];
    assert terminal !in s.admitted;
  }

  lemma ReachedByLast(log: seq<EventGroup>, kernel: nat, last: Option<Sequence>, group: EventGroup)
    requires Reached(log, kernel, last) && group in log
    requires group.sequence <= kernel + 1 && (group.runId.Some? ==> group.sequence <= kernel)
    ensures Reached(log, kernel, Later(last, group.sequence))
  {
    if group.sequence == kernel + 1 {
      var i :| 0 <= i < |log| && log[i] == group;
      assert Collides(log, kernel + 1);
    }
  }

  lemma FallbackKeepsStream(s: System)
    requires DeliveryInv(s) && Fallback(s.st).1.Some?
    ensures var terminal := Fallback(s.st).1.value;
            var log := s.log + [terminal];
            && Interleaved(log, s.admitted)
            && (forall i :: 0 <= i < |log| && log[i].runId.None? ==> log[i].sequence <= s.kernel + 1)
            && Reached(log, s.kernel, Later(s.st.lastSequence, terminal.sequence))
  {
    var terminal := Fallback(s.st).1.value;
    FallbackInterleaves(s);
    ReachedGrows(s.log, s.kernel, s.st.lastSequence, terminal, s.kernel);
    assert terminal in s.log + [terminal];
    ReachedByLast(s.log + [terminal], s.kernel, s.st.lastSequence, terminal);
  }

  lemma FallbackKeepsTail(st: State, admitted: seq<EventGroup>)
    requires BelowTail(st, admitted)
    ensures BelowTail(Fallback(st).0, admitted)
  {
  }

  lemma FallbackKeepsDelivery(s: System)
    requires DeliveryInv(s)
    ensures DeliveryInv(FellBack(s))
  {
    FallbackKeepsInv(s);
    FallbackKeepsTail(s.st, s.admitted);
    if Fallback(s.st).1.Some? {
      var terminal := Fallback(s.st).1.value;
      FallbackKeepsStream(s);
      ReachedGrows(s.log, s.kernel, s.watch.progress, terminal, s.kernel);
      ReceivedGrows(s.watch, s.log, terminal);
      DeliveredGrows(s.watch, s.log, s.admitted, s.kernel, terminal, s.admitted);
      Compose(s, FellBack(s));
    } else {
      assert FellBack(s) == s.(st := Fallback(s.st).0);
    }
  }

  lemma Compose(s: System, n: System)
    requires Inv(n) && BelowTail(n.st, n.admitted) && Fallback(s.st).1.Some?
    requires n == s.(st := Fallback(s.st).0, log := s.log + [Fallback(s.st).1.value])
    requires Interleaved(n.log, n.admitted)
    requires forall i :: 0 <= i < |n.log| && n.log[i].runId.None? ==> n.log[i].sequence <= n.kernel + 1
    requires Reached(n.log, n.kernel, Later(s.st.lastSequence, Fallback(s.st).1.value.sequence))
    requires Reached(n.log, n.kernel, n.watch.progress) && Received(n.watch, n.log)
    requires Delivered(n.watch, n.log, n.admitted)
    ensures DeliveryInv(n)
  {
  }

  lemma AttachLiveKeepsDelivery(s: System)
    requires DeliveryInv(s) && Enabled(s, Attach(AtLive))
    ensures DeliveryInv(Next(s, Attach(AtLive)))
  {
    StepKeepsInv(s, Attach(AtLive));
    assert forall g :: g in s.admitted ==> g in s.log && g.sequence <= s.kernel;
  }

  lemma FeedKeepsDelivery(s: System, feed: Feed)
    requires DeliveryInv(s) && s.st.journal.Some? && feed.delivered == s.st.lastSequence
    requires feed.backlog == From(s.st.journal.value.groups, feed.nextSequence)
    requires s.st.journal.value.groups[0].sequence <= feed.nextSequence
    ensures Received(Attached(s, feed), s.log) && Delivered(Attached(s, feed), s.log, s.admitted)
    ensures Attached(s, feed).progress == s.st.lastSequence
  {
    SuffixCovers(s, feed.nextSequence);
    forall i | 0 <= i < |feed.backlog|
      ensures feed.backlog[i].runId.Some?
    {
      assert feed.backlog[i] in feed.backlog;
    }
    AttachedFields(s, feed);
  }

  lemma AttachKeepsDelivery(s: System, how: Attachment)
    requires DeliveryInv(s) && Enabled(s, Attach(how))
    ensures DeliveryInv(Next(s, Attach(how)))
  {
    if how.AtLive? {
      AttachLiveKeepsDelivery(s);
    } else {
      StepKeepsInv(s, Attach(how));
      var feed := if how.AtStart? then SubscribeFromStart(s.st).value
                  else SubscribeFromCursor(s.st, how.run, how.sequence).value;
      if how.AtStart? {
        FromAll(s.st.journal.value.groups, feed.nextSequence);
      }
      FeedKeepsDelivery(s, feed);
    }
  }

  lemma ReceiveKeepsDelivery(s: System)
    requires DeliveryInv(s) && Enabled(s, Receive)
    ensures DeliveryInv(Next(s, Receive))
  {
    StepKeepsInv(s, Receive);
    if s.watch.pos < |s.log| {
      assert s.log[s.watch.pos] in s.log;
    }
  }

  /** Recovery hands out groups of the journal only. */
  lemma RecoveredIsReceived(w: Watch, st: State, log: seq<EventGroup>, admitted: seq<EventGroup>, kernel: nat,
                            reported: nat)
    requires JournalInv(st, log, admitted, kernel) && Recover(st, w).Ok?
    ensures Received(w.(pos := reported, pending := Recover(st, w).value), log)
  {
    FromProperties(st.journal.value.groups, w.next.value);
  }

  lemma LaterIsReceived(w: Watch, log: seq<EventGroup>, reported: nat)
    requires Received(w, log) && w.pos <= reported
    ensures Received(w.(pos := reported, live := false), log)
  {
  }

  lemma LaggedKeepsDelivery(s: System, reported: nat)
    requires DeliveryInv(s) && Enabled(s, Lagged(reported))
    ensures DeliveryInv(Next(s, Lagged(reported)))
  {
    StepKeepsInv(s, Lagged(reported));
    if Recover(s.st, s.watch).Ok? {
      RecoveredIsReceived(s.watch, s.st, s.log, s.admitted, s.kernel, reported);
    } else {
      LaterIsReceived(s.watch, s.log, reported);
    }
    ComposeWatch(s, LaggedStep(s.watch, s.st, reported));
  }

  lemma ComposeWatch(s: System, w: Watch)
    requires DeliveryInv(s) && Inv(s.(watch := w))
    requires w.progress == s.watch.progress && w.sent == s.watch.sent && w.origin == s.watch.origin
    requires Received(w, s.log)
    ensures DeliveryInv(s.(watch := w))
  {
  }

  /** Whatever lies below a forwarded event was received before it, so it is done. */
  lemma BelowForwarded(s: System, g: EventGroup)
    requires DeliveryInv(s) && Enabled(s, Forward) && !Duplicate(s.watch, s.watch.pending[0])
    requires g in s.admitted && s.watch.origin <= g.sequence < s.watch.pending[0].sequence
    ensures Done(ForwardStep(s.watch), s.admitted, g)
  {
    var h := s.watch.pending[0];
    assert h in s.watch.pending;
    if Exhausted(s.watch) {
      assert Done(s.watch, s.admitted, g);
    } else if h.runId.Some? {
      NothingLeftBehind(s, g);
    } else {
      assert s.watch.pending == [h];
      var i :| 0 <= i < s.watch.pos && i < |s.log| && s.log[i] == h;
      OlderIsNotAhead(s.log, s.admitted, i, s.watch.pos, g);
      assert Done(s.watch, s.admitted, g);
    }
  }

  lemma OlderIsNotAhead(log: seq<EventGroup>, admitted: seq<EventGroup>, i: int, pos: nat, g: EventGroup)
    requires Interleaved(log, admitted) && 0 <= i < pos && i < |log| && log[i].runId.None?
    requires g in admitted && g.sequence < log[i].sequence
    ensures !Ahead(log, pos, g)
  {
  }

  lemma ForwardDelivers(s: System)
    requires DeliveryInv(s) && Enabled(s, Forward) && !Duplicate(s.watch, s.watch.pending[0])
    ensures Delivered(ForwardStep(s.watch), s.log, s.admitted)
  {
    var h := s.watch.pending[0];
    var w := ForwardStep(s.watch);
    assert h in s.watch.pending && h in s.log;
    forall g | g in s.admitted && w.origin <= g.sequence <= w.progress.value
      ensures Done(w, s.admitted, g) || (g.sequence == w.progress.value && Collides(s.log, g.sequence))
    {
      if g.sequence < h.sequence {
        BelowForwarded(s, g);
      } else if s.watch.progress.Some? && g.sequence <= s.watch.progress.value {
        assert Done(s.watch, s.admitted, g) ==> Done(w, s.admitted, g);
      } else {
        assert g.sequence == h.sequence == w.progress.value;
        if h.runId.Some? {
          SameSequenceSameGroup(s.log, s.kernel, g, h);
        } else {
          var i :| 0 <= i < |s.log| && s.log[i] == h;
          assert Collides(s.log, g.sequence);
        }
      }
    }
  }

  lemma SameSequenceSameGroup(log: seq<EventGroup>, kernel: nat, g: EventGroup, h: EventGroup)
    requires Ordered(log, kernel) && g in log && h in log
    requires g.runId.Some? && h.runId.Some? && g.sequence == h.sequence
    ensures g == h
  {
    var i :| 0 <= i < |log| && log[i] == g;
    var k :| 0 <= k < |log| && log[k] == h;
    assert i == k;
  }

  lemma ForwardKeepsReceived(w: Watch, log: seq<EventGroup>)
    requires Received(w, log) && w.pending != []
    ensures Received(ForwardStep(w), log)
  {
    assert forall g :: g in ForwardStep(w).pending ==> g in w.pending;
  }

  lemma ForwardKeepsReached(s: System)
    requires DeliveryInv(s) && s.watch.pending != []
    ensures Reached(s.log, s.kernel, ForwardStep(s.watch).progress)
  {
    var h := s.watch.pending[0];
    assert h in s.watch.pending && h in s.log;
    if !Duplicate(s.watch, h) {
      var i :| 0 <= i < |s.log| && s.log[i] == h;
      ReachedByLast(s.log, s.kernel, s.watch.progress, h);
    }
  }

  lemma ForwardKeepsDelivered(s: System)
    requires DeliveryInv(s) && Enabled(s, Forward)
    ensures Delivered(ForwardStep(s.watch), s.log, s.admitted)
  {
    if Duplicate(s.watch, s.watch.pending[0]) {
      var w := ForwardStep(s.watch);
      assert w.sent == s.watch.sent && w.progress == s.watch.progress && w.origin == s.watch.origin;
    } else {
      ForwardDelivers(s);
    }
  }

  lemma ForwardKeepsDelivery(s: System)
    requires DeliveryInv(s) && Enabled(s, Forward)
    ensures DeliveryInv(Next(s, Forward))
  {
    StepKeepsInv(s, Forward);
    ForwardKeepsReceived(s.watch, s.log);
    ForwardKeepsReached(s);
    ForwardKeepsDelivered(s);
    assert Next(s, Forward) == s.(watch := ForwardStep(s.watch));
  }

  lemma StepKeepsDelivery(s: System, step: Step)
    requires DeliveryInv(s) && Enabled(s, step)
    ensures DeliveryInv(Next(s, step))
  {
    match step
    case Emit(group, baseline) => EmitKeepsDelivery(s, group, baseline);
    case TerminalFallback => FallbackKeepsDelivery(s);
    case Attach(how) => AttachKeepsDelivery(s, how);
    case Receive => ReceiveKeepsDelivery(s);
    case Lagged(reported) => LaggedKeepsDelivery(s, reported);
    case Forward => ForwardKeepsDelivery(s);
    case Stop => StepKeepsInv(s, step);
  }

  // ---------------------------------------------------------------- the close request

  datatype Stage = ClosingKernel | Delivering(barrier: Option<Sequence>) | Answered(ok: bool)

  /** The watcher of `sys` is the one the request was accepted with, whose delivery the close waits on.
      A re-attach on the same connection cancels it and installs `newer` beside it; a cancelled watcher
      may still forward before it stops. `taken` are the groups the journals held when the barrier was
      read, and `queued` what the close's watcher had forwarded when the answer was given. */
  datatype Close = Close(
    sys: System,
    newer: Option<Watch>,
    stage: Stage,
    kernelResult: Option<bool>,
    removed: bool,
    taken: seq<EventGroup>,
    queued: Watch)

  datatype CloseStep =
    | Protocol(step: Step)
    | Reattach(how: Attachment)
    | Newer(step: Step)
    | KernelClosed(ok: bool)
    | GraceElapsed
    | KernelFailed
    | ReadBarrier
    | Confirm
    | Abandon
    | Forget

  predicate Confirmed(c: Close) {
    c.stage.Delivering? &&
    (c.stage.barrier.Some? ==>
       c.sys.watch.progress.Some? && c.sys.watch.progress.value >= c.stage.barrier.value)
  }

  /** The same projection and channel, as the newer watcher sees them. */
  function WithNewer(c: Close): System
    requires c.newer.Some?
  {
    c.sys.(watch := c.newer.value)
  }

  predicate CloseEnabled(c: Close, step: CloseStep) {
    match step
    case Protocol(step) => Enabled(c.sys, step) && !step.Attach? && !c.removed
    case Reattach(how) => Enabled(c.sys, Attach(how)) && !c.removed
    case Newer(step) => c.newer.Some? && (step.Receive? || step.Lagged? || step.Forward? || step.Stop?)
                          && Enabled(WithNewer(c), step)
    case KernelClosed(_) => c.kernelResult.None?
    case GraceElapsed => c.stage.ClosingKernel? && c.kernelResult.None?
    case KernelFailed => c.stage.ClosingKernel? && c.kernelResult == Some(false)
    case ReadBarrier => c.stage.ClosingKernel? && c.kernelResult == Some(true)
    case Confirm => Confirmed(c)
    case Abandon => c.stage.Delivering? && !c.sys.watch.live && !Confirmed(c)
    case Forget => c.kernelResult == Some(true) && c.stage.Answered?
  }

  function CloseNext(c: Close, step: CloseStep): Close
    requires CloseEnabled(c, step)
  {
    match step
    case Protocol(step) => c.(sys := Next(c.sys, step))
    case Reattach(how) => c.(newer := Some(Next(c.sys, Attach(how)).watch))
    case Newer(step) => c.(newer := Some(Next(WithNewer(c), step).watch))
    case KernelClosed(ok) => c.(kernelResult := Some(ok))
    case GraceElapsed => c.(stage := Answered(false))
    case KernelFailed => c.(stage := Answered(false))
    case ReadBarrier => c.(stage := Delivering(c.sys.st.lastSequence), taken := c.sys.admitted)
    case Confirm => c.(stage := Answered(true), queued := c.sys.watch)
    case Abandon => c.(stage := Answered(false))
    case Forget => c.(removed := true)
  }

  /** What a successful answer vouches for. */
  ghost predicate AnswerInv(c: Close) {
    && (c.removed ==> c.kernelResult == Some(true) && c.stage.Answered?)
    && (c.stage.Delivering? || c.stage == Answered(true) ==> c.kernelResult == Some(true))
    && (c.stage.Delivering? ==>
          && (forall g :: g in c.taken ==> g in c.sys.admitted)
          && (c.stage.barrier.None? ==> c.taken == [])
          && (c.stage.barrier.Some? ==> forall g :: g in c.taken ==> g.sequence <= c.stage.barrier.value))
    && (c.stage == Answered(true) ==>
          forall g :: g in c.taken && g.sequence >= c.queued.origin
                      ==> Done(c.queued, c.sys.admitted, g)
                          || (c.queued.progress == Some(g.sequence) && Collides(c.sys.log, g.sequence)))
  }

  /** The newest broadcast sequence bounds every group a journal took in. */
  ghost predicate Bounded(s: System) {
    (s.st.lastSequence.None? ==> s.admitted == []) &&
    (s.st.lastSequence.Some? ==> forall g :: g in s.admitted ==> g.sequence <= s.st.lastSequence.value)
  }

  lemma StepKeepsBounded(s: System, step: Step)
    requires Bounded(s) && Enabled(s, step)
    ensures Bounded(Next(s, step))
  {
  }

  /** Nothing the system remembers is ever forgotten. */
  lemma StepRemembers(s: System, step: Step)
    requires Enabled(s, step)
    ensures forall g :: g in s.admitted ==> g in Next(s, step).admitted
    ensures forall g :: Superseded(g, s.admitted) ==> Superseded(g, Next(s, step).admitted)
    ensures forall sequence: nat :: Collides(s.log, sequence) ==> Collides(Next(s, step).log, sequence)
  {
    var n := Next(s, step);
    forall g | Superseded(g, s.admitted)
      ensures Superseded(g, n.admitted)
    {
      SupersededGrows(g, s.admitted, n.admitted);
    }
    forall sequence: nat | Collides(s.log, sequence)
      ensures Collides(n.log, sequence)
    {
      var i :| 0 <= i < |s.log| && s.log[i].runId.None? && s.log[i].sequence == sequence;
      assert n.log[i] == s.log[i];
    }
  }

  lemma CloseStepKeeps(c: Close, step: CloseStep)
    requires CloseEnabled(c, step) && AnswerInv(c) && DeliveryInv(c.sys) && Bounded(c.sys)
    ensures var n := CloseNext(c, step); AnswerInv(n) && DeliveryInv(n.sys) && Bounded(n.sys)
  {
    match step
    case Protocol(inner) =>
      StepKeepsDelivery(c.sys, inner);
      StepKeepsBounded(c.sys, inner);
      StepRemembers(c.sys, inner);
    case Confirm =>
      var w := c.sys.watch;
      forall g | g in c.taken && g.sequence >= w.origin
        ensures Done(w, c.sys.admitted, g) || (w.progress == Some(g.sequence) && Collides(c.sys.log, g.sequence))
      {
        assert g.sequence <= c.stage.barrier.value;
      }
    case _ =>
  }

  function BeginClose(s: System): Close {
    Close(s, None, ClosingKernel, None, false, [], s.watch)
  }

  predicate PossibleClose(c: Close, run: seq<CloseStep>)
    decreases |run|
  {
    run == [] || (CloseEnabled(c, run[0]) && PossibleClose(CloseNext(c, run[0]), run[1..]))
  }

  function AfterClose(c: Close, run: seq<CloseStep>): Close
    requires PossibleClose(c, run)
    decreases |run|
  {
    if run == [] then c else AfterClose(CloseNext(c, run[0]), run[1..])
  }

  lemma {:induction false} CloseRunKeeps(c: Close, run: seq<CloseStep>)
    requires PossibleClose(c, run) && AnswerInv(c) && DeliveryInv(c.sys) && Bounded(c.sys)
    ensures var n := AfterClose(c, run); AnswerInv(n) && DeliveryInv(n.sys) && Bounded(n.sys)
    decreases |run|
  {
    if run != [] {
      CloseStepKeeps(c, run[0]);
      CloseRunKeeps(CloseNext(c, run[0]), run[1..]);
    }
  }

  lemma {:induction false} RunKeepsDelivery(s: System, run: seq<Step>)
    requires Possible(s, run) && DeliveryInv(s) && Bounded(s)
    ensures DeliveryInv(After(s, run)) && Bounded(After(s, run))
    decreases |run|
  {
    if run != [] {
      StepKeepsDelivery(s, run[0]);
      StepKeepsBounded(s, run[0]);
      RunKeepsDelivery(Next(s, run[0]), run[1..]);
    }
  }

  /** A close accepted in any reachable state, raced by anything: its successful answer follows every
      group the journals held at its barrier, forwarded or superseded, unless the group shares its
      sequence with a terminal fallback; it is given only when the Kernel closed the Session; and the
      projection is dropped only after the answer. */
  lemma SuccessfulCloseFollowsUpdates(s: System, run: seq<CloseStep>)
    requires Reachable(s) && PossibleClose(BeginClose(s), run)
    ensures var c := AfterClose(BeginClose(s), run);
            && (c.removed ==> c.stage.Answered? && c.kernelResult == Some(true))
            && (c.stage == Answered(true) ==> c.kernelResult == Some(true))
            && (c.stage == Answered(true) ==>
                  forall g :: g in c.taken && g.sequence >= c.queued.origin && !Collides(c.sys.log, g.sequence)
                              ==> g in c.queued.sent || Superseded(g, c.sys.admitted))
  {
    var capacity: nat, before: seq<Step> :| Reaches(capacity, before, s);
    RunKeepsDelivery(Initial(capacity), before);
    CloseRunKeeps(BeginClose(s), run);
  }

  lemma FirstFallbackForwarded() returns (s: System)
    ensures Reachable(s) && s.st == Fallback(INITIAL).0 && s.log == [FallbackGroup(1)] && s.admitted == [] && s.kernel == 0
    ensures s.watch.sent == [FallbackGroup(1)] && s.watch.progress == Some(1) && s.watch.origin == 1
    ensures s.watch.live && s.watch.pending == [] && s.watch.pos == |s.log|
  {
    ReachableInitial(8);
    ReachableStep(Initial(8), Attach(AtLive));
    var s1 := Next(Initial(8), Attach(AtLive));
    ReachableStep(s1, TerminalFallback);
    var s2 := Next(s1, TerminalFallback);
    assert s2.log == [FallbackGroup(1)];
    ReachableStep(s2, Receive);
    var s3 := Next(s2, Receive);
    assert s3.watch.pending == [FallbackGroup(1)];
    ReachableStep(s3, Forward);
    s := Next(s3, Forward);
    assert s.watch.sent == [FallbackGroup(1)];
  }

  // ---------------------------------------------------------------- answers that come early

  /** A fallback that took the Kernel's next sequence leaves no journal to recover from, and once it was
      received it is waiting or covered by the progress. */
  ghost predicate FallbackNext(w: Watch, st: State, log: seq<EventGroup>, kernel: nat) {
    forall i :: 0 <= i < |log| && log[i].runId.None? && log[i].sequence == kernel + 1 ==>
      && (st.journal.None? || !st.journal.value.incremental)
      && (w.live && i < w.pos ==> log[i] in w.pending || (w.progress.Some? && w.progress.value >= kernel + 1))
  }

  ghost predicate Newest(st: State, log: seq<EventGroup>) {
    forall g :: g in log ==> st.lastSequence.Some? && g.sequence <= st.lastSequence.value
  }

  ghost predicate EarlyInv(s: System) {
    && FallbackNext(s.watch, s.st, s.log, s.kernel)
    && Newest(s.st, s.log)
    && s.watch.origin <= s.kernel + 1
  }

  lemma EmitKeepsEarly(s: System, group: EventGroup, baseline: seq<string>)
    requires DeliveryInv(s) && EarlyInv(s) && Enabled(s, Emit(group, baseline))
    ensures EarlyInv(Emitted(s, group, baseline))
  {
  }

  lemma FallbackKeepsEarly(s: System)
    requires DeliveryInv(s) && EarlyInv(s)
    ensures EarlyInv(FellBack(s))
  {
  }

  lemma FreshIsEarly(s: System, w: Watch)
    requires EarlyInv(s) && w.pos == |s.log| && w.progress == s.st.lastSequence && w.origin <= s.kernel + 1
    ensures EarlyInv(s.(watch := w))
  {
  }

  lemma AttachKeepsEarly(s: System, how: Attachment)
    requires DeliveryInv(s) && EarlyInv(s) && Enabled(s, Attach(how))
    ensures EarlyInv(Next(s, Attach(how)))
  {
    if !how.AtLive? {
      var feed := if how.AtStart? then SubscribeFromStart(s.st).value
                  else SubscribeFromCursor(s.st, how.run, how.sequence).value;
      if how.AtStart? {
        FromAll(s.st.journal.value.groups, feed.nextSequence);
      }
      FeedKeepsDelivery(s, feed);
      BacklogIsGrouped(s, feed);
      AttachedSent(s, feed);
    }
    FreshIsEarly(s, AttachStep(s, how).value);
  }

  lemma ForwardKeepsEarly(s: System)
    requires Inv(s) && EarlyInv(s) && Enabled(s, Forward)
    ensures EarlyInv(Next(s, Forward))
  {
    var w := ForwardStep(s.watch);
    forall i | 0 <= i < |s.log| && s.log[i].runId.None? && s.log[i].sequence == s.kernel + 1 && i < w.pos
      ensures s.log[i] in w.pending || (w.progress.Some? && w.progress.value >= s.kernel + 1)
    {
      assert s.watch.pending == [s.watch.pending[0]] + w.pending;
      assert s.log[i] == s.watch.pending[0] ==> !Duplicate(s.watch, s.log[i]);
    }
  }

  lemma StepKeepsEarly(s: System, step: Step)
    requires DeliveryInv(s) && EarlyInv(s) && Enabled(s, step)
    ensures EarlyInv(Next(s, step))
  {
    match step
    case Emit(group, baseline) => EmitKeepsEarly(s, group, baseline);
    case TerminalFallback => FallbackKeepsEarly(s);
    case Attach(how) => AttachKeepsEarly(s, how);
    case Forward => ForwardKeepsEarly(s);
    case Receive =>
    case Lagged(_) =>
    case Stop =>
  }

  lemma {:induction false} RunKeepsEarly(s: System, run: seq<Step>)
    requires Possible(s, run) && DeliveryInv(s) && EarlyInv(s)
    ensures DeliveryInv(After(s, run)) && EarlyInv(After(s, run))
    decreases |run|
  {
    if run != [] {
      StepKeepsDelivery(s, run[0]);
      StepKeepsEarly(s, run[0]);
      RunKeepsEarly(Next(s, run[0]), run[1..]);
    }
  }

  /** A close whose barrier is read after one more group entered the journal, with nothing forwarded since. */
  function ClosedAfter(group: EventGroup, baseline: seq<string>): seq<CloseStep> {
    [Protocol(Emit(group, baseline)), KernelClosed(true), ReadBarrier]
  }

  /** In every reachable state a caught-up watcher's close is answered before the next group of the
      journal is forwarded exactly when a fallback took that group's sequence. */
  lemma EarlyAnswerExactly(s: System, group: EventGroup, baseline: seq<string>)
    requires Reachable(s) && s.watch.live && s.watch.pending == [] && s.watch.pos == |s.log|
    requires Enabled(s, Emit(group, baseline)) && TakesIn(s.st, group)
    ensures PossibleClose(BeginClose(s), ClosedAfter(group, baseline))
    ensures var c := AfterClose(BeginClose(s), ClosedAfter(group, baseline));
            && group in c.taken && group !in c.sys.watch.sent && !Superseded(group, c.sys.admitted)
            && group.sequence >= c.sys.watch.origin
            && (CloseEnabled(c, Confirm) <==> Collides(s.log, group.sequence))
  {
    ReachableEarly(s);
    BarrierCovers(s, group);
    NotForwardedYet(s, group);
    BarrierRead(s, group, baseline);
    ConfirmedExactly(AfterClose(BeginClose(s), ClosedAfter(group, baseline)), s, group);
  }

  lemma ReachableEarly(s: System)
    requires Reachable(s)
    ensures DeliveryInv(s) && EarlyInv(s)
  {
    var capacity: nat, before: seq<Step> :| Reaches(capacity, before, s);
    RunKeepsEarly(Initial(capacity), before);
  }

  lemma ConfirmedExactly(c: Close, s: System, group: EventGroup)
    requires c.stage == Delivering(Later(s.st.lastSequence, group.sequence)) && c.sys.watch == s.watch
    ensures CloseEnabled(c, Confirm) <==>
              s.watch.progress.Some? && s.watch.progress.value >= Later(s.st.lastSequence, group.sequence).value
  {
  }

  /** Where the three steps lead. */
  lemma BarrierRead(s: System, group: EventGroup, baseline: seq<string>)
    requires Enabled(s, Emit(group, baseline)) && TakesIn(s.st, group)
    ensures PossibleClose(BeginClose(s), ClosedAfter(group, baseline))
    ensures var c := AfterClose(BeginClose(s), ClosedAfter(group, baseline));
            && c.stage == Delivering(Later(s.st.lastSequence, group.sequence))
            && c.taken == s.admitted + [group] == c.sys.admitted && c.sys.watch == s.watch
  {
    var b0 := BeginClose(s);
    var steps := ClosedAfter(group, baseline);
    var b1 := CloseNext(b0, steps[0]);
    var b2 := CloseNext(b1, steps[1]);
    var b3 := CloseNext(b2, steps[2]);
    assert steps[1..] == [steps[1], steps[2]] && [steps[1], steps[2]][1..] == [steps[2]] && [steps[2]][1..] == [];
    assert PossibleClose(b3, []) && AfterClose(b3, []) == b3;
    assert PossibleClose(b2, [steps[2]]) && AfterClose(b2, [steps[2]]) == b3;
    assert PossibleClose(b1, steps[1..]) && AfterClose(b1, steps[1..]) == b3;
  }

  lemma BarrierCovers(s: System, group: EventGroup)
    requires DeliveryInv(s) && EarlyInv(s)
    requires s.watch.live && s.watch.pending == [] && s.watch.pos == |s.log| && s.kernel < group.sequence
    ensures var barrier := Later(s.st.lastSequence, group.sequence).value;
            (s.watch.progress.Some? && s.watch.progress.value >= barrier) <==> Collides(s.log, group.sequence)
  {
    if Collides(s.log, group.sequence) {
      var i :| 0 <= i < |s.log| && s.log[i].runId.None? && s.log[i].sequence == group.sequence;
      assert group.sequence == s.kernel + 1;
    }
  }

  lemma NotForwardedYet(s: System, group: EventGroup)
    requires Inv(s) && s.watch.live && s.kernel < group.sequence && group.runId.Some?
    ensures group !in s.watch.sent && !Superseded(group, s.admitted + [group])
  {
    assert !Exhausted(s.watch);
    assert forall g :: g in s.admitted ==> g in s.log && g.sequence <= s.kernel;
  }

  /** A successful answer sent before a group it vouches for. */
  ghost predicate EarlyAnswer(c: Close) {
    c.stage == Answered(true) &&
    exists g :: g in c.taken && g.sequence >= c.queued.origin && g !in c.queued.sent && !Superseded(g, c.sys.admitted)
  }

  /** It happens: a fallback published before any Operation takes sequence one, and a close that follows
      the first Start confirms it without the Start having been forwarded. */
  lemma CollisionAnswersEarly()
    ensures exists s: System, run: seq<CloseStep> ::
              Reachable(s) && PossibleClose(BeginClose(s), run) && EarlyAnswer(AfterClose(BeginClose(s), run))
  {
    var s := FirstFallbackForwarded();
    var start := Grouped("run", 1, Some(Start));
    assert s.log[0].runId.None? && Collides(s.log, 1);
    EarlyAnswerExactly(s, start, []);
    var c := AfterClose(BeginClose(s), ClosedAfter(start, []));
    var run := ClosedAfter(start, []) + [Confirm];
    CloseSnoc(BeginClose(s), ClosedAfter(start, []), Confirm);
    assert EarlyAnswer(AfterClose(BeginClose(s), run));
  }

  lemma {:induction false} CloseSnoc(c: Close, run: seq<CloseStep>, step: CloseStep)
    requires PossibleClose(c, run) && CloseEnabled(AfterClose(c, run), step)
    ensures PossibleClose(c, run + [step]) && AfterClose(c, run + [step]) == CloseNext(AfterClose(c, run), step)
    decreases |run|
  {
    if run == [] {
      assert [step][1..] == [];
    } else {
      assert (run + [step])[1..] == run[1..] + [step];
      CloseSnoc(CloseNext(c, run[0]), run[1..], step);
    }
  }

  // ---------------------------------------------------------------- progress never decreases

  lemma {:induction false} ProgressNeverDecreases(s: System, run: seq<Step>)
    requires Possible(s, run) && s.watch.progress.Some?
    requires forall i :: 0 <= i < |run| ==> !run[i].Attach?
    ensures After(s, run).watch.progress.Some?
    ensures After(s, run).watch.progress.value >= s.watch.progress.value
    decreases |run|
  {
    if run != [] {
      assert !run[0].Attach?;
      assert forall i :: 0 <= i < |run[1..]| ==> run[1..][i] == run[i + 1];
      ProgressNeverDecreases(Next(s, run[0]), run[1..]);
    }
  }
}
