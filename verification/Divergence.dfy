/** When a caught-up client shows another state than the projection, over every run of the watcher
    protocol: Operations may overlap, as they do while the handler of an extension slash command runs
    without the session's gate, and any event may arrive late. */
module Divergence {
  import opened Wrappers
  import opened Projection
  import opened Journals
  import opened WatchProtocol
  import opened WatchGuarantees
  import opened Convergence
  import opened Sink
  import opened BracketedRuns

  /** The protocol with what one attachment started from, and the positions of the stream whose events
      the watcher forwarded since. */
  datatype Followed = Followed(sys: System, attachAt: nat, base: Foreground, forwarded: set<nat>)

  /** Where a group first appears in the stream. */
  function IndexOf(log: seq<EventGroup>, group: EventGroup): (i: nat)
    ensures group in log ==> i < |log| && log[i] == group
  {
    if log == [] || log[0] == group then 0 else 1 + IndexOf(log[1..], group)
  }

  /** The position of the group that is forwarded next: an ungrouped one was just received. */
  function Position(log: seq<EventGroup>, w: Watch): nat
    requires w.pending != []
  {
    if w.pending[0].runId.Some? then IndexOf(log, w.pending[0]) else if w.pos > 0 then w.pos - 1 else 0
  }

  function FollowedNext(f: Followed, step: Step): Followed
    requires Enabled(f.sys, step)
  {
    var n := Next(f.sys, step);
    match step
    case Attach(_) => Followed(n, |n.log|, n.st.foreground, {})
    case Forward =>
      if Duplicate(f.sys.watch, f.sys.watch.pending[0]) then f.(sys := n)
      else f.(sys := n, forwarded := f.forwarded + {Position(f.sys.log, f.sys.watch)})
    case _ => f.(sys := n)
  }

  /** All that is asked of an emission: a snapshot that later ones replace sets no state. */
  predicate SilentSnapshot(step: Step) {
    step.Emit? && Sets(step.group).Some? ==> step.group.snapshotOf.None?
  }

  /** Every group of the sink meets it, whatever it read as the active Operation. */
  lemma SinkIsSilent(active: Option<Operation>, event: Event, baseline: seq<string>)
    ensures SilentSnapshot(Emit(GroupOf(active, event), baseline)) && WellFormed(GroupOf(active, event))
  {
    UpdatesReport(event.payload);
  }

  // ---------------------------------------------------------------- the stream

  /** Nothing precedes a grouped event with a greater sequence. */
  ghost predicate StreamOrder(log: seq<EventGroup>, kernel: nat) {
    && (forall i, k :: 0 <= i < k < |log| && log[k].runId.Some? ==> log[i].sequence <= log[k].sequence)
    && (forall i :: 0 <= i < |log| ==> log[i].sequence <= kernel + 1)
  }

  ghost predicate Silent(log: seq<EventGroup>) {
    forall g :: g in log && Sets(g).Some? ==> g.snapshotOf.None?
  }

  /** The projection's state against the one at the attachment. */
  ghost predicate StateSince(log: seq<EventGroup>, attachAt: nat, base: Foreground, foreground: Foreground) {
    && attachAt <= |log|
    && (Quiet(log, attachAt) ==> foreground == base)
    && (forall k :: LastSetting(log, k) && attachAt <= k ==> foreground == Sets(log[k]).value)
  }

  lemma {:induction false} IndexOfPrefix(log: seq<EventGroup>, more: EventGroup, group: EventGroup)
    requires group in log
    ensures IndexOf(log + [more], group) == IndexOf(log, group)
  {
    if log[0] != group {
      assert (log + [more])[1..] == log[1..] + [more];
      IndexOfPrefix(log[1..], more, group);
    }
  }

  /** A grouped event appears once. */
  lemma GroupedPosition(log: seq<EventGroup>, kernel: nat, i: nat)
    requires Ordered(log, kernel) && i < |log| && log[i].runId.Some?
    ensures IndexOf(log, log[i]) == i
  {
    var k := IndexOf(log, log[i]);
    assert log[i] in log && log[k] == log[i];
  }

  lemma StateGrows(log: seq<EventGroup>, attachAt: nat, base: Foreground, before: Foreground, group: EventGroup)
    requires StateSince(log, attachAt, base, before)
    ensures StateSince(log + [group], attachAt, base, ApplyUpdates(before, group.updates))
  {
    var more := log + [group];
    ApplyReported(before, group.updates);
    forall k | LastSetting(more, k) && attachAt <= k
      ensures ApplyUpdates(before, group.updates) == Sets(more[k]).value
    {
      if k < |log| {
        QuietPrefix(log, group, k + 1);
        assert LastSetting(log, k);
      }
    }
    if Quiet(more, attachAt) {
      QuietPrefix(log, group, attachAt);
    }
  }

  // ---------------------------------------------------------------- what was forwarded

  /** Where the forwarded events lie: behind the cursor, or behind what is being received. */
  ghost predicate Placed(w: Watch, log: seq<EventGroup>, attachAt: nat, forwarded: set<nat>) {
    forall i :: i in forwarded ==>
      && i < |log|
      && (log[i].runId.Some? ==> w.next.Some? && log[i].sequence < w.next.value)
      && (log[i].runId.None? ==> i < w.pos && (w.pending != [] && w.pending[0].runId.None? ==> i < w.pos - 1))
      && (Sets(log[i]).Some? ==> attachAt <= i)
  }

  /** The newest forwarded event that sets a state. */
  ghost predicate Newest(log: seq<EventGroup>, forwarded: set<nat>, m: nat) {
    && m in forwarded && m < |log| && Sets(log[m]).Some?
    && forall i :: i in forwarded && i < |log| && Sets(log[i]).Some? ==> i <= m
  }

  /** The client shows the newest state forwarded to it. */
  ghost predicate Shows(client: Foreground, log: seq<EventGroup>, base: Foreground, forwarded: set<nat>) {
    && ((forall i :: i in forwarded && i < |log| ==> Sets(log[i]).None?) ==> client == base)
    && (forall m: nat :: Newest(log, forwarded, m) ==> client == Sets(log[m]).value)
  }

  /** A received group that sets a state lies after every ungrouped event forwarded before. */
  ghost predicate Upcoming(w: Watch, log: seq<EventGroup>, attachAt: nat, forwarded: set<nat>) {
    && (forall g :: g in w.pending ==> g in log && (g.runId.Some? ==> g.sequence >= w.origin))
    && (w.pending != [] && w.pending[0].runId.None? ==>
          attachAt < w.pos <= |log| && w.pending == [log[w.pos - 1]])
    && (forall g :: g in w.pending && g.runId.Some? && Sets(g).Some? ==> attachAt <= IndexOf(log, g))
    && (forall g, i :: (g in w.pending && g.runId.Some? && Sets(g).Some?
                        && i in forwarded && i < |log| && log[i].runId.None?) ==> i < IndexOf(log, g))
  }

  ghost predicate Counted(w: Watch, log: seq<EventGroup>, attachAt: nat, forwarded: set<nat>) {
    forall i :: attachAt <= i < |log| && log[i].runId.Some? && log[i] in w.sent ==> i in forwarded
  }

  ghost predicate Since(w: Watch, log: seq<EventGroup>, attachAt: nat) {
    && attachAt <= w.pos <= |log|
    && (w.next.Some? ==> w.next.value >= w.origin)
    && (forall i :: attachAt <= i < |log| && log[i].runId.Some? ==> log[i].sequence >= w.origin)
  }

  ghost predicate FollowInv(w: Watch, log: seq<EventGroup>, attachAt: nat, base: Foreground, forwarded: set<nat>) {
    && Since(w, log, attachAt)
    && Placed(w, log, attachAt, forwarded)
    && Upcoming(w, log, attachAt, forwarded)
    && Counted(w, log, attachAt, forwarded)
    && Shows(w.client, log, base, forwarded)
  }

  ghost predicate FollowedInv(f: Followed) {
    && Inv(f.sys)
    && StreamOrder(f.sys.log, f.sys.kernel) && Silent(f.sys.log)
    && StateSince(f.sys.log, f.attachAt, f.base, f.sys.st.foreground)
    && (Following(f.sys.watch) ==>
          && FollowInv(f.sys.watch, f.sys.log, f.attachAt, f.base, f.forwarded)
          && f.sys.watch.origin <= f.sys.kernel + 1)
  }

  // ---------------------------------------------------------------- the stream grows

  lemma GrowthKeepsPlaced(w: Watch, log: seq<EventGroup>, attachAt: nat, forwarded: set<nat>, group: EventGroup)
    requires Placed(w, log, attachAt, forwarded)
    ensures Placed(w, log + [group], attachAt, forwarded)
  {
  }

  lemma GrowthKeepsUpcoming(w: Watch, log: seq<EventGroup>, attachAt: nat, forwarded: set<nat>, group: EventGroup)
    requires Upcoming(w, log, attachAt, forwarded) && Placed(w, log, attachAt, forwarded)
    ensures Upcoming(w, log + [group], attachAt, forwarded)
  {
    var more := log + [group];
    assert forall i :: 0 <= i < |log| ==> more[i] == log[i];
    forall g | g in w.pending
      ensures IndexOf(more, g) == IndexOf(log, g)
    {
      IndexOfPrefix(log, group, g);
    }
  }

  lemma GrowthKeepsShows(client: Foreground, log: seq<EventGroup>, base: Foreground, forwarded: set<nat>,
                         group: EventGroup)
    requires Shows(client, log, base, forwarded) && forall i :: i in forwarded ==> i < |log|
    ensures Shows(client, log + [group], base, forwarded)
  {
    var more := log + [group];
    assert forall i :: 0 <= i < |log| ==> more[i] == log[i];
    forall m | Newest(more, forwarded, m)
      ensures Newest(log, forwarded, m)
    {
    }
    if forall i :: i in forwarded && i < |more| ==> Sets(more[i]).None? {
      forall i | i in forwarded && i < |log|
        ensures Sets(log[i]).None?
      {
        assert more[i] == log[i];
      }
    }
  }

  lemma GrowthKeepsFollow(w: Watch, log: seq<EventGroup>, attachAt: nat, base: Foreground, forwarded: set<nat>,
                          group: EventGroup)
    requires FollowInv(w, log, attachAt, base, forwarded)
    requires group.runId.Some? ==> group.sequence >= w.origin && group !in w.sent
    ensures FollowInv(w, log + [group], attachAt, base, forwarded)
  {
    assert forall i :: 0 <= i < |log| ==> (log + [group])[i] == log[i];
    GrowthKeepsPlaced(w, log, attachAt, forwarded, group);
    GrowthKeepsUpcoming(w, log, attachAt, forwarded, group);
    GrowthKeepsShows(w.client, log, base, forwarded, group);
  }

  lemma EmissionKeepsStream(log: seq<EventGroup>, kernel: nat, group: EventGroup)
    requires StreamOrder(log, kernel) && kernel < group.sequence
    ensures StreamOrder(log + [group], group.sequence) && StreamOrder(log, group.sequence)
  {
  }

  lemma EmitKeeps(f: Followed, group: EventGroup, baseline: seq<string>)
    requires FollowedInv(f) && Enabled(f.sys, Emit(group, baseline)) && SilentSnapshot(Emit(group, baseline))
    ensures FollowedInv(FollowedNext(f, Emit(group, baseline)))
  {
    var s := f.sys;
    StepKeepsInv(s, Emit(group, baseline));
    EmissionKeepsStream(s.log, s.kernel, group);
    if Append(s.st, group, baseline).Ok? {
      StateGrows(s.log, f.attachAt, f.base, s.st.foreground, group);
      if Following(s.watch) {
        NotSentYet(s.watch, s.admitted, s.kernel, group);
        GrowthKeepsFollow(s.watch, s.log, f.attachAt, f.base, f.forwarded, group);
      }
    }
  }

  lemma NotSentYet(w: Watch, admitted: seq<EventGroup>, kernel: nat, group: EventGroup)
    requires CursorInv(w, admitted, kernel) && kernel < group.sequence
    ensures group.runId.Some? ==> group !in w.sent
  {
  }

  lemma FallbackKeepsOrder(st: State, log: seq<EventGroup>, admitted: seq<EventGroup>, kernel: nat)
    requires StreamOrder(log, kernel) && Silent(log) && JournalInv(st, log, admitted, kernel) && Fallback(st).1.Some?
    ensures StreamOrder(log + [Fallback(st).1.value], kernel) && Silent(log + [Fallback(st).1.value])
  {
  }

  lemma FallbackKeepsFollowed(f: Followed)
    requires FollowedInv(f)
    ensures FollowedInv(FollowedNext(f, TerminalFallback))
  {
    var s := f.sys;
    StepKeepsInv(s, TerminalFallback);
    if Fallback(s.st).1.Some? {
      var terminal := Fallback(s.st).1.value;
      FallbackKeepsOrder(s.st, s.log, s.admitted, s.kernel);
      StateGrows(s.log, f.attachAt, f.base, s.st.foreground, terminal);
      if Following(s.watch) {
        GrowthKeepsFollow(s.watch, s.log, f.attachAt, f.base, f.forwarded, terminal);
      }
    } else {
      assert FellBack(s).log == s.log;
    }
  }

  // ---------------------------------------------------------------- the watcher moves

  lemma FreshFollow(s: System, w: Watch)
    requires w.pos == |s.log| && w.pending == [] && (w.next.Some? ==> w.next.value >= w.origin)
    ensures FollowInv(w, s.log, |s.log|, w.client, {})
    ensures StateSince(s.log, |s.log|, s.st.foreground, s.st.foreground)
  {
  }

  lemma AttachKeepsFollowed(f: Followed, how: Attachment)
    requires FollowedInv(f) && Enabled(f.sys, Attach(how))
    ensures FollowedInv(FollowedNext(f, Attach(how)))
  {
    var s := f.sys;
    var w := AttachStep(s, how).value;
    StepKeepsInv(s, Attach(how));
    if !how.AtLive? {
      var feed := if how.AtStart? then SubscribeFromStart(s.st).value
                  else SubscribeFromCursor(s.st, how.run, how.sequence).value;
      if how.AtStart? {
        FromAll(s.st.journal.value.groups, feed.nextSequence);
      }
      AttachedCursor(s, feed);
    }
    FreshFollow(s, w);
  }

  lemma ReceiveKeepsUpcoming(w: Watch, log: seq<EventGroup>, kernel: nat, attachAt: nat, forwarded: set<nat>)
    requires Since(w, log, attachAt) && Placed(w, log, attachAt, forwarded) && Ordered(log, kernel)
    requires w.pending == [] && w.pos < |log|
    ensures Upcoming(Received(w, log), log, attachAt, forwarded)
  {
    var h := log[w.pos];
    if h.runId.Some? {
      GroupedPosition(log, kernel, w.pos);
    }
  }

  lemma ReceiveKeepsFollow(w: Watch, log: seq<EventGroup>, kernel: nat, attachAt: nat, base: Foreground,
                           forwarded: set<nat>)
    requires FollowInv(w, log, attachAt, base, forwarded) && Ordered(log, kernel)
    requires w.pending == [] && w.pos < |log|
    ensures FollowInv(Received(w, log), log, attachAt, base, forwarded)
  {
    ReceiveKeepsUpcoming(w, log, kernel, attachAt, forwarded);
  }

  /** A group of the journal that sets a state and was not forwarded yet lies ahead of the receiver. */
  lemma RecoveredLiesAhead(w: Watch, log: seq<EventGroup>, admitted: seq<EventGroup>, kernel: nat, g: EventGroup)
    requires CursorInv(w, admitted, kernel) && CoverageInv(w, log, admitted) && Ordered(log, kernel)
    requires w.pending == [] && w.next.Some? && w.next.value >= w.origin
    requires g in admitted && g.runId.Some? && g.sequence >= w.next.value && g.snapshotOf.None?
    ensures g in log && w.pos <= IndexOf(log, g)
  {
    assert g !in w.sent && !Superseded(g, admitted);
    var i :| w.pos <= i < |log| && log[i] == g;
    GroupedPosition(log, kernel, i);
  }

  lemma LaggedKeepsUpcoming(w: Watch, st: State, log: seq<EventGroup>, admitted: seq<EventGroup>, kernel: nat,
                            attachAt: nat, forwarded: set<nat>, reported: nat)
    requires Since(w, log, attachAt) && Placed(w, log, attachAt, forwarded) && w.pending == [] && Silent(log)
    requires CursorInv(w, admitted, kernel) && CoverageInv(w, log, admitted) && Ordered(log, kernel)
    requires JournalInv(st, log, admitted, kernel) && Recover(st, w).Ok?
    ensures Upcoming(w.(pos := reported, pending := Recover(st, w).value), log, attachAt, forwarded)
  {
    var pending := Recover(st, w).value;
    RecoveredIsGrouped(w, st, log, admitted, kernel);
    forall g | g in pending && Sets(g).Some?
      ensures w.pos <= IndexOf(log, g)
    {
      RecoveredLiesAhead(w, log, admitted, kernel, g);
    }
    if pending != [] {
      assert pending[0] in pending;
    }
  }

  lemma RecoveredIsGrouped(w: Watch, st: State, log: seq<EventGroup>, admitted: seq<EventGroup>, kernel: nat)
    requires JournalInv(st, log, admitted, kernel) && Recover(st, w).Ok?
    ensures forall g :: g in Recover(st, w).value ==> g in log && g in admitted && g.runId.Some? && g.sequence >= w.next.value
  {
    FromProperties(st.journal.value.groups, w.next.value);
  }

  lemma LaggedKeepsFollow(w: Watch, st: State, log: seq<EventGroup>, admitted: seq<EventGroup>, kernel: nat,
                          attachAt: nat, base: Foreground, forwarded: set<nat>, reported: nat)
    requires FollowInv(w, log, attachAt, base, forwarded) && w.pending == [] && Silent(log) && w.pos <= reported <= |log|
    requires CursorInv(w, admitted, kernel) && CoverageInv(w, log, admitted) && Ordered(log, kernel)
    requires JournalInv(st, log, admitted, kernel) && Recover(st, w).Ok?
    ensures FollowInv(w.(pos := reported, pending := Recover(st, w).value), log, attachAt, base, forwarded)
  {
    LaggedKeepsUpcoming(w, st, log, admitted, kernel, attachAt, forwarded, reported);
    RecoveredIsGrouped(w, st, log, admitted, kernel);
    MovedKeepsFollow(w, log, attachAt, base, forwarded, reported, Recover(st, w).value);
  }

  lemma MovedKeepsFollow(w: Watch, log: seq<EventGroup>, attachAt: nat, base: Foreground, forwarded: set<nat>,
                         pos: nat, pending: seq<EventGroup>)
    requires FollowInv(w, log, attachAt, base, forwarded) && w.pos <= pos <= |log|
    requires pending != [] ==> pending[0].runId.Some?
    requires Upcoming(w.(pos := pos, pending := pending), log, attachAt, forwarded)
    ensures FollowInv(w.(pos := pos, pending := pending), log, attachAt, base, forwarded)
  {
  }

  // ---------------------------------------------------------------- forwarding

  lemma OlderComesFirst(log: seq<EventGroup>, kernel: nat, i: nat, k: nat)
    requires StreamOrder(log, kernel) && i < |log| && k < |log| && log[i].runId.Some?
    requires log[i].sequence < log[k].sequence
    ensures i < k
  {
  }

  /** A group that is not filtered and sets a state is newer than everything forwarded that did. */
  lemma ForwardedIsNewest(w: Watch, log: seq<EventGroup>, kernel: nat, attachAt: nat, forwarded: set<nat>)
    requires Placed(w, log, attachAt, forwarded) && Upcoming(w, log, attachAt, forwarded)
    requires Ordered(log, kernel) && StreamOrder(log, kernel) && w.pending != [] && !Duplicate(w, w.pending[0])
    requires Sets(w.pending[0]).Some?
    ensures var p := Position(log, w);
            p < |log| && log[p] == w.pending[0] && attachAt <= p
            && forall i :: i in forwarded && i < |log| && Sets(log[i]).Some? ==> i < p
  {
    var h, p := w.pending[0], Position(log, w);
    assert h in w.pending && h in log && log[p] == h;
    forall i | i in forwarded && i < |log| && Sets(log[i]).Some?
      ensures i < p
    {
      if log[i].runId.Some? {
        OlderComesFirst(log, kernel, i, p);
      }
    }
  }

  lemma PositionIsPending(w: Watch, log: seq<EventGroup>, attachAt: nat, forwarded: set<nat>)
    requires Upcoming(w, log, attachAt, forwarded) && w.pending != []
    ensures var p := Position(log, w); p < |log| && log[p] == w.pending[0]
  {
    assert w.pending[0] in w.pending;
  }

  lemma ForwardKeepsShows(w: Watch, log: seq<EventGroup>, base: Foreground, forwarded: set<nat>, p: nat)
    requires Shows(w.client, log, base, forwarded) && w.pending != [] && !Duplicate(w, w.pending[0])
    requires p < |log| && log[p] == w.pending[0]
    requires Sets(log[p]).Some? ==> forall i :: i in forwarded && i < |log| && Sets(log[i]).Some? ==> i < p
    ensures Shows(ForwardStep(w).client, log, base, forwarded + {p})
  {
    ApplyReported(w.client, w.pending[0].updates);
    if Sets(log[p]).None? {
      assert forall m: nat :: Newest(log, forwarded + {p}, m) ==> Newest(log, forwarded, m);
    } else {
      assert forall m: nat :: Newest(log, forwarded + {p}, m) ==> m == p;
    }
  }

  lemma ForwardKeepsPlaced(w: Watch, log: seq<EventGroup>, attachAt: nat, forwarded: set<nat>, p: nat)
    requires Placed(w, log, attachAt, forwarded) && w.pending != [] && !Duplicate(w, w.pending[0])
    requires p < |log| && log[p] == w.pending[0] && (Sets(log[p]).Some? ==> attachAt <= p)
    requires w.pending[0].runId.None? ==> |w.pending| == 1 && p < w.pos
    requires w.pending[0].runId.Some? ==> w.pending[0].sequence < MAX_SAFE_INTEGER
    requires |w.pending| > 1 ==> w.pending[1].runId.Some?
    ensures Placed(ForwardStep(w), log, attachAt, forwarded + {p})
  {
  }

  lemma ForwardKeepsUpcoming(w: Watch, log: seq<EventGroup>, attachAt: nat, forwarded: set<nat>, p: nat)
    requires Upcoming(w, log, attachAt, forwarded) && w.pending != []
    requires p < |log| && log[p] == w.pending[0]
    requires |w.pending| > 1 ==> forall g :: g in w.pending ==> g.runId.Some?
    ensures Upcoming(ForwardStep(w), log, attachAt, forwarded)
    ensures Upcoming(ForwardStep(w), log, attachAt, forwarded + {p})
  {
    var rest := w.pending[1..];
    assert forall g :: g in rest ==> g in w.pending;
    if rest != [] {
      assert rest[0] in rest && w.pending[0] in w.pending;
    }
  }

  lemma ForwardKeepsCounted(w: Watch, log: seq<EventGroup>, kernel: nat, attachAt: nat, forwarded: set<nat>, p: nat)
    requires Counted(w, log, attachAt, forwarded) && Ordered(log, kernel) && w.pending != []
    requires p < |log| && log[p] == w.pending[0]
    ensures Counted(ForwardStep(w), log, attachAt, forwarded + {p})
  {
    forall i | attachAt <= i < |log| && log[i].runId.Some? && log[i] in ForwardStep(w).sent
      ensures i in forwarded + {p}
    {
      if log[i] == log[p] {
        GroupedPosition(log, kernel, i);
        GroupedPosition(log, kernel, p);
      }
    }
  }

  lemma SendKeepsFollow(w: Watch, log: seq<EventGroup>, admitted: seq<EventGroup>, kernel: nat, attachAt: nat,
                        base: Foreground, forwarded: set<nat>)
    requires FollowInv(w, log, attachAt, base, forwarded) && PendingInv(w, admitted, kernel)
    requires Ordered(log, kernel) && StreamOrder(log, kernel) && w.pending != [] && !Duplicate(w, w.pending[0])
    requires w.pending[0].runId.Some? ==> w.pending[0].sequence < MAX_SAFE_INTEGER
    ensures FollowInv(ForwardStep(w), log, attachAt, base, forwarded + {Position(log, w)})
  {
    var p := Position(log, w);
    assert w.pending[0] in w.pending;
    PositionIsPending(w, log, attachAt, forwarded);
    if Sets(w.pending[0]).Some? {
      ForwardedIsNewest(w, log, kernel, attachAt, forwarded);
    }
    ForwardKeepsPlaced(w, log, attachAt, forwarded, p);
    ForwardKeepsUpcoming(w, log, attachAt, forwarded, p);
    ForwardKeepsCounted(w, log, kernel, attachAt, forwarded, p);
    ForwardKeepsShows(w, log, base, forwarded, p);
  }

  lemma DropKeepsFollow(w: Watch, log: seq<EventGroup>, admitted: seq<EventGroup>, kernel: nat, attachAt: nat,
                        base: Foreground, forwarded: set<nat>)
    requires FollowInv(w, log, attachAt, base, forwarded) && PendingInv(w, admitted, kernel)
    requires w.pending != [] && Duplicate(w, w.pending[0])
    ensures FollowInv(ForwardStep(w), log, attachAt, base, forwarded)
  {
    PositionIsPending(w, log, attachAt, forwarded);
    ForwardKeepsUpcoming(w, log, attachAt, forwarded, Position(log, w));
    if |w.pending| > 1 {
      assert w.pending[1] in w.pending;
    }
  }

  lemma ForwardKeepsFollowed(f: Followed)
    requires FollowedInv(f) && Enabled(f.sys, Forward)
    ensures FollowedInv(FollowedNext(f, Forward))
  {
    var s := f.sys;
    var w := ForwardStep(s.watch);
    StepKeepsInv(s, Forward);
    assert forall g :: g in s.watch.sent ==> g in w.sent;
    if Following(w) {
      assert Following(s.watch);
      if Duplicate(s.watch, s.watch.pending[0]) {
        DropKeepsFollow(s.watch, s.log, s.admitted, s.kernel, f.attachAt, f.base, f.forwarded);
      } else {
        assert s.watch.pending[0] in w.sent;
        SendKeepsFollow(s.watch, s.log, s.admitted, s.kernel, f.attachAt, f.base, f.forwarded);
      }
    }
  }

  lemma StepKeepsFollowed(f: Followed, step: Step)
    requires FollowedInv(f) && Enabled(f.sys, step) && SilentSnapshot(step)
    ensures FollowedInv(FollowedNext(f, step))
  {
    match step
    case Emit(group, baseline) => EmitKeeps(f, group, baseline);
    case TerminalFallback => FallbackKeepsFollowed(f);
    case Attach(how) => AttachKeepsFollowed(f, how);
    case Forward => ForwardKeepsFollowed(f);
    case Receive =>
      StepKeepsInv(f.sys, Receive);
      if Following(f.sys.watch) && f.sys.watch.pos < |f.sys.log| {
        ReceiveKeepsFollow(f.sys.watch, f.sys.log, f.sys.kernel, f.attachAt, f.base, f.forwarded);
      }
    case Lagged(reported) =>
      StepKeepsInv(f.sys, step);
      if Following(f.sys.watch) && Recover(f.sys.st, f.sys.watch).Ok? {
        var s := f.sys;
        LaggedKeepsFollow(s.watch, s.st, s.log, s.admitted, s.kernel, f.attachAt, f.base, f.forwarded, reported);
      }
    case Stop => StepKeepsInv(f.sys, Stop);
  }

  // ---------------------------------------------------------------- every run

  predicate PossibleFollowed(f: Followed, run: seq<Step>)
    decreases |run|
  {
    run == [] || (Enabled(f.sys, run[0]) && SilentSnapshot(run[0]) && PossibleFollowed(FollowedNext(f, run[0]), run[1..]))
  }

  function AfterFollowed(f: Followed, run: seq<Step>): Followed
    requires PossibleFollowed(f, run)
    decreases |run|
  {
    if run == [] then f else AfterFollowed(FollowedNext(f, run[0]), run[1..])
  }

  function BeginFollowed(capacity: nat): Followed {
    Followed(Initial(capacity), 0, Idle, {})
  }

  lemma {:induction false} RunKeepsFollowed(f: Followed, run: seq<Step>)
    requires FollowedInv(f) && PossibleFollowed(f, run)
    ensures FollowedInv(AfterFollowed(f, run))
    decreases |run|
  {
    if run != [] {
      StepKeepsFollowed(f, run[0]);
      RunKeepsFollowed(FollowedNext(f, run[0]), run[1..]);
    }
  }

  /** The state of the newest forwarded event that sets one, or the one at the attachment. */
  function Shown(log: seq<EventGroup>, forwarded: set<nat>, base: Foreground): Foreground {
    if log == [] then base
    else if |log| - 1 in forwarded && Sets(log[|log| - 1]).Some? then Sets(log[|log| - 1]).value
    else Shown(log[..|log| - 1], forwarded, base)
  }

  lemma {:induction false} ShownIsNewest(log: seq<EventGroup>, forwarded: set<nat>, base: Foreground)
    ensures || (Shown(log, forwarded, base) == base && forall i :: i in forwarded && i < |log| ==> Sets(log[i]).None?)
            || exists m: nat :: Newest(log, forwarded, m) && Shown(log, forwarded, base) == Sets(log[m]).value
  {
    if log != [] {
      var front := log[..|log| - 1];
      if |front| in forwarded && Sets(log[|front|]).Some? {
        assert Newest(log, forwarded, |front|);
      } else {
        ShownIsNewest(front, forwarded, base);
        assert forall i :: 0 <= i < |front| ==> front[i] == log[i];
        if m: nat :| Newest(front, forwarded, m) && Shown(front, forwarded, base) == Sets(front[m]).value {
          assert Newest(log, forwarded, m);
        }
      }
    }
  }

  lemma ClientIsShown(client: Foreground, log: seq<EventGroup>, base: Foreground, forwarded: set<nat>)
    requires Shows(client, log, base, forwarded)
    ensures client == Shown(log, forwarded, base)
  {
    ShownIsNewest(log, forwarded, base);
  }

  /** A state update that a journal took in is never missed by a watcher that caught up. */
  lemma JournalledIsForwarded(w: Watch, log: seq<EventGroup>, admitted: seq<EventGroup>, attachAt: nat,
                              forwarded: set<nat>, k: nat)
    requires CoverageInv(w, log, admitted) && w.pending == [] && w.pos == |log|
    requires Since(w, log, attachAt) && Counted(w, log, attachAt, forwarded) && Silent(log)
    requires attachAt <= k < |log| && log[k].runId.Some? && Sets(log[k]).Some? && log[k] in admitted
    ensures k in forwarded
  {
    assert log[k] in log;
    assert !Superseded(log[k], admitted) && !Ahead(log, w.pos, log[k]);
  }

  predicate NoLastSequence(w: Watch) {
    forall g :: g in w.sent && g.runId.Some? ==> g.sequence < MAX_SAFE_INTEGER
  }

  /** In every run of the protocol, whatever events overlap or arrive late, the client shows the newest
      state forwarded to it. A client that caught up agrees with the projection exactly when no state was
      set since the attachment, or the last event that set one was forwarded, or it set the state the
      client shows anyway. It was forwarded if a journal took it in. */
  lemma ConvergesExactly(capacity: nat, run: seq<Step>)
    requires PossibleFollowed(BeginFollowed(capacity), run)
    requires var f := AfterFollowed(BeginFollowed(capacity), run); CaughtUp(f.sys) && NoLastSequence(f.sys.watch)
    ensures var f := AfterFollowed(BeginFollowed(capacity), run);
            var log := f.sys.log;
            && f.sys.watch.client == Shown(log, f.forwarded, f.base)
            && (f.sys.watch.client == f.sys.st.foreground <==>
                  || Quiet(log, f.attachAt)
                  || exists k: nat :: LastSetting(log, k) && f.attachAt <= k
                                      && (k in f.forwarded || Sets(log[k]).value == Shown(log, f.forwarded, f.base)))
            && forall k: nat :: LastSetting(log, k) && f.attachAt <= k && log[k] in f.sys.admitted ==> k in f.forwarded
  {
    RunKeepsFollowed(BeginFollowed(capacity), run);
    var f := AfterFollowed(BeginFollowed(capacity), run);
    assert !Exhausted(f.sys.watch);
    ClientIsShown(f.sys.watch.client, f.sys.log, f.base, f.forwarded);
    SettledView(f.sys.watch, f.sys.log, f.attachAt, f.base, f.forwarded, f.sys.st.foreground);
    forall k: nat | LastSetting(f.sys.log, k) && f.attachAt <= k && f.sys.log[k] in f.sys.admitted
      ensures k in f.forwarded
    {
      JournalledIsForwarded(f.sys.watch, f.sys.log, f.sys.admitted, f.attachAt, f.forwarded, k);
    }
  }

  lemma SettledView(w: Watch, log: seq<EventGroup>, attachAt: nat, base: Foreground, forwarded: set<nat>,
                    foreground: Foreground)
    requires FollowInv(w, log, attachAt, base, forwarded) && StateSince(log, attachAt, base, foreground)
    ensures w.client == foreground <==>
              || Quiet(log, attachAt)
              || exists k: nat :: LastSetting(log, k) && attachAt <= k
                                  && (k in forwarded || Sets(log[k]).value == w.client)
  {
    if Quiet(log, attachAt) {
      assert forall i :: i in forwarded && i < |log| ==> Sets(log[i]).None?;
    } else {
      var k := HasLastSetting(log, attachAt);
      assert LastSetting(log, k) && foreground == Sets(log[k]).value;
      forall i: nat | LastSetting(log, i) && i in forwarded
        ensures w.client == Sets(log[i]).value
      {
        assert Newest(log, forwarded, i);
      }
    }
  }

  // ---------------------------------------------------------------- runs of sink events

  function StepIn(f: Followed, act: Act): Step {
    match act
    case Kernel(event, baseline) => Emit(GroupOf(ActiveOperation(f.sys.st), event), baseline)
    case Other(step) => step
  }

  /** Kernel events in increasing sequence, bracketed or not, among steps of the watcher and the fallback. */
  predicate Occurring(f: Followed, acts: seq<Act>)
    decreases |acts|
  {
    acts == [] ||
    (&& (if acts[0].Kernel? then f.sys.kernel < acts[0].event.sequence else !acts[0].step.Emit?)
     && Enabled(f.sys, StepIn(f, acts[0]))
     && Occurring(FollowedNext(f, StepIn(f, acts[0])), acts[1..]))
  }

  function Steps(f: Followed, acts: seq<Act>): seq<Step>
    requires Occurring(f, acts)
    decreases |acts|
  {
    if acts == [] then [] else [StepIn(f, acts[0])] + Steps(FollowedNext(f, StepIn(f, acts[0])), acts[1..])
  }

  /** The exact condition speaks of every run of the sink. */
  lemma {:induction false} SinkRunIsPossible(f: Followed, acts: seq<Act>)
    requires Occurring(f, acts)
    ensures PossibleFollowed(f, Steps(f, acts))
    decreases |acts|
  {
    if acts != [] {
      var step := StepIn(f, acts[0]);
      if acts[0].Kernel? {
        SinkIsSilent(ActiveOperation(f.sys.st), acts[0].event, acts[0].baseline);
      }
      SinkRunIsPossible(FollowedNext(f, step), acts[1..]);
      assert Steps(f, acts)[1..] == Steps(FollowedNext(f, step), acts[1..]);
    }
  }

  // ---------------------------------------------------------------- an overlapping command

  const COMMAND := Operation("command", SlashCommand)
  const PROMPT := Operation("prompt", AgentRun)
  const OPENED := GroupOf(None, Event(SlashCommandStart("command"), 1))
  const OVERLAP := GroupOf(Some(COMMAND), Event(RunStart("prompt"), 2))
  const ENDED := GroupOf(Some(PROMPT), Event(SlashCommandEnd("command"), 3))
  const MORE := GroupOf(Some(PROMPT), Event(RunProgress("prompt"), 4))

  lemma OverlapForwarded() returns (s: System)
    ensures Reachable(s) && CaughtUp(s) && s.capacity == 1 && s.kernel == 2 && s.log == [OPENED, OVERLAP]
    ensures s.st.journal == Some(Journal("prompt", AgentRun, [], [OVERLAP], true, true))
    ensures s.watch.client == Running && s.watch.next == Some(3) && s.watch.runId == Some("prompt")
  {
    ReachableInitial(1);
    ReachableStep(Initial(1), Attach(AtLive));
    s := Next(Initial(1), Attach(AtLive));
    s := EmitAndForward(s, Event(SlashCommandStart("command"), 1));
    assert ActiveOperation(s.st) == Some(COMMAND);
    EventStates(RunStart("prompt"), s.watch.client);
    UpdatesReport(RunStart("prompt"));
    s := EmitAndForward(s, Event(RunStart("prompt"), 2));
  }

  lemma CommandEnded() returns (s: System)
    ensures Reachable(s) && s.capacity == 1 && s.log == [OPENED, OVERLAP, ENDED, MORE]
    ensures s.st.journal == Some(Journal("prompt", AgentRun, [], [OVERLAP, MORE], true, true)) && s.st.foreground == Idle
    ensures s.watch.live && s.watch.pending == [] && s.watch.pos == 2
    ensures s.watch.client == Running && s.watch.next == Some(3) && s.watch.runId == Some("prompt")
  {
    var o := OverlapForwarded();
    ReachableStep(o, Emit(ENDED, []));
    var e := Next(o, Emit(ENDED, []));
    EventStates(SlashCommandEnd("command"), o.st.foreground);
    UpdatesReport(SlashCommandEnd("command"));
    assert e.st == State(o.st.journal, Later(o.st.lastSequence, 3), Idle);
    ReachableStep(e, Emit(MORE, []));
    s := Next(e, Emit(MORE, []));
    EventStates(RunProgress("prompt"), e.st.foreground);
    UpdatesReport(RunProgress("prompt"));
    assert Push([OVERLAP], MORE) == [OVERLAP, MORE];
  }

  /** A prompt may start while the handler of an extension command runs: its journal replaces the
      command's, the command's end is taken in by no journal and still makes the projection idle, and lag
      recovery hands out only the prompt's later events. The client that caught up shows a running prompt,
      the projection an idle session. */
  lemma OverlapDiverges() returns (s: System)
    ensures Reachable(s) && CaughtUp(s) && s.log == [OPENED, OVERLAP, ENDED, MORE]
    ensures ActiveOperation(s.st) == Some(PROMPT)
    ensures s.watch.client == Running && s.st.foreground == Idle
  {
    var e := CommandEnded();
    assert [OVERLAP, MORE][..1] == [OVERLAP] && From([OVERLAP], 3) == [];
    assert From([OVERLAP, MORE], 3) == [MORE];
    ReachableStep(e, Lagged(3));
    var l := Next(e, Lagged(3));
    assert l.watch.pending == [MORE];
    EventStates(RunProgress("prompt"), Running);
    UpdatesReport(RunProgress("prompt"));
    ReachableStep(l, Forward);
    var f := Next(l, Forward);
    assert f.watch.pending == [] && f.watch.next == Some(5) && f.watch.client == Running;
    ReachableStep(f, Receive);
    var r := Next(f, Receive);
    assert r.watch.pending == [MORE];
    ReachableStep(r, Forward);
    s := Next(r, Forward);
    assert s.watch.pending == [];
  }
}
