/** One connection's watcher (crates/acp/src/server.rs) against the Session projection: a step
    machine over Kernel emissions, the terminal fallback, subscription, the bounded broadcast
    channel, lag recovery and forwarding. A run is any sequence of steps. */
module WatchProtocol {
  import opened Wrappers
  import opened Projection
  import opened Journals

  /** A connection watcher: the cursor, the receiver's position in the broadcast stream, and the
      groups received but not forwarded yet. `sent`, `client` and `origin` are history. */
  datatype Watch = Watch(
    runId: Option<RunId>,
    next: Option<Sequence>,
    pos: nat,
    pending: seq<EventGroup>,
    progress: Option<Sequence>,
    live: bool,
    sent: seq<EventGroup>,
    client: Foreground,
    origin: nat)

  /** The whole system. `kernel` is the newest sequence the Kernel emitted; `admitted` is the
      history of every group a journal took in. */
  datatype System = System(
    st: State,
    log: seq<EventGroup>,
    capacity: nat,
    kernel: nat,
    admitted: seq<EventGroup>,
    watch: Watch)

  datatype Attachment = AtCursor(run: RunId, sequence: Sequence) | AtStart | AtLive

  datatype Step =
    | Emit(group: EventGroup, baseline: seq<string>)
    | TerminalFallback
    | Attach(how: Attachment)
    | Receive
    | Lagged(reported: nat)
    | Forward
    | Stop

  const DETACHED := Watch(None, None, 0, [], None, false, [], Idle, 0)

  function Initial(capacity: nat): System {
    System(INITIAL, [], capacity, 0, [], DETACHED)
  }

  // ---------------------------------------------------------------- the watcher

  /** `record_sent`: only grouped events move the cursor, and the cursor disappears when no
      sequence can follow. */
  function RecordSent(w: Watch, group: EventGroup): Watch {
    if group.runId.None? then w
    else w.(runId := group.runId, next := SequenceOf(group.sequence + 1))
  }

  /** Replayed history moves the cursor but not the client's state or the delivery progress. */
  function RecordBacklog(w: Watch, backlog: seq<EventGroup>): Watch {
    if backlog == [] then w
    else
      var front := RecordBacklog(w, backlog[..|backlog| - 1]);
      var last := backlog[|backlog| - 1];
      RecordSent(front, last).(sent := front.sent + [last])
  }

  function Duplicate(w: Watch, group: EventGroup): bool {
    w.next.Some? && group.sequence < w.next.value
  }

  function Send(w: Watch, group: EventGroup): Watch {
    RecordSent(w, group).(progress := Later(w.progress, group.sequence),
                          sent := w.sent + [group],
                          client := ApplyUpdates(w.client, group.updates))
  }

  /** The oldest position the channel still holds. */
  function Floor(log: seq<EventGroup>, capacity: nat): (r: nat)
    ensures r <= |log|
  {
    if |log| <= capacity then 0 else |log| - capacity
  }

  /** Lag recovery: the groups from the watcher's cursor, when its journal still serves it. */
  function Recover(st: State, w: Watch): Result<seq<EventGroup>, ProjectionError> {
    if w.runId.None? || w.next.None? then Err(CursorUnavailable)
    else SnapshotFrom(st, w.runId.value, w.next.value)
  }

  /** A watcher within the channel's capacity receives the next group, if there is one. */
  function ReceiveStep(w: Watch, log: seq<EventGroup>): Watch
    requires w.pos <= |log|
  {
    if w.pos < |log| then w.(pos := w.pos + 1, pending := [log[w.pos]]) else w
  }

  /** A watcher that was told it lagged, and resumes at the position then reported, asks the journal. The
      report is older than the journal it reads: anything may have been emitted in between. */
  function LaggedStep(w: Watch, st: State, reported: nat): Watch {
    match Recover(st, w)
    case Ok(groups) => w.(pos := reported, pending := groups)
    case Err(_) => w.(pos := reported, live := false)
  }

  function ForwardStep(w: Watch): Watch
    requires w.pending != []
  {
    var group := w.pending[0];
    var rest := w.(pending := w.pending[1..]);
    if Duplicate(w, group) then rest else Send(rest, group)
  }

  function AttachStep(s: System, how: Attachment): Option<Watch> {
    match how
    case AtLive =>
      Some(Watch(None, None, |s.log|, [], s.st.lastSequence, true, [], s.st.foreground, s.kernel + 1))
    case AtStart =>
      (match SubscribeFromStart(s.st)
       case Err(_) => None
       case Ok(feed) => Some(Attached(s, feed)))
    case AtCursor(run, sequence) =>
      (match SubscribeFromCursor(s.st, run, sequence)
       case Err(_) => None
       case Ok(feed) => Some(Attached(s, feed)))
  }

  function Attached(s: System, feed: Feed): Watch {
    RecordBacklog(
      Watch(Some(feed.runId), Some(feed.nextSequence), |s.log|, [], feed.delivered, true, [], feed.state, feed.nextSequence),
      feed.backlog)
  }

  // ---------------------------------------------------------------- steps and runs

  predicate Enabled(s: System, step: Step) {
    match step
    case Emit(group, _) => s.kernel < group.sequence && WellFormed(group)
    case TerminalFallback => true
    case Attach(how) => AttachStep(s, how).Some?
    case Receive => s.watch.live && s.watch.pending == [] && Floor(s.log, s.capacity) <= s.watch.pos <= |s.log|
    case Lagged(reported) => s.watch.live && s.watch.pending == [] && s.watch.pos < reported <= Floor(s.log, s.capacity)
    case Forward => s.watch.live && s.watch.pending != []
    case Stop => true
  }

  predicate TakesIn(st: State, group: EventGroup) {
    if group.phase == Some(Start) then group.runId.Some? else Admits(st, group)
  }

  function Emitted(s: System, group: EventGroup, baseline: seq<string>): System {
    match Append(s.st, group, baseline)
    case Err(_) => s.(kernel := group.sequence)
    case Ok(st) => s.(st := st, log := s.log + [group], kernel := group.sequence,
                      admitted := if TakesIn(s.st, group) then s.admitted + [group] else s.admitted)
  }

  function FellBack(s: System): System {
    var (st, terminal) := Fallback(s.st);
    s.(st := st, log := s.log + (match terminal case Some(g) => [g] case None => []))
  }

  function Next(s: System, step: Step): System
    requires Enabled(s, step)
  {
    match step
    case Emit(group, baseline) => Emitted(s, group, baseline)
    case TerminalFallback => FellBack(s)
    case Attach(how) => s.(watch := AttachStep(s, how).value)
    case Receive => s.(watch := ReceiveStep(s.watch, s.log))
    case Lagged(reported) => s.(watch := LaggedStep(s.watch, s.st, reported))
    case Forward => s.(watch := ForwardStep(s.watch))
    case Stop => s.(watch := s.watch.(live := false))
  }

  /** Whether `run` can be taken from `s`, and where it leads. */
  predicate Possible(s: System, run: seq<Step>)
    decreases |run|
  {
    run == [] || (Enabled(s, run[0]) && Possible(Next(s, run[0]), run[1..]))
  }

  function After(s: System, run: seq<Step>): System
    requires Possible(s, run)
    decreases |run|
  {
    if run == [] then s else After(Next(s, run[0]), run[1..])
  }

  // ---------------------------------------------------------------- the invariant

  ghost predicate Superseded(group: EventGroup, admitted: seq<EventGroup>) {
    group.snapshotOf.Some? &&
    exists h :: h in admitted && h.snapshotOf == group.snapshotOf && group.sequence < h.sequence
  }

  /** Grouped events appear in the broadcast stream in Kernel order. */
  ghost predicate Ordered(log: seq<EventGroup>, kernel: nat) {
    && (forall i, k :: 0 <= i < k < |log| && log[i].runId.Some? && log[k].runId.Some?
                       ==> log[i].sequence < log[k].sequence)
    && (forall g :: g in log && g.runId.Some? ==> g.sequence <= kernel)
  }

  ghost predicate JournalInv(st: State, log: seq<EventGroup>, admitted: seq<EventGroup>, kernel: nat) {
    && (forall g :: g in admitted ==> g.runId.Some? && g in log)
    && (st.journal.Some? ==>
          && ValidJournal(st.journal.value)
          && st.journal.value.groups[|st.journal.value.groups| - 1].sequence <= kernel
          && Retains(st.journal.value.groups, admitted))
  }

  /** The journal's groups are groups it took in, and what it dropped since its Start is superseded. */
  ghost predicate Retains(groups: seq<EventGroup>, admitted: seq<EventGroup>)
    requires groups != []
  {
    && (forall g :: g in groups ==> g in admitted)
    && (forall g :: g in admitted && g.sequence >= groups[0].sequence ==> g in groups || Superseded(g, admitted))
  }

  /** A group waiting at or after the receiver's position. */
  ghost predicate Ahead(log: seq<EventGroup>, pos: nat, group: EventGroup) {
    exists i :: pos <= i < |log| && log[i] == group
  }

  ghost predicate Done(w: Watch, admitted: seq<EventGroup>, group: EventGroup) {
    group in w.sent || Superseded(group, admitted)
  }

  ghost predicate Strict(groups: seq<EventGroup>) {
    forall i, k :: 0 <= i < k < |groups| && groups[i].runId.Some? && groups[k].runId.Some?
                   ==> groups[i].sequence < groups[k].sequence
  }

  /** A grouped event with the last representable sequence was forwarded. */
  ghost predicate Exhausted(w: Watch) {
    exists g :: g in w.sent && g.runId.Some? && g.sequence == MAX_SAFE_INTEGER
  }

  predicate AtOrAfterCursor(w: Watch, group: EventGroup) {
    w.next.None? || group.sequence >= w.next.value
  }

  ghost predicate CursorInv(w: Watch, admitted: seq<EventGroup>, kernel: nat) {
    && Strict(w.sent)
    && (w.next.Some? ==> w.next.value <= kernel + 1)
    && (forall g :: g in w.sent && g.runId.Some? ==> w.next.Some? && g.sequence < w.next.value)
    && (forall g :: g in admitted && g.sequence >= w.origin && !AtOrAfterCursor(w, g) ==> Done(w, admitted, g))
  }

  ghost predicate PendingInv(w: Watch, admitted: seq<EventGroup>, kernel: nat) {
    && (forall g :: g in w.pending && g.runId.Some? ==> g.sequence <= kernel)
    && (|w.pending| > 1 ==> forall g :: g in w.pending ==> g.runId.Some?)
    && Sorted(w.pending)
    && (w.pending != [] && w.pending[0].runId.Some? ==>
          forall g :: g in admitted && g.sequence >= w.origin && AtOrAfterCursor(w, g)
                      && g.sequence <= w.pending[|w.pending| - 1].sequence
                      ==> g in w.pending || Superseded(g, admitted))
  }

  /** Every group a journal took in is forwarded, waiting, or superseded. */
  ghost predicate CoverageInv(w: Watch, log: seq<EventGroup>, admitted: seq<EventGroup>) {
    forall g :: g in admitted && g.sequence >= w.origin
                ==> Done(w, admitted, g) || g in w.pending || (Ahead(log, w.pos, g) && AtOrAfterCursor(w, g))
  }

  ghost predicate AllDone(w: Watch, admitted: seq<EventGroup>) {
    forall g :: g in admitted && g.sequence >= w.origin ==> Done(w, admitted, g)
  }

  ghost predicate WatchInv(w: Watch, log: seq<EventGroup>, admitted: seq<EventGroup>, kernel: nat) {
    && w.pos <= |log|
    && (Exhausted(w) || Strict(w.sent))
    && (w.live ==>
          if Exhausted(w) then kernel == MAX_SAFE_INTEGER && AllDone(w, admitted)
          else CursorInv(w, admitted, kernel) && PendingInv(w, admitted, kernel) && CoverageInv(w, log, admitted))
  }

  ghost predicate Inv(s: System) {
    && s.kernel <= MAX_SAFE_INTEGER
    && Ordered(s.log, s.kernel)
    && JournalInv(s.st, s.log, s.admitted, s.kernel)
    && WatchInv(s.watch, s.log, s.admitted, s.kernel)
  }

  // ---------------------------------------------------------------- emissions

  lemma SupersededGrows(group: EventGroup, admitted: seq<EventGroup>, more: seq<EventGroup>)
    requires Superseded(group, admitted)
    requires forall g :: g in admitted ==> g in more
    ensures Superseded(group, more)
  {
  }

  /** Taking a newer group into the journal drops only what it supersedes. */
  lemma PushRetains(groups: seq<EventGroup>, run: RunId, admitted: seq<EventGroup>, group: EventGroup)
    requires ValidGroups(groups, run) && Retains(groups, admitted)
    requires groups[|groups| - 1].sequence < group.sequence
    requires group.runId == Some(run) && group.phase != Some(Start)
    ensures Retains(Push(groups, group), admitted + [group])
  {
    var pushed, more := Push(groups, group), admitted + [group];
    PushValid(groups, run, group);
    NewerThanAll(groups, run, group.sequence);
    if group.snapshotOf.Some? {
      RetainMembers(groups, group.snapshotOf.value);
    }
    forall g | g in more && g.sequence >= pushed[0].sequence
      ensures g in pushed || Superseded(g, more)
    {
      if g in admitted && Superseded(g, admitted) {
        SupersededGrows(g, admitted, more);
      } else if g in groups && g !in pushed {
        assert group in more && group.snapshotOf == g.snapshotOf;
      }
    }
  }

  /** The first group of an Operation is its whole journal. */
  lemma StartRetains(admitted: seq<EventGroup>, log: seq<EventGroup>, kernel: nat, group: EventGroup)
    requires Ordered(log, kernel) && kernel < group.sequence
    requires forall g :: g in admitted ==> g.runId.Some? && g in log
    ensures Retains([group], admitted + [group])
  {
  }

  lemma StreamKeepsOrder(log: seq<EventGroup>, kernel: nat, group: EventGroup)
    requires Ordered(log, kernel) && kernel < group.sequence
    ensures Ordered(log + [group], group.sequence) && Ordered(log, group.sequence)
  {
  }

  lemma EmitKeepsJournal(s: System, group: EventGroup, baseline: seq<string>)
    requires Inv(s) && s.kernel < group.sequence && WellFormed(group)
    ensures var t := Emitted(s, group, baseline);
            t.kernel <= MAX_SAFE_INTEGER && Ordered(t.log, t.kernel) && JournalInv(t.st, t.log, t.admitted, t.kernel)
  {
    StreamKeepsOrder(s.log, s.kernel, group);
    TakenKeepsJournal(s.st, s.log, s.admitted, s.kernel, group, baseline);
  }

  lemma StartKeepsJournal(st: State, log: seq<EventGroup>, admitted: seq<EventGroup>, kernel: nat,
                          group: EventGroup, baseline: seq<string>)
    requires JournalInv(st, log, admitted, kernel) && Ordered(log, kernel) && kernel < group.sequence && WellFormed(group)
    requires group.phase == Some(Start) && group.runId.Some?
    ensures JournalInv(Append(st, group, baseline).value, log + [group], admitted + [group], group.sequence)
  {
    AppendKeepsValid(st, group, baseline);
    StartRetains(admitted, log, kernel, group);
    assert Append(st, group, baseline).value.journal.value.groups == [group];
  }

  lemma PushKeepsJournal(st: State, log: seq<EventGroup>, admitted: seq<EventGroup>, kernel: nat,
                         group: EventGroup, baseline: seq<string>)
    requires JournalInv(st, log, admitted, kernel) && kernel < group.sequence && WellFormed(group)
    requires group.phase != Some(Start) && Admits(st, group)
    ensures JournalInv(Append(st, group, baseline).value, log + [group], admitted + [group], group.sequence)
  {
    AppendKeepsValid(st, group, baseline);
    PushRetains(st.journal.value.groups, st.journal.value.runId, admitted, group);
    assert Append(st, group, baseline).value.journal.value.groups == Push(st.journal.value.groups, group);
  }

  lemma LaterKeepsJournal(st: State, log: seq<EventGroup>, admitted: seq<EventGroup>, kernel: nat, group: EventGroup)
    requires JournalInv(st, log, admitted, kernel) && kernel < group.sequence
    ensures JournalInv(st, log, admitted, group.sequence) && JournalInv(st, log + [group], admitted, group.sequence)
  {
  }

  lemma TakenKeepsJournal(st: State, log: seq<EventGroup>, admitted: seq<EventGroup>, kernel: nat,
                          group: EventGroup, baseline: seq<string>)
    requires JournalInv(st, log, admitted, kernel) && Ordered(log, kernel) && kernel < group.sequence && WellFormed(group)
    ensures match Append(st, group, baseline)
            case Ok(next) => JournalInv(next, log + [group], if TakesIn(st, group) then admitted + [group] else admitted, group.sequence)
            case Err(_) => JournalInv(st, log, admitted, group.sequence)
  {
    LaterKeepsJournal(st, log, admitted, kernel, group);
    if group.phase == Some(Start) {
      if group.runId.Some? {
        StartKeepsJournal(st, log, admitted, kernel, group, baseline);
      }
    } else if Admits(st, group) {
      PushKeepsJournal(st, log, admitted, kernel, group, baseline);
    } else {
      assert Append(st, group, baseline).value.journal == st.journal;
    }
  }

  lemma AheadGrows(log: seq<EventGroup>, pos: nat, group: EventGroup)
    requires pos <= |log|
    ensures forall g :: Ahead(log, pos, g) ==> Ahead(log + [group], pos, g)
    ensures Ahead(log + [group], pos, group)
  {
    var more := log + [group];
    assert more[|log|] == group;
    forall g | Ahead(log, pos, g)
      ensures Ahead(more, pos, g)
    {
      var i :| pos <= i < |log| && log[i] == g;
      assert more[i] == g;
    }
  }

  /** The journals took in at most one more group, the newest. */
  predicate Grown(admitted: seq<EventGroup>, more: seq<EventGroup>, kernel: nat, group: EventGroup) {
    kernel < group.sequence && (more == admitted || more == admitted + [group])
  }

  lemma DoneGrows(w: Watch, admitted: seq<EventGroup>, more: seq<EventGroup>)
    requires forall g :: g in admitted ==> g in more
    ensures forall g :: Superseded(g, admitted) ==> Superseded(g, more)
    ensures forall g :: Done(w, admitted, g) ==> Done(w, more, g)
  {
    forall g | Superseded(g, admitted)
      ensures Superseded(g, more)
    {
      SupersededGrows(g, admitted, more);
    }
  }

  lemma GrowthKeepsCursor(w: Watch, admitted: seq<EventGroup>, more: seq<EventGroup>, kernel: nat, group: EventGroup)
    requires CursorInv(w, admitted, kernel) && Grown(admitted, more, kernel, group)
    ensures CursorInv(w, more, group.sequence)
  {
    DoneGrows(w, admitted, more);
  }

  lemma GrowthKeepsPending(w: Watch, admitted: seq<EventGroup>, more: seq<EventGroup>, kernel: nat, group: EventGroup)
    requires PendingInv(w, admitted, kernel) && Grown(admitted, more, kernel, group)
    ensures PendingInv(w, more, group.sequence)
  {
    DoneGrows(w, admitted, more);
    if w.pending != [] && w.pending[0].runId.Some? {
      var last := w.pending[|w.pending| - 1];
      assert last in w.pending && last.sequence <= kernel;
    }
  }

  lemma GrowthKeepsCoverage(w: Watch, log: seq<EventGroup>, admitted: seq<EventGroup>, more: seq<EventGroup>, kernel: nat, group: EventGroup)
    requires CoverageInv(w, log, admitted) && Grown(admitted, more, kernel, group)
    requires w.pos <= |log| && (w.next.Some? ==> w.next.value <= kernel + 1)
    ensures CoverageInv(w, log + [group], more)
  {
    DoneGrows(w, admitted, more);
    AheadGrows(log, w.pos, group);
  }

  /** An emission never undoes what was done, and its group lies ahead. */
  lemma GrowthKeepsWatch(w: Watch, log: seq<EventGroup>, admitted: seq<EventGroup>, more: seq<EventGroup>, kernel: nat, group: EventGroup)
    requires WatchInv(w, log, admitted, kernel) && Grown(admitted, more, kernel, group)
    ensures WatchInv(w, log + [group], more, group.sequence)
  {
    if w.live && !Exhausted(w) {
      GrowthKeepsCursor(w, admitted, more, kernel, group);
      GrowthKeepsPending(w, admitted, more, kernel, group);
      GrowthKeepsCoverage(w, log, admitted, more, kernel, group);
    }
  }

  lemma LaterKernelKeepsWatch(w: Watch, log: seq<EventGroup>, admitted: seq<EventGroup>, kernel: nat, group: EventGroup)
    requires WatchInv(w, log, admitted, kernel) && kernel < group.sequence
    ensures WatchInv(w, log, admitted, group.sequence)
  {
    if w.live && !Exhausted(w) {
      GrowthKeepsCursor(w, admitted, admitted, kernel, group);
      GrowthKeepsPending(w, admitted, admitted, kernel, group);
    }
  }

  lemma EmitKeepsWatch(s: System, group: EventGroup, baseline: seq<string>)
    requires Inv(s) && s.kernel < group.sequence
    ensures var t := Emitted(s, group, baseline); WatchInv(t.watch, t.log, t.admitted, t.kernel)
  {
    if Append(s.st, group, baseline).Ok? {
      GrowthKeepsWatch(s.watch, s.log, s.admitted, Emitted(s, group, baseline).admitted, s.kernel, group);
    } else {
      LaterKernelKeepsWatch(s.watch, s.log, s.admitted, s.kernel, group);
    }
  }

  lemma FallbackKeepsInv(s: System)
    requires Inv(s)
    ensures Inv(FellBack(s))
  {
    var t := FellBack(s);
    assert |t.log| == |s.log| || t.log[|s.log|].runId.None?;
    if s.watch.live && !Exhausted(s.watch) {
      forall g | Ahead(s.log, s.watch.pos, g)
        ensures Ahead(t.log, t.watch.pos, g)
      {
        var i :| s.watch.pos <= i < |s.log| && s.log[i] == g;
        assert t.log[i] == g;
      }
      assert forall g :: g in t.admitted && Done(s.watch, s.admitted, g) ==> Done(t.watch, t.admitted, g);
    }
  }

  // ---------------------------------------------------------------- subscriptions

  lemma {:induction false} BacklogRecorded(w: Watch, backlog: seq<EventGroup>)
    requires forall i :: 0 <= i < |backlog| ==> backlog[i].runId.Some?
    ensures var r := RecordBacklog(w, backlog);
            && r.sent == w.sent + backlog
            && r == w.(sent := r.sent, runId := r.runId, next := r.next)
            && (backlog == [] ==> r == w)
            && (backlog != [] ==>
                  && r.next == SequenceOf(backlog[|backlog| - 1].sequence + 1)
                  && r.runId == backlog[|backlog| - 1].runId)
  {
    if backlog != [] {
      BacklogRecorded(w, backlog[..|backlog| - 1]);
      assert w.sent + backlog == w.sent + backlog[..|backlog| - 1] + [backlog[|backlog| - 1]];
    }
  }

  /** What a recovery subscription or a lag snapshot hands out covers the journal from its cursor. */
  lemma SuffixCovers(s: System, sequence: nat)
    requires JournalInv(s.st, s.log, s.admitted, s.kernel) && s.st.journal.Some?
    requires s.st.journal.value.groups[0].sequence <= sequence
    ensures var suffix := From(s.st.journal.value.groups, sequence);
            && Sorted(suffix)
            && (forall g :: g in suffix ==> g.runId.Some? && g.sequence >= sequence && g.sequence <= s.kernel)
            && (forall g :: g in s.admitted && g.sequence >= sequence ==> g in suffix || Superseded(g, s.admitted))
  {
    FromProperties(s.st.journal.value.groups, sequence);
  }

  lemma AttachKeepsInv(s: System, how: Attachment)
    requires Inv(s) && Enabled(s, Attach(how))
    ensures Inv(Next(s, Attach(how)))
  {
    var t := Next(s, Attach(how));
    if how.AtLive? {
      assert !Exhausted(t.watch);
      assert forall g :: g in s.admitted ==> g in s.log && g.sequence <= s.kernel;
    } else {
      var feed := if how.AtStart? then SubscribeFromStart(s.st).value
                  else SubscribeFromCursor(s.st, how.run, how.sequence).value;
      var groups := s.st.journal.value.groups;
      SuffixCovers(s, feed.nextSequence);
      if how.AtStart? {
        FromAll(groups, feed.nextSequence);
      }
      AttachedKeepsInv(s, feed);
    }
  }

  lemma AttachedFields(s: System, feed: Feed)
    requires forall i :: 0 <= i < |feed.backlog| ==> feed.backlog[i].runId.Some?
    ensures var w := Attached(s, feed);
            && w.live && w.pending == [] && w.pos == |s.log| && w.sent == feed.backlog && w.origin == feed.nextSequence
            && w.client == feed.state && w.progress == feed.delivered
            && w.next == if feed.backlog == [] then Some(feed.nextSequence)
                         else SequenceOf(feed.backlog[|feed.backlog| - 1].sequence + 1)
  {
    BacklogRecorded(
      Watch(Some(feed.runId), Some(feed.nextSequence), |s.log|, [], feed.delivered, true, [], feed.state, feed.nextSequence),
      feed.backlog);
  }

  lemma BacklogIsGrouped(s: System, feed: Feed)
    requires JournalInv(s.st, s.log, s.admitted, s.kernel) && s.st.journal.Some?
    requires feed.backlog == From(s.st.journal.value.groups, feed.nextSequence)
    requires Covers(s.st.journal.value.groups, feed.nextSequence)
    ensures forall i :: 0 <= i < |feed.backlog| ==> feed.backlog[i].runId.Some?
    ensures feed.nextSequence <= s.kernel + 1
  {
    SuffixCovers(s, feed.nextSequence);
    forall i | 0 <= i < |feed.backlog|
      ensures feed.backlog[i].runId.Some?
    {
      assert feed.backlog[i] in feed.backlog;
    }
  }

  lemma AttachedSent(s: System, feed: Feed)
    requires forall i :: 0 <= i < |feed.backlog| ==> feed.backlog[i].runId.Some?
    requires feed.nextSequence <= s.kernel + 1
    ensures var w := Attached(s, feed);
            && w.live && w.pending == [] && w.pos == |s.log| && w.sent == feed.backlog && w.origin == feed.nextSequence
            && w.origin <= s.kernel + 1
            && w.next == (if w.sent == [] then Some(w.origin) else SequenceOf(w.sent[|w.sent| - 1].sequence + 1))
  {
    AttachedFields(s, feed);
  }

  lemma SuffixIsDone(s: System, w: Watch)
    requires JournalInv(s.st, s.log, s.admitted, s.kernel) && s.st.journal.Some?
    requires s.st.journal.value.groups[0].sequence <= w.origin && w.sent == From(s.st.journal.value.groups, w.origin)
    ensures forall g :: g in s.admitted && g.sequence >= w.origin ==> Done(w, s.admitted, g)
    ensures Sorted(w.sent) && forall g :: g in w.sent ==> g.runId.Some? && g.sequence <= s.kernel
  {
    SuffixCovers(s, w.origin);
  }

  lemma AttachedKeepsInv(s: System, feed: Feed)
    requires Inv(s) && s.st.journal.Some?
    requires feed.backlog == From(s.st.journal.value.groups, feed.nextSequence)
    requires Covers(s.st.journal.value.groups, feed.nextSequence)
    ensures Inv(s.(watch := Attached(s, feed)))
  {
    BacklogIsGrouped(s, feed);
    AttachedSent(s, feed);
    SuffixIsDone(s, Attached(s, feed));
    AllDoneKeepsInv(s.(watch := Attached(s, feed)));
  }

  /** A watcher whose forwarded history is a sorted suffix that covers its origin. */
  lemma AllDoneKeepsInv(t: System)
    requires t.kernel <= MAX_SAFE_INTEGER && Ordered(t.log, t.kernel) && JournalInv(t.st, t.log, t.admitted, t.kernel)
    requires t.watch.live && t.watch.pending == [] && t.watch.pos == |t.log|
    requires Sorted(t.watch.sent)
    requires forall g :: g in t.watch.sent ==> g.runId.Some? && g.sequence <= t.kernel
    requires forall g :: g in t.admitted && g.sequence >= t.watch.origin ==> Done(t.watch, t.admitted, g)
    requires t.watch.next ==
             if t.watch.sent == [] then Some(t.watch.origin)
             else SequenceOf(t.watch.sent[|t.watch.sent| - 1].sequence + 1)
    requires t.watch.origin <= t.kernel + 1
    ensures Inv(t)
  {
    if t.watch.sent != [] {
      var last := t.watch.sent[|t.watch.sent| - 1];
      assert last in t.watch.sent;
      forall g | g in t.watch.sent
        ensures g.sequence <= last.sequence
      {
      }
      if last.sequence < MAX_SAFE_INTEGER {
        assert !Exhausted(t.watch);
      }
    }
  }

  // ---------------------------------------------------------------- receiving

  lemma ReceiveLiveKeepsInv(s: System)
    requires Inv(s) && Enabled(s, Receive) && s.watch.pos < |s.log|
    ensures Inv(Next(s, Receive))
  {
    var t := Next(s, Receive);
    var h := s.log[s.watch.pos];
    assert t.watch == s.watch.(pos := s.watch.pos + 1, pending := [h]);
    if s.watch.live && !Exhausted(s.watch) {
      assert !Exhausted(t.watch);
      forall g | g in s.admitted && g.sequence >= s.watch.origin
        ensures Done(t.watch, t.admitted, g) || g == h || (Ahead(t.log, t.watch.pos, g) && AtOrAfterCursor(t.watch, g))
        ensures AtOrAfterCursor(t.watch, g) && h.runId.Some? && g.sequence <= h.sequence ==> g == h || Superseded(g, t.admitted)
        ensures !AtOrAfterCursor(t.watch, g) ==> Done(t.watch, t.admitted, g)
      {
        assert Done(s.watch, s.admitted, g) ==> Done(t.watch, t.admitted, g);
        assert AtOrAfterCursor(t.watch, g) == AtOrAfterCursor(s.watch, g);
        if Ahead(s.log, s.watch.pos, g) {
          var i :| s.watch.pos <= i < |s.log| && s.log[i] == g;
          assert i == s.watch.pos || Ahead(t.log, t.watch.pos, g);
        }
      }
    }
  }

  lemma LaggedKeepsInv(s: System, reported: nat)
    requires Inv(s) && Enabled(s, Lagged(reported))
    ensures Inv(Next(s, Lagged(reported)))
  {
    var t := Next(s, Lagged(reported));
    if Recover(s.st, s.watch).Ok? && !Exhausted(s.watch) {
      SuffixCovers(s, s.watch.next.value);
      assert !Exhausted(t.watch);
      forall g | g in s.admitted && g.sequence >= s.watch.origin
        ensures Done(t.watch, t.admitted, g) || g in t.watch.pending
        ensures !AtOrAfterCursor(t.watch, g) ==> Done(t.watch, t.admitted, g)
        ensures AtOrAfterCursor(t.watch, g) ==> g in t.watch.pending || Superseded(g, t.admitted)
      {
        assert Done(s.watch, s.admitted, g) ==> Done(t.watch, t.admitted, g);
      }
    }
  }

  // ---------------------------------------------------------------- forwarding

  lemma ForwardDuplicateKeepsInv(s: System)
    requires Inv(s) && Enabled(s, Forward) && !Exhausted(s.watch)
    requires Duplicate(s.watch, s.watch.pending[0])
    ensures Inv(Next(s, Forward))
  {
    var t := Next(s, Forward);
    var h := s.watch.pending[0];
    assert !Exhausted(t.watch);
    assert s.watch.pending == [h] + t.watch.pending;
    forall g | g in s.admitted && g.sequence >= s.watch.origin
      ensures Done(t.watch, t.admitted, g) || g in t.watch.pending || (Ahead(t.log, t.watch.pos, g) && AtOrAfterCursor(t.watch, g))
      ensures !AtOrAfterCursor(t.watch, g) ==> Done(t.watch, t.admitted, g)
      ensures AtOrAfterCursor(t.watch, g) ==> g != h
    {
      assert Done(s.watch, s.admitted, g) ==> Done(t.watch, t.admitted, g);
    }
  }

  lemma ForwardUngroupedKeepsInv(s: System)
    requires Inv(s) && Enabled(s, Forward) && !Exhausted(s.watch)
    requires !Duplicate(s.watch, s.watch.pending[0]) && s.watch.pending[0].runId.None?
    ensures Inv(Next(s, Forward))
  {
    var t := Next(s, Forward);
    var h := s.watch.pending[0];
    assert h in s.watch.pending && s.watch.pending == [h];
    assert t.watch.pending == [];
    assert !Exhausted(t.watch);
    forall g | g in s.admitted && g.sequence >= s.watch.origin
      ensures Done(t.watch, t.admitted, g) || (Ahead(t.log, t.watch.pos, g) && AtOrAfterCursor(t.watch, g))
      ensures !AtOrAfterCursor(t.watch, g) ==> Done(t.watch, t.admitted, g)
    {
      assert Done(s.watch, s.admitted, g) ==> Done(t.watch, t.admitted, g);
    }
  }

  /** Forwarding a grouped event leaves nothing of its journal behind it. */
  lemma NothingLeftBehind(s: System, g: EventGroup)
    requires Inv(s) && Enabled(s, Forward) && !Exhausted(s.watch)
    requires !Duplicate(s.watch, s.watch.pending[0]) && s.watch.pending[0].runId.Some?
    requires g in s.admitted && s.watch.origin <= g.sequence <= s.watch.pending[0].sequence
    ensures Done(Next(s, Forward).watch, s.admitted, g)
  {
    var t := Next(s, Forward);
    var h := s.watch.pending[0];
    assert Done(s.watch, s.admitted, g) ==> Done(t.watch, t.admitted, g);
    if AtOrAfterCursor(s.watch, g) && !Superseded(g, s.admitted) {
      assert h.sequence <= s.watch.pending[|s.watch.pending| - 1].sequence;
      assert g in s.watch.pending;
      var i :| 0 <= i < |s.watch.pending| && s.watch.pending[i] == g;
      assert i == 0;
    }
  }

  lemma StrictSnoc(groups: seq<EventGroup>, group: EventGroup)
    requires Strict(groups)
    requires forall g :: g in groups && g.runId.Some? ==> g.sequence < group.sequence
    ensures Strict(groups + [group])
  {
  }

  lemma ForwardedIsDone(s: System)
    requires Inv(s) && Enabled(s, Forward) && !Exhausted(s.watch)
    requires !Duplicate(s.watch, s.watch.pending[0]) && s.watch.pending[0].runId.Some?
    ensures forall g :: g in s.admitted && s.watch.origin <= g.sequence <= s.watch.pending[0].sequence
                        ==> Done(Next(s, Forward).watch, s.admitted, g)
    ensures forall g :: Done(s.watch, s.admitted, g) ==> Done(Next(s, Forward).watch, s.admitted, g)
  {
    forall g | g in s.admitted && s.watch.origin <= g.sequence <= s.watch.pending[0].sequence
      ensures Done(Next(s, Forward).watch, s.admitted, g)
    {
      NothingLeftBehind(s, g);
    }
  }

  lemma ForwardLastSequence(s: System)
    requires Inv(s) && Enabled(s, Forward) && !Exhausted(s.watch)
    requires !Duplicate(s.watch, s.watch.pending[0]) && s.watch.pending[0].runId.Some?
    requires s.watch.pending[0].sequence == MAX_SAFE_INTEGER
    ensures Inv(Next(s, Forward))
  {
    var t := Next(s, Forward);
    var h := s.watch.pending[0];
    assert h in s.watch.pending && h.sequence <= s.kernel;
    assert h in t.watch.sent;
    ForwardedIsDone(s);
    assert forall g :: g in s.admitted ==> g in s.log && g.sequence <= s.kernel;
  }

  lemma ForwardGroupedKeepsCursor(s: System)
    requires Inv(s) && Enabled(s, Forward) && !Exhausted(s.watch)
    requires !Duplicate(s.watch, s.watch.pending[0]) && s.watch.pending[0].runId.Some?
    requires s.watch.pending[0].sequence < MAX_SAFE_INTEGER
    ensures CursorInv(Next(s, Forward).watch, s.admitted, s.kernel) && !Exhausted(Next(s, Forward).watch)
  {
    var t := Next(s, Forward);
    var h := s.watch.pending[0];
    assert h in s.watch.pending && h.sequence <= s.kernel;
    ForwardedIsDone(s);
    StrictSnoc(s.watch.sent, h);
  }

  /** What is not done after forwarding lies strictly behind the forwarded event. */
  lemma LeftLiesAhead(s: System, g: EventGroup)
    requires Inv(s) && Enabled(s, Forward) && !Exhausted(s.watch)
    requires !Duplicate(s.watch, s.watch.pending[0]) && s.watch.pending[0].runId.Some?
    requires s.watch.pending[0].sequence < MAX_SAFE_INTEGER
    requires g in s.admitted && g.sequence >= s.watch.origin && !Done(Next(s, Forward).watch, s.admitted, g)
    ensures g.sequence > s.watch.pending[0].sequence && !Superseded(g, s.admitted)
    ensures AtOrAfterCursor(Next(s, Forward).watch, g) && AtOrAfterCursor(s.watch, g)
    ensures g in s.watch.pending ==> g in s.watch.pending[1..]
    ensures g in s.watch.pending || Ahead(s.log, s.watch.pos, g)
  {
    ForwardedIsDone(s);
    assert s.watch.pending == [s.watch.pending[0]] + s.watch.pending[1..];
  }

  lemma ForwardGroupedKeepsPending(s: System)
    requires Inv(s) && Enabled(s, Forward) && !Exhausted(s.watch)
    requires !Duplicate(s.watch, s.watch.pending[0]) && s.watch.pending[0].runId.Some?
    requires s.watch.pending[0].sequence < MAX_SAFE_INTEGER
    ensures PendingInv(Next(s, Forward).watch, s.admitted, s.kernel)
    ensures CoverageInv(Next(s, Forward).watch, s.log, s.admitted)
  {
    var w := Next(s, Forward).watch;
    var pending := s.watch.pending;
    assert w.pending == pending[1..] && w.pos == s.watch.pos && w.origin == s.watch.origin;
    assert forall g :: g in w.pending ==> g in pending;
    forall g | g in s.admitted && g.sequence >= w.origin && !Done(w, s.admitted, g)
      ensures g in w.pending || (Ahead(s.log, w.pos, g) && AtOrAfterCursor(w, g))
      ensures w.pending != [] && g.sequence <= pending[|pending| - 1].sequence ==> g in w.pending
    {
      LeftLiesAhead(s, g);
    }
    forall g | g in s.admitted && g.sequence >= w.origin && AtOrAfterCursor(w, g) && w.pending != []
               && g.sequence <= w.pending[|w.pending| - 1].sequence
      ensures g in w.pending || Superseded(g, s.admitted)
    {
      if g in w.sent {
        ForwardGroupedKeepsCursor(s);
      }
    }
  }

  lemma ForwardGroupedKeepsInv(s: System)
    requires Inv(s) && Enabled(s, Forward) && !Exhausted(s.watch)
    requires !Duplicate(s.watch, s.watch.pending[0]) && s.watch.pending[0].runId.Some?
    ensures Inv(Next(s, Forward))
  {
    if s.watch.pending[0].sequence == MAX_SAFE_INTEGER {
      ForwardLastSequence(s);
    } else {
      ForwardGroupedKeepsCursor(s);
      ForwardGroupedKeepsPending(s);
    }
  }

  lemma ExhaustedStays(s: System, step: Step)
    requires Inv(s) && Enabled(s, step) && (step.Receive? || step.Lagged? || step.Forward?)
    requires Exhausted(s.watch)
    ensures var t := Next(s, step); WatchInv(t.watch, t.log, t.admitted, t.kernel)
  {
    var t := Next(s, step);
    assert forall g :: g in s.watch.sent ==> g in t.watch.sent;
    assert Exhausted(t.watch);
    assert forall g :: g in s.admitted && Done(s.watch, s.admitted, g) ==> Done(t.watch, t.admitted, g);
  }

  // ---------------------------------------------------------------- every run

  lemma StepKeepsInv(s: System, step: Step)
    requires Inv(s) && Enabled(s, step)
    ensures Inv(Next(s, step))
  {
    match step
    case Emit(group, baseline) =>
      EmitKeepsJournal(s, group, baseline);
      EmitKeepsWatch(s, group, baseline);
    case TerminalFallback => FallbackKeepsInv(s);
    case Attach(how) => AttachKeepsInv(s, how);
    case Receive =>
      if Exhausted(s.watch) {
        ExhaustedStays(s, step);
      } else if s.watch.pos < |s.log| {
        ReceiveLiveKeepsInv(s);
      }
    case Lagged(reported) =>
      if Exhausted(s.watch) {
        ExhaustedStays(s, step);
      } else {
        LaggedKeepsInv(s, reported);
      }
    case Forward =>
      if Exhausted(s.watch) {
        ExhaustedStays(s, step);
      } else if Duplicate(s.watch, s.watch.pending[0]) {
        ForwardDuplicateKeepsInv(s);
      } else if s.watch.pending[0].runId.None? {
        ForwardUngroupedKeepsInv(s);
      } else {
        ForwardGroupedKeepsInv(s);
      }
    case Stop =>
  }

  lemma {:induction false} RunKeepsInv(s: System, run: seq<Step>)
    requires Inv(s) && Possible(s, run)
    ensures Inv(After(s, run))
    decreases |run|
  {
    if run != [] {
      StepKeepsInv(s, run[0]);
      RunKeepsInv(Next(s, run[0]), run[1..]);
    }
  }
}
