/** What every run of the watcher protocol guarantees, and where the duplicate filter ends. */
module WatchGuarantees {
  import opened Wrappers
  import opened Projection
  import opened Journals
  import opened WatchProtocol

  ghost predicate Reachable(s: System) {
    exists capacity: nat, run: seq<Step> :: Reaches(capacity, run, s)
  }

  predicate Reaches(capacity: nat, run: seq<Step>, s: System) {
    Possible(Initial(capacity), run) && After(Initial(capacity), run) == s
  }

  lemma ReachableInitial(capacity: nat)
    ensures Reachable(Initial(capacity))
  {
    assert Reaches(capacity, [], Initial(capacity));
  }

  lemma {:induction false} RunSnoc(s: System, run: seq<Step>, step: Step)
    requires Possible(s, run) && Enabled(After(s, run), step)
    ensures Possible(s, run + [step]) && After(s, run + [step]) == Next(After(s, run), step)
    decreases |run|
  {
    if run == [] {
      assert [step][1..] == [];
    } else {
      assert (run + [step])[1..] == run[1..] + [step];
      RunSnoc(Next(s, run[0]), run[1..], step);
    }
  }

  lemma ReachableStep(s: System, step: Step)
    requires Reachable(s) && Enabled(s, step)
    ensures Reachable(Next(s, step))
  {
    var capacity: nat, run: seq<Step> :| Reaches(capacity, run, s);
    RunSnoc(Initial(capacity), run, step);
    assert Reaches(capacity, run + [step], Next(s, step));
  }

  lemma ReachableInv(s: System)
    requires Reachable(s)
    ensures Inv(s)
  {
    var capacity: nat, run: seq<Step> :| Reaches(capacity, run, s);
    RunKeepsInv(Initial(capacity), run);
  }

  // ---------------------------------------------------------------- order

  /** No grouped event at the last representable sequence was forwarded before position `k`. */
  ghost predicate LastNotBefore(groups: seq<EventGroup>, k: int) {
    forall m :: 0 <= m < k && m < |groups| && groups[m].runId.Some? ==> groups[m].sequence < MAX_SAFE_INTEGER
  }

  /** The grouped sequences increase up to and including the first last representable one. */
  ghost predicate StrictUpToLast(groups: seq<EventGroup>) {
    forall i, k :: 0 <= i < k < |groups| && groups[i].runId.Some? && groups[k].runId.Some? && LastNotBefore(groups, k)
                   ==> groups[i].sequence < groups[k].sequence
  }

  lemma SnocUpToLast(groups: seq<EventGroup>, group: EventGroup)
    requires StrictUpToLast(groups)
    requires LastNotBefore(groups, |groups|) && group.runId.Some? ==>
               forall g :: g in groups && g.runId.Some? ==> g.sequence < group.sequence
    ensures StrictUpToLast(groups + [group])
  {
    var more := groups + [group];
    forall i, k | 0 <= i < k < |more| && more[i].runId.Some? && more[k].runId.Some? && LastNotBefore(more, k)
      ensures more[i].sequence < more[k].sequence
    {
      assert forall m :: 0 <= m < |groups| ==> more[m] == groups[m];
      assert LastNotBefore(groups, k);
      assert more[i] in groups;
    }
  }

  lemma ForwardKeepsUpToLast(s: System)
    requires Inv(s) && Enabled(s, Forward) && StrictUpToLast(s.watch.sent)
    ensures StrictUpToLast(ForwardStep(s.watch).sent)
  {
    var h := s.watch.pending[0];
    if !Duplicate(s.watch, h) {
      if Exhausted(s.watch) {
        var g :| g in s.watch.sent && g.runId.Some? && g.sequence == MAX_SAFE_INTEGER;
        var m :| 0 <= m < |s.watch.sent| && s.watch.sent[m] == g;
        assert !LastNotBefore(s.watch.sent, |s.watch.sent|);
      }
      SnocUpToLast(s.watch.sent, h);
    }
  }

  lemma FeedIsStrict(s: System, feed: Feed)
    requires JournalInv(s.st, s.log, s.admitted, s.kernel) && s.st.journal.Some?
    requires feed.backlog == From(s.st.journal.value.groups, feed.nextSequence)
    requires s.st.journal.value.groups[0].sequence <= feed.nextSequence
    ensures Strict(Attached(s, feed).sent)
  {
    SuffixCovers(s, feed.nextSequence);
    assert forall i :: 0 <= i < |feed.backlog| ==> feed.backlog[i] in feed.backlog;
    AttachedFields(s, feed);
  }

  lemma AttachKeepsUpToLast(s: System, how: Attachment)
    requires Inv(s) && Enabled(s, Attach(how))
    ensures StrictUpToLast(Next(s, Attach(how)).watch.sent)
  {
    if !how.AtLive? {
      var feed := if how.AtStart? then SubscribeFromStart(s.st).value
                  else SubscribeFromCursor(s.st, how.run, how.sequence).value;
      if how.AtStart? {
        FromAll(s.st.journal.value.groups, feed.nextSequence);
      }
      FeedIsStrict(s, feed);
    }
  }

  lemma StepKeepsUpToLast(s: System, step: Step)
    requires Inv(s) && Enabled(s, step) && StrictUpToLast(s.watch.sent)
    ensures StrictUpToLast(Next(s, step).watch.sent)
  {
    if step.Forward? {
      ForwardKeepsUpToLast(s);
    } else if step.Attach? {
      AttachKeepsUpToLast(s, step.how);
    } else {
      assert Next(s, step).watch.sent == s.watch.sent;
    }
  }

  lemma {:induction false} RunKeepsUpToLast(s: System, run: seq<Step>)
    requires Inv(s) && Possible(s, run) && StrictUpToLast(s.watch.sent)
    ensures StrictUpToLast(After(s, run).watch.sent)
    decreases |run|
  {
    if run != [] {
      StepKeepsInv(s, run[0]);
      StepKeepsUpToLast(s, run[0]);
      RunKeepsUpToLast(Next(s, run[0]), run[1..]);
    }
  }

  /** Only the newest forwarded grouped event has the last representable sequence, if any has. */
  ghost predicate NothingFollowsLast(groups: seq<EventGroup>) {
    forall i, k :: 0 <= i < k < |groups| && groups[i].runId.Some? && groups[k].runId.Some?
                   ==> groups[i].sequence < MAX_SAFE_INTEGER
  }

  lemma StrictExactly(groups: seq<EventGroup>)
    requires StrictUpToLast(groups)
    ensures Strict(groups) <==> NothingFollowsLast(groups)
  {
    if NothingFollowsLast(groups) {
      forall i, k | 0 <= i < k < |groups| && groups[i].runId.Some? && groups[k].runId.Some?
        ensures groups[i].sequence < groups[k].sequence
      {
        assert LastNotBefore(groups, k);
      }
    }
  }

  /** Whatever interleaving of emissions, overflow and lag recovery happened, the grouped sequences a
      watcher forwarded increase up to the last representable one, and they strictly increase throughout
      exactly when nothing grouped was forwarded after that one. */
  lemma ForwardedStrictlyIncrease(s: System)
    requires Reachable(s)
    ensures StrictUpToLast(s.watch.sent)
    ensures Strict(s.watch.sent) <==> NothingFollowsLast(s.watch.sent)
  {
    var capacity: nat, run: seq<Step> :| Reaches(capacity, run, s);
    RunKeepsUpToLast(Initial(capacity), run);
    StrictExactly(s.watch.sent);
  }

  /** The cursor that filters duplicates is lost exactly after the last representable sequence. */
  lemma CursorLostExactly(w: Watch, group: EventGroup)
    requires group.runId.Some?
    ensures RecordSent(w, group).next.None? <==> group.sequence == MAX_SAFE_INTEGER
    ensures RecordSent(w, group).next.Some? ==>
              forall later: EventGroup :: Duplicate(RecordSent(w, group), later) <==> later.sequence <= group.sequence
  {
  }

  function Grouped(run: RunId, sequence: Sequence, phase: Option<Phase>): EventGroup {
    EventGroup(Some(run), sequence, [Content("text")], phase, None, None, None, None)
  }

  const FIRST := Grouped("run", MAX_SAFE_INTEGER - 3, Some(Start))
  const SECOND := Grouped("run", MAX_SAFE_INTEGER - 2, None)
  const MIDDLE := Grouped("run", MAX_SAFE_INTEGER - 1, None)
  const LAST := Grouped("run", MAX_SAFE_INTEGER, None)

  /** A watcher that forwarded the first of four groups and lagged behind the other three; the channel
      still holds the last two. */
  const LAGGED := System(
    State(Some(Journal("run", AgentRun, [], [FIRST, SECOND, MIDDLE, LAST], true, true)), Some(MAX_SAFE_INTEGER), Idle),
    [FIRST, SECOND, MIDDLE, LAST], 2, MAX_SAFE_INTEGER, [FIRST, SECOND, MIDDLE, LAST],
    Watch(Some("run"), Some(MAX_SAFE_INTEGER - 2), 1, [], Some(MAX_SAFE_INTEGER - 3), true, [FIRST], Idle, 1))

  lemma FirstForwarded() returns (s: System)
    ensures Reachable(s)
    ensures s.log == [FIRST] && s.admitted == [FIRST] && s.capacity == 2 && s.kernel == FIRST.sequence
    ensures s.st == State(Some(Journal("run", AgentRun, [], [FIRST], true, true)), Some(FIRST.sequence), Idle)
    ensures s.watch == LAGGED.watch
  {
    var s0 := Initial(2);
    ReachableInitial(2);
    ReachableStep(s0, Attach(AtLive));
    var s1 := Next(s0, Attach(AtLive));
    ReachableStep(s1, Emit(FIRST, []));
    var s2 := Next(s1, Emit(FIRST, []));
    assert s2.log == [FIRST] && s2.admitted == [FIRST];
    ReachableStep(s2, Receive);
    var s3 := Next(s2, Receive);
    ReachableStep(s3, Forward);
    s := Next(s3, Forward);
    assert s.watch.pending == [] && s.watch.sent == [FIRST];
  }

  lemma LaggedReachable()
    ensures Reachable(LAGGED)
  {
    var s0 := FirstForwarded();
    ReachableStep(s0, Emit(SECOND, []));
    var s1 := Next(s0, Emit(SECOND, []));
    assert s1.log == [FIRST, SECOND] && s1.admitted == [FIRST, SECOND];
    ReachableStep(s1, Emit(MIDDLE, []));
    var s2 := Next(s1, Emit(MIDDLE, []));
    assert s2.log == [FIRST, SECOND, MIDDLE] && s2.admitted == [FIRST, SECOND, MIDDLE];
    ReachableStep(s2, Emit(LAST, []));
    var s3 := Next(s2, Emit(LAST, []));
    assert s3.log == LAGGED.log && s3.admitted == LAGGED.admitted;
    assert s3.st == LAGGED.st;
  }

  /** Lag recovery forwards the other three, and the cursor is lost. */
  lemma RecoveredReachable() returns (s: System)
    ensures Reachable(s)
    ensures s == LAGGED.(watch := s.watch)
    ensures s.watch.live && s.watch.next == None && s.watch.pos == 2 && s.watch.pending == []
    ensures s.watch.sent == [FIRST, SECOND, MIDDLE, LAST]
  {
    LaggedReachable();
    RecoverThree(FIRST, SECOND, MIDDLE, LAST);
    ReachableStep(LAGGED, Lagged(2));
    var s1 := Next(LAGGED, Lagged(2));
    assert s1.watch == LAGGED.watch.(pos := 2, pending := [SECOND, MIDDLE, LAST]);
    ReachableStep(s1, Forward);
    var s2 := Next(s1, Forward);
    assert s2.watch.pending == [MIDDLE, LAST] && s2.watch.sent == [FIRST, SECOND];
    ReachableStep(s2, Forward);
    var s3 := Next(s2, Forward);
    assert s3.watch.pending == [LAST] && s3.watch.sent == [FIRST, SECOND, MIDDLE];
    ReachableStep(s3, Forward);
    s := Next(s3, Forward);
    assert s.watch.pending == [] && s.watch.sent == [FIRST, SECOND, MIDDLE, LAST];
  }

  /** The condition is needed: once the last representable sequence was forwarded, every recovered event
      that the channel still holds is forwarded again, the last one as well as earlier ones. */
  lemma LastSequenceCanRepeat() returns (s: System)
    ensures Reachable(s) && s.watch.live
    ensures s.watch.sent == [FIRST, SECOND, MIDDLE, LAST, MIDDLE, LAST]
    ensures LAST.sequence == MAX_SAFE_INTEGER && MIDDLE.sequence < LAST.sequence
  {
    s := RecoveredReachable();
    s := ForwardNext(s);
    s := ForwardNext(s);
  }

  /** The next group of the channel is received and forwarded. */
  lemma ForwardNext(s: System) returns (t: System)
    requires Reachable(s) && s.watch.live && s.watch.pending == []
    requires Floor(s.log, s.capacity) <= s.watch.pos < |s.log|
    requires s.log[s.watch.pos].runId.Some? && !Duplicate(s.watch, s.log[s.watch.pos])
    ensures Reachable(t) && t == s.(watch := t.watch) && t.watch.live && t.watch.pending == []
    ensures t.watch.pos == s.watch.pos + 1 && t.watch.sent == s.watch.sent + [s.log[s.watch.pos]]
    ensures t.watch.next == SequenceOf(s.log[s.watch.pos].sequence + 1)
  {
    ReachableStep(s, Receive);
    var r := Next(s, Receive);
    ReachableStep(r, Forward);
    t := Next(r, Forward);
    assert r.watch.pending == [s.log[s.watch.pos]];
    assert t.watch.pending == [];
  }

  lemma RecoverThree(start: EventGroup, a: EventGroup, b: EventGroup, c: EventGroup)
    requires start.sequence < a.sequence < b.sequence < c.sequence
    ensures From([start, a, b, c], a.sequence) == [a, b, c]
  {
    assert [start, a, b, c] == [start] + [a, b, c];
    DropOlder(start, [a, b, c], a.sequence);
    FromAll([a, b, c], a.sequence);
  }

  // ---------------------------------------------------------------- coverage

  /** The watcher after forwarding everything it has received. */
  function Drained(w: Watch): Watch
    decreases |w.pending|
  {
    if w.pending == [] then w else Drained(ForwardStep(w))
  }

  lemma {:induction false} DrainedKeepsInv(s: System)
    requires Inv(s) && s.watch.live
    ensures Inv(s.(watch := Drained(s.watch)))
    ensures var d := Drained(s.watch);
            && d.live && d.pending == [] && d.pos == s.watch.pos && d.origin == s.watch.origin
            && (forall g :: g in d.sent ==> g in s.watch.sent || g in s.watch.pending)
    decreases |s.watch.pending|
  {
    if s.watch.pending == [] {
      assert s.(watch := s.watch) == s;
    } else {
      StepKeepsInv(s, Forward);
      var t := Next(s, Forward);
      assert forall g :: g in t.watch.pending ==> g in s.watch.pending;
      DrainedKeepsInv(t);
      assert t.(watch := Drained(t.watch)) == s.(watch := Drained(s.watch));
    }
  }

  ghost predicate InChannel(s: System, group: EventGroup) {
    exists i :: s.watch.pos <= i < |s.log| && Floor(s.log, s.capacity) <= i && s.log[i] == group
  }

  /** The journal hands the group out when the watcher, done with what it received, recovers. */
  ghost predicate InJournal(s: System, group: EventGroup) {
    var recovered := Recover(s.st, Drained(s.watch));
    recovered.Ok? && group in recovered.value
  }

  /** The watcher has lagged and its cursor is no longer served. */
  predicate MustStop(s: System) {
    s.watch.pos < Floor(s.log, s.capacity) && Recover(s.st, Drained(s.watch)).Err?
  }

  /** Until it stops, every group an Operation's journal took in, from the watcher's cursor on, was
      forwarded, is waiting, is still in the channel or the journal, or was superseded by a later
      group with the same snapshot key. */
  lemma NothingIsLost(s: System, group: EventGroup)
    requires Reachable(s) && s.watch.live && !MustStop(s)
    requires group in s.admitted && group.sequence >= s.watch.origin
    ensures || group in s.watch.sent || group in s.watch.pending
            || InChannel(s, group) || InJournal(s, group)
            || Superseded(group, s.admitted)
  {
    ReachableInv(s);
    DrainedKeepsInv(s);
    var d := Drained(s.watch);
    if !Done(d, s.admitted, group) && !Exhausted(d) {
      var i :| d.pos <= i < |s.log| && s.log[i] == group;
      if i < Floor(s.log, s.capacity) {
        StillRetained(s, d, group);
      }
    }
  }

  /** What a watcher whose cursor is served has not forwarded yet is in the journal, or superseded. */
  lemma StillRetained(s: System, w: Watch, group: EventGroup)
    requires JournalInv(s.st, s.log, s.admitted, s.kernel) && Recover(s.st, w).Ok?
    requires group in s.admitted && AtOrAfterCursor(w, group)
    ensures group in Recover(s.st, w).value || Superseded(group, s.admitted)
  {
    var groups := s.st.journal.value.groups;
    FromProperties(groups, w.next.value);
    assert group.sequence >= groups[0].sequence;
  }

  /** Only lag stops a watcher by itself, and exactly when its cursor is refused, whatever was emitted
      between the report of the lag and the reading of the journal. */
  lemma StopsExactlyWhenRefused(s: System, step: Step)
    requires Enabled(s, step) && (step.Receive? || step.Lagged? || step.Forward?)
    ensures Next(s, step).watch.live <==> !(step.Lagged? && MustStop(s))
  {
  }

  /** A watcher that has caught up has forwarded everything that was not superseded. */
  lemma CaughtUpIsComplete(s: System, group: EventGroup)
    requires Reachable(s) && s.watch.live && s.watch.pending == [] && s.watch.pos == |s.log|
    requires group in s.admitted && group.sequence >= s.watch.origin
    ensures group in s.watch.sent || Superseded(group, s.admitted)
  {
    ReachableInv(s);
  }

  /** In every reachable state a retained journal is non-empty, begins with its Start group, is
      strictly sorted, carries one run id and has at most one group per snapshot key. */
  lemma JournalAlwaysValid(s: System)
    requires Reachable(s) && s.st.journal.Some?
    ensures ValidJournal(s.st.journal.value)
  {
    ReachableInv(s);
  }
}
