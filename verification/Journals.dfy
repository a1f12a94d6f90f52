/** What the Operation journal of crates/acp/src/projection.rs keeps: its exact contents after any
    run of appends, the cursors it accepts, and the client view it reproduces. */
module Journals {
  import opened Wrappers
  import opened Projection

  // ---------------------------------------------------------------- reference definitions

  ghost predicate Sorted(groups: seq<EventGroup>) {
    forall i, j :: 0 <= i < j < |groups| ==> groups[i].sequence < groups[j].sequence
  }

  predicate HasKey(groups: seq<EventGroup>, key: Option<string>) {
    exists i :: 0 <= i < |groups| && groups[i].snapshotOf == key
  }

  /** Every group that no later group with the same snapshot key replaces. */
  function Latest(groups: seq<EventGroup>): seq<EventGroup> {
    if groups == [] then []
    else if groups[0].snapshotOf.Some? && HasKey(groups[1..], groups[0].snapshotOf) then Latest(groups[1..])
    else [groups[0]] + Latest(groups[1..])
  }

  /** The groups of one run, up to and including the one that ends it. */
  function Own(run: RunId, groups: seq<EventGroup>): seq<EventGroup> {
    if groups == [] then []
    else if groups[0].runId != Some(run) then Own(run, groups[1..])
    else if groups[0].phase == Some(End) then [groups[0]]
    else [groups[0]] + Own(run, groups[1..])
  }

  predicate Ended(run: RunId, groups: seq<EventGroup>) {
    exists i :: 0 <= i < |groups| && groups[i].runId == Some(run) && groups[i].phase == Some(End)
  }

  ghost predicate NoStart(groups: seq<EventGroup>) {
    forall i :: 0 <= i < |groups| ==> groups[i].phase != Some(Start)
  }

  /** Appending groups that open no Operation; none of them can be refused. */
  function AppendAll(st: State, groups: seq<EventGroup>): State
    requires NoStart(groups)
    decreases |groups|
  {
    if groups == [] then st else AppendAll(Append(st, groups[0], []).value, groups[1..])
  }

  // ---------------------------------------------------------------- one append

  lemma {:induction false} RetainConcat(a: seq<EventGroup>, b: seq<EventGroup>, key: string)
    ensures Retain(a + b, key) == Retain(a, key) + Retain(b, key)
  {
    if b == [] {
      assert a + b == a;
    } else {
      assert (a + b)[..|a + b| - 1] == a + b[..|b| - 1];
      RetainConcat(a, b[..|b| - 1], key);
    }
  }

  lemma HasKeyLast(groups: seq<EventGroup>, group: EventGroup, key: Option<string>)
    ensures HasKey(groups + [group], key) <==> HasKey(groups, key) || group.snapshotOf == key
  {
    var more := groups + [group];
    assert more[|groups|] == group;
    assert forall i :: 0 <= i < |groups| ==> more[i] == groups[i];
  }

  lemma RetainFirst(group: EventGroup, groups: seq<EventGroup>, key: string)
    ensures Retain([group] + groups, key) == (if group.snapshotOf == Some(key) then [] else [group]) + Retain(groups, key)
  {
    RetainConcat([group], groups, key);
    assert [group][..0] == [];
  }

  lemma {:induction false} LatestPush(groups: seq<EventGroup>, group: EventGroup)
    ensures Latest(groups + [group]) == Push(Latest(groups), group)
  {
    if groups == [] {
      assert groups + [group] == [group];
      assert Retain([], "") == [];
    } else {
      var h, t := groups[0], groups[1..];
      assert (groups + [group])[1..] == t + [group];
      LatestPush(t, group);
      HasKeyLast(t, group, h.snapshotOf);
      if group.snapshotOf.Some? {
        RetainFirst(h, Latest(t), group.snapshotOf.value);
      }
    }
  }

  // ---------------------------------------------------------------- any run of appends

  lemma {:induction false} EndedStep(run: RunId, groups: seq<EventGroup>)
    requires groups != []
    ensures Ended(run, groups) <==>
            (groups[0].runId == Some(run) && groups[0].phase == Some(End)) || Ended(run, groups[1..])
  {
    if Ended(run, groups[1..]) {
      var i :| 0 <= i < |groups[1..]| && groups[1..][i].runId == Some(run) && groups[1..][i].phase == Some(End);
      assert groups[i + 1] == groups[1..][i];
    }
    if Ended(run, groups) {
      var i :| 0 <= i < |groups| && groups[i].runId == Some(run) && groups[i].phase == Some(End);
      assert i == 0 || groups[1..][i - 1] == groups[i];
    }
  }

  lemma {:induction false} AppendAllJournal(st: State, admitted: seq<EventGroup>, groups: seq<EventGroup>)
    requires st.journal.Some? && st.journal.value.groups == Latest(admitted)
    requires NoStart(groups)
    ensures var j := st.journal.value;
            AppendAll(st, groups).journal ==
            Some(j.(groups := Latest(admitted + if j.running then Own(j.runId, groups) else []),
                    running := j.running && !Ended(j.runId, groups)))
    decreases |groups|
  {
    var j := st.journal.value;
    if groups == [] {
      assert admitted + [] == admitted;
    } else {
      var g, rest := groups[0], groups[1..];
      var next := Append(st, g, []).value;
      assert forall i :: 0 <= i < |rest| ==> rest[i] == groups[i + 1];
      EndedStep(j.runId, groups);
      if Admits(st, g) {
        LatestPush(admitted, g);
        AppendAllJournal(next, admitted + [g], rest);
        assert admitted + [g] + Own(j.runId, rest) == admitted + ([g] + Own(j.runId, rest));
        assert admitted + [g] + [] == admitted + [g];
      } else {
        AppendAllJournal(next, admitted, rest);
      }
    }
  }

  /** After an Operation starts, its journal holds exactly the latest of its own groups, and it runs
      until the group that ends it. */
  lemma {:induction false} JournalContents(st: State, start: EventGroup, baseline: seq<string>, groups: seq<EventGroup>)
    requires start.phase == Some(Start) && start.runId.Some?
    requires NoStart(groups)
    ensures var run := start.runId.value;
            AppendAll(Append(st, start, baseline).value, groups).journal ==
            Some(Opened(start, baseline).(groups := Latest([start] + Own(run, groups)),
                                          running := !Ended(run, groups)))
  {
    assert [start][1..] == [];
    assert Latest([start]) == [start] + Latest([]);
    AppendAllJournal(Append(st, start, baseline).value, [start], groups);
  }

  /** What an attachment receives beside its groups: where the journal ends, what was broadcast last, the
      foreground state, and whether the Operation runs. */
  ghost predicate Describes(feed: Feed, st: State) {
    && st.journal.Some? && st.journal.value.groups != []
    && feed.runId == st.journal.value.runId && (feed.running <==> st.journal.value.running)
    && feed.tailSequence == st.journal.value.groups[|st.journal.value.groups| - 1].sequence
    && feed.delivered == st.lastSequence && feed.state == st.foreground
  }

  lemma LatestKeepsLast(groups: seq<EventGroup>)
    requires groups != []
    ensures Latest(groups) != []
  {
    LatestPush(groups[..|groups| - 1], groups[|groups| - 1]);
    assert groups == groups[..|groups| - 1] + [groups[|groups| - 1]];
  }

  /** At any point after an Operation's start, an attachment from the start receives the baseline captured
      with the start and the latest of the Operation's own groups; one from an accepted cursor receives no
      baseline. Both describe the state they are taken from. */
  lemma FeedsOfOperation(st: State, start: EventGroup, baseline: seq<string>, groups: seq<EventGroup>, cursor: Sequence)
    requires start.phase == Some(Start) && start.runId.Some? && NoStart(groups)
    ensures var run := start.runId.value;
            var now := AppendAll(Append(st, start, baseline).value, groups);
            SubscribeFromStart(now).Ok? &&
            var feed := SubscribeFromStart(now).value;
            && feed.baseline == baseline && feed.backlog == Latest([start] + Own(run, groups)) && Describes(feed, now)
            && feed.nextSequence == feed.backlog[0].sequence && (feed.running <==> !Ended(run, groups))
    ensures var now := AppendAll(Append(st, start, baseline).value, groups);
            SubscribeFromCursor(now, start.runId.value, cursor).Ok? ==>
              var resumed := SubscribeFromCursor(now, start.runId.value, cursor).value;
              resumed.baseline == [] && resumed.nextSequence == cursor && Describes(resumed, now)
  {
    JournalContents(st, start, baseline, groups);
    LatestKeepsLast([start] + Own(start.runId.value, groups));
  }

  // ---------------------------------------------------------------- the journal invariant

  ghost predicate ValidGroups(groups: seq<EventGroup>, run: RunId) {
    && groups != []
    && groups[0].phase == Some(Start)
    && groups[0].snapshotOf.None?
    && Sorted(groups)
    && (forall i :: 0 <= i < |groups| ==> groups[i].runId == Some(run))
    && (forall i :: 0 < i < |groups| ==> groups[i].phase != Some(Start))
    && (forall i, k :: 0 <= i < k < |groups| && groups[i].snapshotOf.Some?
                       ==> groups[i].snapshotOf != groups[k].snapshotOf)
  }

  /** A retained journal: it begins with its Start group, is strictly sorted, carries one run id
      and holds at most one group per snapshot key. */
  ghost predicate ValidJournal(j: Journal) {
    ValidGroups(j.groups, j.runId)
  }

  lemma {:induction false} RetainMembers(groups: seq<EventGroup>, key: string)
    ensures forall g :: g in Retain(groups, key) <==> g in groups && g.snapshotOf != Some(key)
  {
    if groups != [] {
      RetainMembers(groups[..|groups| - 1], key);
      assert groups == groups[..|groups| - 1] + [groups[|groups| - 1]];
    }
  }

  lemma ValidInit(groups: seq<EventGroup>, run: RunId)
    requires ValidGroups(groups, run) && |groups| > 1
    ensures ValidGroups(groups[..|groups| - 1], run)
    ensures forall g :: g in groups[..|groups| - 1] ==> g.sequence < groups[|groups| - 1].sequence
  {
  }

  /** What a group may be to follow a valid list: newer, of the same run, no Start, no repeated key. */
  ghost predicate Follows(groups: seq<EventGroup>, run: RunId, group: EventGroup) {
    && group.runId == Some(run) && group.phase != Some(Start)
    && (forall g :: g in groups ==> g.sequence < group.sequence)
    && (group.snapshotOf.Some? ==> forall g :: g in groups ==> g.snapshotOf != group.snapshotOf)
  }

  lemma ValidSnoc(groups: seq<EventGroup>, run: RunId, group: EventGroup)
    requires ValidGroups(groups, run) && Follows(groups, run, group)
    ensures ValidGroups(groups + [group], run)
  {
    var all := groups + [group];
    forall i, k | 0 <= i < k < |all|
      ensures all[i].sequence < all[k].sequence
      ensures all[i].snapshotOf.Some? ==> all[i].snapshotOf != all[k].snapshotOf
    {
      assert all[i] in groups;
    }
  }

  lemma DistinctFromLast(groups: seq<EventGroup>, run: RunId)
    requires ValidGroups(groups, run) && |groups| > 1
    ensures Follows(groups[..|groups| - 1], run, groups[|groups| - 1])
  {
    var front, last := groups[..|groups| - 1], groups[|groups| - 1];
    forall g | g in front
      ensures g.sequence < last.sequence
      ensures last.snapshotOf.Some? ==> g.snapshotOf != last.snapshotOf
    {
      var i :| 0 <= i < |front| && front[i] == g;
      assert groups[i] == g;
    }
  }

  lemma {:induction false} RetainValid(groups: seq<EventGroup>, run: RunId, key: string)
    requires ValidGroups(groups, run)
    ensures ValidGroups(Retain(groups, key), run)
    ensures Retain(groups, key)[0] == groups[0]
  {
    var front, last := groups[..|groups| - 1], groups[|groups| - 1];
    if front == [] {
      assert groups == [last];
      assert Retain(front, key) == [];
    } else {
      ValidInit(groups, run);
      DistinctFromLast(groups, run);
      RetainValid(front, run, key);
      RetainMembers(front, key);
      if last.snapshotOf != Some(key) {
        ValidSnoc(Retain(front, key), run, last);
      }
    }
  }

  lemma NewerThanAll(groups: seq<EventGroup>, run: RunId, sequence: nat)
    requires ValidGroups(groups, run) && groups[|groups| - 1].sequence < sequence
    ensures forall g :: g in groups ==> g.sequence < sequence
  {
  }

  lemma {:induction false} PushValid(groups: seq<EventGroup>, run: RunId, group: EventGroup)
    requires ValidGroups(groups, run)
    requires groups[|groups| - 1].sequence < group.sequence
    requires group.runId == Some(run) && group.phase != Some(Start)
    ensures ValidGroups(Push(groups, group), run)
    ensures Push(groups, group)[0] == groups[0]
    ensures forall g :: g in Push(groups, group) ==> g == group || g in groups
  {
    NewerThanAll(groups, run, group.sequence);
    if group.snapshotOf.Some? {
      RetainValid(groups, run, group.snapshotOf.value);
      RetainMembers(groups, group.snapshotOf.value);
      ValidSnoc(Retain(groups, group.snapshotOf.value), run, group);
    } else {
      ValidSnoc(groups, run, group);
    }
  }

  /** What the event sink guarantees of every group: an Operation boundary is never a snapshot. */
  predicate WellFormed(group: EventGroup) {
    group.phase == Some(Start) ==> group.snapshotOf.None?
  }

  /** One append of a newer group keeps the journal valid, whichever branch it takes. */
  lemma {:induction false} AppendKeepsValid(st: State, group: EventGroup, baseline: seq<string>)
    requires st.journal.Some? ==> ValidJournal(st.journal.value)
    requires st.journal.Some? ==> st.journal.value.groups[|st.journal.value.groups| - 1].sequence < group.sequence
    requires WellFormed(group)
    ensures var r := Append(st, group, baseline);
            r.Ok? && r.value.journal.Some? ==> ValidJournal(r.value.journal.value)
  {
    if group.phase != Some(Start) && Admits(st, group) {
      PushValid(st.journal.value.groups, st.journal.value.runId, group);
    }
  }

  // ---------------------------------------------------------------- cursors

  lemma {:induction false} FromMembers(groups: seq<EventGroup>, sequence: nat)
    ensures forall g :: g in From(groups, sequence) <==> g in groups && g.sequence >= sequence
  {
    if groups != [] {
      var front, last := groups[..|groups| - 1], groups[|groups| - 1];
      FromMembers(front, sequence);
      assert groups == front + [last];
    }
  }

  lemma {:induction false} FromSorted(groups: seq<EventGroup>, sequence: nat)
    requires Sorted(groups)
    ensures Sorted(From(groups, sequence))
  {
    if groups != [] {
      var front := groups[..|groups| - 1];
      FromSorted(front, sequence);
      FromMembers(front, sequence);
      var kept := From(front, sequence);
      assert forall i :: 0 <= i < |kept| ==> kept[i] in front;
    }
  }

  lemma FromProperties(groups: seq<EventGroup>, sequence: nat)
    ensures forall g :: g in From(groups, sequence) <==> g in groups && g.sequence >= sequence
    ensures Sorted(groups) ==> Sorted(From(groups, sequence))
  {
    FromMembers(groups, sequence);
    if Sorted(groups) {
      FromSorted(groups, sequence);
    }
  }

  lemma {:induction false} FromConcat(a: seq<EventGroup>, b: seq<EventGroup>, sequence: nat)
    ensures From(a + b, sequence) == From(a, sequence) + From(b, sequence)
  {
    if b == [] {
      assert a + b == a;
    } else {
      assert (a + b)[..|a + b| - 1] == a + b[..|b| - 1];
      FromConcat(a, b[..|b| - 1], sequence);
    }
  }

  lemma {:induction false} FromAll(groups: seq<EventGroup>, sequence: nat)
    requires forall g :: g in groups ==> g.sequence >= sequence
    ensures From(groups, sequence) == groups
  {
    if groups != [] {
      assert groups == groups[..|groups| - 1] + [groups[|groups| - 1]];
      FromAll(groups[..|groups| - 1], sequence);
    }
  }

  lemma {:induction false} FromNone(groups: seq<EventGroup>, sequence: nat)
    requires forall g :: g in groups ==> g.sequence < sequence
    ensures From(groups, sequence) == []
  {
    if groups != [] {
      assert groups == groups[..|groups| - 1] + [groups[|groups| - 1]];
      FromNone(groups[..|groups| - 1], sequence);
    }
  }

  ghost predicate CursorAccepted(st: State, run: RunId, sequence: Sequence) {
    && st.journal.Some? && st.journal.value.incremental
    && st.journal.value.runId == run
    && Covers(st.journal.value.groups, sequence)
  }

  /** The recovery plan, the subscription and the lag snapshot agree on which cursors they accept,
      and both readers hand out the same suffix of the journal. */
  lemma CursorAgreement(st: State, run: RunId, sequence: Sequence)
    ensures PlanRecovery(st, run, sequence).WatchFrom? <==> CursorAccepted(st, run, sequence)
    ensures SnapshotFrom(st, run, sequence).Ok? <==> CursorAccepted(st, run, sequence)
    ensures SubscribeFromCursor(st, run, sequence).Ok? <==> CursorAccepted(st, run, sequence)
    ensures CursorAccepted(st, run, sequence) ==>
              SnapshotFrom(st, run, sequence).value == SubscribeFromCursor(st, run, sequence).value.backlog
    ensures PlanRecovery(st, run, sequence).running <==> st.journal.Some? && st.journal.value.running
  {
  }

  /** A cursor planned as Watch stays accepted through any groups that open no Operation. */
  lemma {:induction false} WatchStaysAccepted(st: State, run: RunId, sequence: Sequence, groups: seq<EventGroup>)
    requires PlanRecovery(st, run, sequence).WatchFrom?
    requires ValidJournal(st.journal.value)
    requires NoStart(groups) && Sorted(groups)
    requires groups != [] ==> st.journal.value.groups[|st.journal.value.groups| - 1].sequence < groups[0].sequence
    ensures SnapshotFrom(AppendAll(st, groups), run, sequence).Ok?
    ensures SubscribeFromCursor(AppendAll(st, groups), run, sequence).Ok?
    decreases |groups|
  {
    if groups != [] {
      var g, rest := groups[0], groups[1..];
      assert forall i :: 0 <= i < |rest| ==> rest[i] == groups[i + 1];
      AppendKeepsValid(st, g, []);
      var next := Append(st, g, []).value;
      if Admits(st, g) {
        PushValid(st.journal.value.groups, st.journal.value.runId, g);
      }
      assert next.journal.value.groups[0] == st.journal.value.groups[0];
      var old_tail := st.journal.value.groups[|st.journal.value.groups| - 1];
      var tail := next.journal.value.groups[|next.journal.value.groups| - 1];
      assert tail == g || tail == old_tail;
      WatchStaysAccepted(next, run, sequence, rest);
    }
  }

  /** The terminal fallback refuses every cursor, and so does every later state in which no new
      Operation has started. */
  lemma {:induction false} FallbackRefusesCursors(st: State, run: RunId, sequence: Sequence, groups: seq<EventGroup>)
    requires NoStart(groups)
    ensures SnapshotFrom(AppendAll(Fallback(st).0, groups), run, sequence) == Err(CursorUnavailable)
    ensures PlanRecovery(AppendAll(Fallback(st).0, groups), run, sequence).ResumeFully?
  {
    RefusedStaysRefused(Fallback(st).0, groups);
  }

  lemma {:induction false} RefusedStaysRefused(st: State, groups: seq<EventGroup>)
    requires st.journal.Some? ==> !st.journal.value.incremental
    requires NoStart(groups)
    ensures AppendAll(st, groups).journal.Some? ==> !AppendAll(st, groups).journal.value.incremental
    decreases |groups|
  {
    if groups != [] {
      assert forall i :: 0 <= i < |groups[1..]| ==> groups[1..][i] == groups[i + 1];
      RefusedStaysRefused(Append(st, groups[0], []).value, groups[1..]);
    }
  }

  // ---------------------------------------------------------------- the client view

  /** A last-writer-wins client: snapshots by key, everything else in arrival order. */
  datatype ClientView = ClientView(stream: seq<EventGroup>, latest: map<string, EventGroup>)

  function Apply(view: ClientView, group: EventGroup): ClientView {
    match group.snapshotOf
    case None => view.(stream := view.stream + [group])
    case Some(key) => view.(latest := view.latest[key := group])
  }

  function ApplyAll(view: ClientView, groups: seq<EventGroup>): ClientView
    decreases |groups|
  {
    if groups == [] then view else ApplyAll(Apply(view, groups[0]), groups[1..])
  }

  lemma {:induction false} ApplyAllConcat(view: ClientView, a: seq<EventGroup>, b: seq<EventGroup>)
    ensures ApplyAll(view, a + b) == ApplyAll(ApplyAll(view, a), b)
    decreases |a|
  {
    if a == [] {
      assert a + b == b;
    } else {
      assert (a + b)[1..] == a[1..] + b;
      ApplyAllConcat(Apply(view, a[0]), a[1..], b);
    }
  }

  lemma {:induction false} OverwrittenSnapshot(view: ClientView, group: EventGroup, groups: seq<EventGroup>)
    requires group.snapshotOf.Some? && HasKey(groups, group.snapshotOf)
    ensures ApplyAll(Apply(view, group), groups) == ApplyAll(view, groups)
    decreases |groups|
  {
    var key := group.snapshotOf.value;
    var t := groups[0];
    if t.snapshotOf == Some(key) {
      assert view.latest[key := group][key := t] == view.latest[key := t];
    } else {
      var i :| 0 <= i < |groups| && groups[i].snapshotOf == Some(key);
      assert groups[1..][i - 1] == groups[i];
      if t.snapshotOf.Some? {
        assert view.latest[key := group][t.snapshotOf.value := t] == view.latest[t.snapshotOf.value := t][key := group];
      }
      assert Apply(Apply(view, group), t) == Apply(Apply(view, t), group);
      OverwrittenSnapshot(Apply(view, t), group, groups[1..]);
    }
  }

  lemma {:induction false} LatestKeepsMeaning(view: ClientView, groups: seq<EventGroup>)
    ensures ApplyAll(view, Latest(groups)) == ApplyAll(view, groups)
    decreases |groups|
  {
    if groups != [] {
      var h, t := groups[0], groups[1..];
      if h.snapshotOf.Some? && HasKey(t, h.snapshotOf) {
        LatestKeepsMeaning(view, t);
        OverwrittenSnapshot(view, h, t);
      } else {
        LatestKeepsMeaning(Apply(view, h), t);
        assert ([h] + Latest(t))[1..] == Latest(t);
      }
    }
  }

  lemma {:induction false} LatestMembers(groups: seq<EventGroup>)
    ensures forall g :: g in Latest(groups) ==> g in groups
    decreases |groups|
  {
    if groups != [] {
      LatestMembers(groups[1..]);
    }
  }

  /** The groups before a cursor. */
  function Before(groups: seq<EventGroup>, sequence: nat): seq<EventGroup> {
    if groups == [] || groups[0].sequence >= sequence then [] else [groups[0]] + Before(groups[1..], sequence)
  }

  lemma {:induction false} SplitAtCursor(groups: seq<EventGroup>, sequence: nat)
    requires Sorted(groups)
    ensures groups == Before(groups, sequence) + From(groups, sequence)
    decreases |groups|
  {
    if groups != [] {
      var h, t := groups[0], groups[1..];
      assert groups == [h] + t;
      if h.sequence >= sequence {
        FromAll(groups, sequence);
      } else {
        SplitAtCursor(t, sequence);
        DropOlder(h, t, sequence);
      }
    }
  }

  lemma SortedHead(groups: seq<EventGroup>)
    requires Sorted(groups) && groups != []
    ensures Sorted(groups[1..])
    ensures forall g :: g in groups ==> groups[0].sequence <= g.sequence
  {
  }

  lemma {:induction false} RetainedSuffix(groups: seq<EventGroup>, sequence: nat)
    requires Sorted(groups)
    ensures From(Latest(groups), sequence) == Latest(From(groups, sequence))
    decreases |groups|
  {
    if groups == [] {
      assert From(groups, sequence) == [];
    } else {
      SortedHead(groups);
      var h, t := groups[0], groups[1..];
      if h.sequence >= sequence {
        LatestMembers(groups);
        FromAll(groups, sequence);
        FromAll(Latest(groups), sequence);
      } else {
        RetainedSuffix(t, sequence);
        DropOlder(h, t, sequence);
        DropOlder(h, Latest(t), sequence);
        assert groups == [h] + t;
      }
    }
  }

  lemma DropOlder(group: EventGroup, groups: seq<EventGroup>, sequence: nat)
    requires group.sequence < sequence
    ensures From([group] + groups, sequence) == From(groups, sequence)
  {
    FromNone([group], sequence);
    FromConcat([group], groups, sequence);
  }

  /** Dropping superseded snapshots preserves meaning: for every cursor an Operation's journal
      accepts, whatever its client had before, applying the groups before the cursor and then the
      retained groups gives the view of applying every group the Operation ever produced. */
  lemma {:induction false} RetentionPreservesView(
    st: State, start: EventGroup, baseline: seq<string>, groups: seq<EventGroup>,
    view: ClientView, cursor: Sequence)
    requires start.phase == Some(Start) && start.runId.Some?
    requires NoStart(groups) && Sorted([start] + Own(start.runId.value, groups))
    requires SnapshotFrom(AppendAll(Append(st, start, baseline).value, groups), start.runId.value, cursor).Ok?
    ensures var all := [start] + Own(start.runId.value, groups);
            var kept := SnapshotFrom(AppendAll(Append(st, start, baseline).value, groups), start.runId.value, cursor).value;
            ApplyAll(ApplyAll(view, Before(all, cursor)), kept) == ApplyAll(view, all)
  {
    var all := [start] + Own(start.runId.value, groups);
    JournalContents(st, start, baseline, groups);
    SplitAtCursor(all, cursor);
    RetainedSuffix(all, cursor);
    LatestKeepsMeaning(ApplyAll(view, Before(all, cursor)), From(all, cursor));
    ApplyAllConcat(view, Before(all, cursor), From(all, cursor));
  }
}
