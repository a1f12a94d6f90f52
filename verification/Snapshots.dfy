/** What the event sink may drop from a journal (crates/acp/src/projection.rs, `emit` and `append_group`),
    said of event payloads: the queue and every terminal are shown by their latest event, and all other
    events stay. */
module Snapshots {
  import opened Wrappers
  import opened Projection
  import opened Journals
  import opened Sink

  /** What one event shows anew: the prompt queue, or the output of one terminal. A user's shell is named
      by its message, a tool's terminal by its call. */
  datatype Subject = Queue | Terminal(id: string)

  function SubjectOf(payload: Payload): Option<Subject> {
    match payload
    case QueueChanged => Some(Queue)
    case UserBashOutput(messageId) => Some(Terminal(messageId))
    case ToolOutput(_, terminal) => if terminal.Some? then Some(Terminal(terminal.value)) else None
    case _ => None
  }

  /** Two events share a snapshot key exactly when both report the queue or both name the same terminal. */
  lemma SnapshotKeysExactly(a: Payload, b: Payload)
    ensures SnapshotKey(a).Some? && SnapshotKey(a) == SnapshotKey(b) <==>
            || (a.QueueChanged? && b.QueueChanged?)
            || (exists id :: SubjectOf(a) == SubjectOf(b) == Some(Terminal(id)))
    ensures SnapshotKey(a).Some? <==> SubjectOf(a).Some?
  {
    if SubjectOf(a).Some? && SubjectOf(b).Some? {
      var x, y := SubjectOf(a).value, SubjectOf(b).value;
      if x.Terminal? && y.Terminal? {
        SameSuffix("terminal:", x.id, y.id);
      } else if x.Terminal? || y.Terminal? {
        assert "queue"[0] != "terminal:"[0];
        assert SnapshotKey(a).value[0] != SnapshotKey(b).value[0];
      }
    }
  }

  lemma SameSuffix(prefix: string, a: string, b: string)
    ensures prefix + a == prefix + b <==> a == b
  {
    assert (prefix + a)[|prefix|..] == a && (prefix + b)[|prefix|..] == b;
  }

  lemma SameKeySameSubject(a: Payload, b: Payload)
    requires SubjectOf(a).Some?
    ensures SnapshotKey(a) == SnapshotKey(b) <==> SubjectOf(a) == SubjectOf(b)
  {
    SnapshotKeysExactly(a, b);
    if SubjectOf(a) == SubjectOf(b) && SubjectOf(a).value.Terminal? {
      assert SubjectOf(a) == SubjectOf(b) == Some(Terminal(SubjectOf(a).value.id));
    }
  }

  // ---------------------------------------------------------------- the events a journal keeps

  predicate Shows(flights: seq<Flight>, subject: Subject) {
    exists i :: 0 <= i < |flights| && SubjectOf(flights[i].event.payload) == Some(subject)
  }

  /** The events that no later one shows anew. */
  function Kept(flights: seq<Flight>): seq<Flight> {
    if flights == [] then []
    else
      var subject := SubjectOf(flights[0].event.payload);
      if subject.Some? && Shows(flights[1..], subject.value) then Kept(flights[1..])
      else [flights[0]] + Kept(flights[1..])
  }

  function GroupFor(flight: Flight): EventGroup {
    GroupOf(flight.active, flight.event)
  }

  function GroupsFor(flights: seq<Flight>): (r: seq<EventGroup>)
    ensures |r| == |flights| && forall i :: 0 <= i < |r| ==> r[i] == GroupFor(flights[i])
  {
    seq(|flights|, i requires 0 <= i < |flights| => GroupFor(flights[i]))
  }

  lemma KeysAreSubjects(flights: seq<Flight>, payload: Payload)
    requires SubjectOf(payload).Some?
    ensures HasKey(GroupsFor(flights), SnapshotKey(payload)) <==> Shows(flights, SubjectOf(payload).value)
  {
    forall i | 0 <= i < |flights|
      ensures GroupsFor(flights)[i].snapshotOf == SnapshotKey(payload)
              <==> SubjectOf(flights[i].event.payload) == SubjectOf(payload)
    {
      SameKeySameSubject(payload, flights[i].event.payload);
    }
  }

  /** Retention by snapshot key is retention by what the events show. */
  lemma {:induction false} LatestIsKept(flights: seq<Flight>)
    ensures Latest(GroupsFor(flights)) == GroupsFor(Kept(flights))
  {
    if flights != [] {
      var h, t := flights[0], flights[1..];
      assert GroupsFor(flights)[1..] == GroupsFor(t);
      LatestIsKept(t);
      SnapshotKeysExactly(h.event.payload, h.event.payload);
      if SubjectOf(h.event.payload).Some? {
        KeysAreSubjects(t, h.event.payload);
      }
      assert GroupsFor([h] + Kept(t)) == [GroupFor(h)] + GroupsFor(Kept(t));
    }
  }

  // ---------------------------------------------------------------- one Operation's events

  /** Events inside an Operation, the last of which may end it. */
  predicate Within(open: Operation, events: seq<Event>) {
    forall i :: 0 <= i < |events| ==>
      Inside(open, events[i].payload) || (i == |events| - 1 && Closes(open, events[i].payload))
  }

  /** The events of an Operation, each with what its emission reads as active. */
  function FlightsOf(open: Operation, start: Event, events: seq<Event>): (r: seq<Flight>)
    ensures |r| == |events| + 1 && r[0] == Flight(start, None)
    ensures forall i :: 0 <= i < |events| ==> r[i + 1] == Flight(events[i], Some(open))
  {
    [Flight(start, None)] + seq(|events|, i requires 0 <= i < |events| => Flight(events[i], Some(open)))
  }

  lemma EmissionKeepsLatest(st: State, open: Operation, event: Event, seen: seq<Flight>)
    requires Brackets(st, Some(open)) && (Inside(open, event.payload) || Closes(open, event.payload))
    requires st.journal.value.groups == Latest(GroupsFor(seen))
    ensures var r := Append(st, GroupOf(ActiveOperation(st), event), []);
            && r.Ok? && r.value.journal.Some? && r.value.journal.value.runId == open.run
            && r.value.journal.value.groups == Latest(GroupsFor(seen + [Flight(event, Some(open))]))
            && (!Closes(open, event.payload) ==> Brackets(r.value, Some(open)))
  {
    EmissionFollowsBrackets(st, Some(open), event, []);
    var flight := Flight(event, Some(open));
    LatestPush(GroupsFor(seen), GroupFor(flight));
    assert GroupsFor(seen + [flight]) == GroupsFor(seen) + [GroupFor(flight)];
  }

  function FlightsIn(open: Operation, events: seq<Event>): (r: seq<Flight>)
    ensures |r| == |events| && forall i :: 0 <= i < |r| ==> r[i] == Flight(events[i], Some(open))
  {
    seq(|events|, i requires 0 <= i < |events| => Flight(events[i], Some(open)))
  }

  lemma FirstFlight(open: Operation, events: seq<Event>, seen: seq<Flight>)
    requires events != []
    ensures seen + FlightsIn(open, events) == (seen + [Flight(events[0], Some(open))]) + FlightsIn(open, events[1..])
  {
  }

  lemma RestIsWithin(open: Operation, events: seq<Event>)
    requires events != [] && Within(open, events)
    ensures Within(open, events[1..])
    ensures Inside(open, events[0].payload) || Closes(open, events[0].payload)
    ensures |events| > 1 ==> Inside(open, events[0].payload) && !Closes(open, events[0].payload)
  {
    assert forall i :: 0 <= i < |events| - 1 ==> events[1..][i] == events[i + 1];
  }

  lemma {:induction false} EmissionsKeepLatest(st: State, open: Operation, events: seq<Event>, seen: seq<Flight>)
    requires Brackets(st, Some(open)) && Within(open, events)
    requires st.journal.value.groups == Latest(GroupsFor(seen))
    ensures var r := EmitAll(st, events);
            && r.Ok? && r.value.journal.Some? && r.value.journal.value.runId == open.run
            && r.value.journal.value.groups == Latest(GroupsFor(seen + FlightsIn(open, events)))
    decreases |events|
  {
    if events == [] {
      assert seen + FlightsIn(open, events) == seen;
    } else {
      var more := seen + [Flight(events[0], Some(open))];
      RestIsWithin(open, events);
      EmissionKeepsLatest(st, open, events[0], seen);
      FirstFlight(open, events, seen);
      var next := Append(st, GroupOf(ActiveOperation(st), events[0]), []).value;
      assert EmitAll(st, events) == EmitAll(next, events[1..]);
      if |events| == 1 {
        assert more + FlightsIn(open, events[1..]) == more && EmitAll(next, events[1..]) == Ok(next);
      } else {
        EmissionsKeepLatest(next, open, events[1..], more);
      }
    }
  }

  lemma StartedJournal(st: State, open: Operation, start: Event)
    requires Brackets(st, None) && Opens(start.payload) == Some(open)
    ensures var r := Append(st, GroupOf(None, start), []);
            && r.Ok? && Brackets(r.value, Some(open))
            && r.value.journal.value.groups == Latest(GroupsFor([Flight(start, None)]))
  {
    assert [GroupFor(Flight(start, None))][1..] == [];
    assert GroupsFor([Flight(start, None)]) == [GroupFor(Flight(start, None))];
    assert Latest([]) == [];
  }

  /** An Operation's journal holds exactly the events that no later one shows anew, in order. */
  lemma JournalKeepsNewest(st: State, open: Operation, start: Event, events: seq<Event>)
    requires Brackets(st, None) && Opens(start.payload) == Some(open) && Within(open, events)
    ensures var r := EmitAll(st, [start] + events);
            && r.Ok? && r.value.journal.Some? && r.value.journal.value.runId == open.run
            && r.value.journal.value.groups == GroupsFor(Kept(FlightsOf(open, start, events)))
  {
    StartedJournal(st, open, start);
    var started := Append(st, GroupOf(None, start), []).value;
    EmissionsKeepLatest(started, open, events, [Flight(start, None)]);
    assert [Flight(start, None)] + FlightsIn(open, events) == FlightsOf(open, start, events);
    LatestIsKept(FlightsOf(open, start, events));
    assert ([start] + events)[1..] == events;
    assert EmitAll(st, [start] + events) == EmitAll(started, events);
  }

  // ---------------------------------------------------------------- what a client shows

  /** A client that shows the queue and every terminal by their latest event, and all other events in
      their order. It never looks at a snapshot key. */
  datatype View = View(stream: seq<Event>, queue: Option<Event>, terminals: map<string, Event>)

  function Show(view: View, event: Event): View {
    match event.payload
    case QueueChanged => view.(queue := Some(event))
    case UserBashOutput(messageId) => view.(terminals := view.terminals[messageId := event])
    case ToolOutput(_, Some(callId)) => view.(terminals := view.terminals[callId := event])
    case _ => view.(stream := view.stream + [event])
  }

  function ShowAll(view: View, flights: seq<Flight>): View
    decreases |flights|
  {
    if flights == [] then view else ShowAll(Show(view, flights[0].event), flights[1..])
  }

  lemma ShowTwice(view: View, a: Event, b: Event)
    requires SubjectOf(a.payload).Some?
    ensures if SubjectOf(b.payload) == SubjectOf(a.payload) then Show(Show(view, a), b) == Show(view, b)
            else Show(Show(view, a), b) == Show(Show(view, b), a)
  {
    if SubjectOf(a.payload).value.Terminal? && SubjectOf(b.payload).Some? && SubjectOf(b.payload).value.Terminal? {
      var x, y := SubjectOf(a.payload).value.id, SubjectOf(b.payload).value.id;
      if x == y {
        assert view.terminals[x := a][y := b] == view.terminals[y := b];
      } else {
        assert view.terminals[x := a][y := b] == view.terminals[y := b][x := a];
      }
    }
  }

  /** An event that a later one shows anew leaves no trace. */
  lemma {:induction false} ShownAnew(view: View, event: Event, flights: seq<Flight>)
    requires SubjectOf(event.payload).Some? && Shows(flights, SubjectOf(event.payload).value)
    ensures ShowAll(Show(view, event), flights) == ShowAll(view, flights)
    decreases |flights|
  {
    var t := flights[0].event;
    ShowTwice(view, event, t);
    if SubjectOf(t.payload) != SubjectOf(event.payload) {
      var i :| 0 <= i < |flights| && SubjectOf(flights[i].event.payload) == SubjectOf(event.payload);
      assert flights[1..][i - 1] == flights[i];
      ShownAnew(Show(view, t), event, flights[1..]);
    }
  }

  lemma {:induction false} KeptShowsTheSame(view: View, flights: seq<Flight>)
    ensures ShowAll(view, Kept(flights)) == ShowAll(view, flights)
    decreases |flights|
  {
    if flights != [] {
      var h, t := flights[0], flights[1..];
      var subject := SubjectOf(h.event.payload);
      if subject.Some? && Shows(t, subject.value) {
        KeptShowsTheSame(view, t);
        ShownAnew(view, h.event, t);
      } else {
        KeptShowsTheSame(Show(view, h.event), t);
        assert ([h] + Kept(t))[1..] == Kept(t);
      }
    }
  }

  lemma {:induction false} ShowAllConcat(view: View, a: seq<Flight>, b: seq<Flight>)
    ensures ShowAll(view, a + b) == ShowAll(ShowAll(view, a), b)
    decreases |a|
  {
    if a == [] {
      assert a + b == b;
    } else {
      assert (a + b)[1..] == a[1..] + b;
      ShowAllConcat(Show(view, a[0].event), a[1..], b);
    }
  }

  predicate Ascending(flights: seq<Flight>) {
    forall i, k :: 0 <= i < k < |flights| ==> flights[i].event.sequence < flights[k].event.sequence
  }

  /** How many events lie before a cursor. */
  function Count(flights: seq<Flight>, cursor: nat): (n: nat)
    ensures n <= |flights|
    ensures forall i :: 0 <= i < n ==> flights[i].event.sequence < cursor
    ensures n < |flights| ==> flights[n].event.sequence >= cursor
  {
    if flights == [] || flights[0].event.sequence >= cursor then 0 else 1 + Count(flights[1..], cursor)
  }

  lemma SuffixFrom(flights: seq<Flight>, cursor: nat)
    requires Ascending(flights)
    ensures From(GroupsFor(flights), cursor) == GroupsFor(flights[Count(flights, cursor)..])
  {
    var n := Count(flights, cursor);
    var older, newer := flights[..n], flights[n..];
    assert GroupsFor(flights) == GroupsFor(older) + GroupsFor(newer);
    FromConcat(GroupsFor(older), GroupsFor(newer), cursor);
    FromNone(GroupsFor(older), cursor);
    FromAll(GroupsFor(newer), cursor);
  }

  /** The retained groups from a cursor on are those of the events from there on that none shows anew. */
  lemma KeptFrom(flights: seq<Flight>, cursor: nat)
    requires Ascending(flights)
    ensures From(GroupsFor(Kept(flights)), cursor) == GroupsFor(Kept(flights[Count(flights, cursor)..]))
  {
    LatestIsKept(flights);
    assert Sorted(GroupsFor(flights));
    RetainedSuffix(GroupsFor(flights), cursor);
    SuffixFrom(flights, cursor);
    LatestIsKept(flights[Count(flights, cursor)..]);
  }

  lemma SuffixShowsTheSame(view: View, flights: seq<Flight>, n: nat)
    requires n <= |flights|
    ensures ShowAll(ShowAll(view, flights[..n]), Kept(flights[n..])) == ShowAll(view, flights)
  {
    KeptShowsTheSame(ShowAll(view, flights[..n]), flights[n..]);
    ShowAllConcat(view, flights[..n], flights[n..]);
    assert flights[..n] + flights[n..] == flights;
  }

  lemma HandedOut(st: State, run: RunId, cursor: Sequence)
    requires SnapshotFrom(st, run, cursor).Ok?
    ensures SnapshotFrom(st, run, cursor).value == From(st.journal.value.groups, cursor)
  {
  }

  /** Whatever cursor its journal accepts, a client of any earlier state that applied the Operation's
      events before the cursor and then receives what the journal hands out shows the queue, every terminal
      and the stream as after all the Operation's events: the groups handed out are those of the events
      from the cursor on that no later one shows anew. */
  lemma RecoveryShowsEveryTerminal(st: State, open: Operation, start: Event, events: seq<Event>, cursor: Sequence, view: View)
    requires Brackets(st, None) && Opens(start.payload) == Some(open) && Within(open, events)
    requires Ascending(FlightsOf(open, start, events))
    requires EmitAll(st, [start] + events).Ok? && SnapshotFrom(EmitAll(st, [start] + events).value, open.run, cursor).Ok?
    ensures var all := FlightsOf(open, start, events);
            var n := Count(all, cursor);
            && SnapshotFrom(EmitAll(st, [start] + events).value, open.run, cursor).value == GroupsFor(Kept(all[n..]))
            && ShowAll(ShowAll(view, all[..n]), Kept(all[n..])) == ShowAll(view, all)
  {
    var all := FlightsOf(open, start, events);
    JournalKeepsNewest(st, open, start, events);
    HandedOut(EmitAll(st, [start] + events).value, open.run, cursor);
    KeptFrom(all, cursor);
    SuffixShowsTheSame(view, all, Count(all, cursor));
  }
}
