/** The Kernel event sink (crates/acp/src/projection.rs, `ProjectionSink::emit`): which events open
    and close an Operation's journal, which run every group is correlated with, and what happens when
    emissions interleave between reading the active Operation and appending. */
module Sink {
  import opened Wrappers
  import opened Projection
  import opened Journals
  import opened WatchProtocol
  import opened Convergence

  /** The event payloads, as far as correlation, snapshots and state updates look at them. */
  datatype Payload =
    | RunStart(run: RunId)
    | AgentSettled(run: RunId)
    | SlashCommandStart(run: RunId)
    | SlashCommandEnd(run: RunId)
    | UserBashStarted(run: RunId)
    | UserBashFinished(run: RunId)
    | CompactionStart(run: RunId)
    | CompactionEnd(run: RunId)
    | RunProgress(run: RunId)                      // turns, retries, tool starts and ends, RunEnd
    | ToolOutput(run: RunId, terminal: Option<string>) // a tool update; bash details name a terminal
    | QueueChanged
    | UserBashOutput(messageId: string)
    | ActionRequired
    | ActionResolved
    | SessionUpdate                                // everything else

  datatype Event = Event(payload: Payload, sequence: Sequence)

  datatype Operation = Operation(run: RunId, kind: OperationKind)

  function ActiveOperation(st: State): Option<Operation> {
    if st.journal.Some? && st.journal.value.running
    then Some(Operation(st.journal.value.runId, st.journal.value.kind)) else None
  }

  datatype Correlation = Correlation(runId: Option<RunId>, phase: Option<Phase>, kind: Option<OperationKind>)

  /** The classification of `emit`, given the Operation it read as active. */
  function Classify(active: Option<Operation>, payload: Payload): Correlation {
    match payload
    case RunStart(run) => Correlation(Some(run), Some(Start), Some(AgentRun))
    case SlashCommandStart(run) => Correlation(Some(run), Some(Start), Some(SlashCommand))
    case AgentSettled(run) => Correlation(Some(run), Some(End), Some(AgentRun))
    case SlashCommandEnd(run) => Correlation(Some(run), Some(End), Some(SlashCommand))
    case UserBashStarted(run) => Correlation(Some(run), Some(Start), Some(UserBash))
    case UserBashFinished(run) => Correlation(Some(run), Some(End), Some(UserBash))
    case CompactionStart(run) =>
      if active.None? then Correlation(Some(run), Some(Start), Some(Compaction))
      else Correlation(Some(active.value.run), None, None)
    case CompactionEnd(run) =>
      if active == Some(Operation(run, Compaction)) then Correlation(Some(run), Some(End), Some(Compaction))
      else Correlation(Some(if active.Some? then active.value.run else run), None, None)
    case RunProgress(run) => Correlation(Some(run), None, None)
    case ToolOutput(run, _) => Correlation(Some(run), None, None)
    case _ => Correlation(if active.Some? then Some(active.value.run) else None, None, None)
  }

  function SnapshotKey(payload: Payload): Option<string> {
    match payload
    case QueueChanged => Some("queue")
    case UserBashOutput(messageId) => Some("terminal:" + messageId)
    case ToolOutput(_, Some(terminal)) => Some("terminal:" + terminal)
    case _ => None
  }

  /** The state updates of crates/acp/src/mapping.rs, after any other content. */
  function Updates(payload: Payload): seq<Update> {
    [Content("event")] + match payload
      case RunStart(_) => [StateUpdate(Some(Running))]
      case SlashCommandStart(_) => [StateUpdate(Some(Running))]
      case UserBashStarted(_) => [StateUpdate(Some(Running))]
      case AgentSettled(_) => [StateUpdate(Some(Idle))]
      case SlashCommandEnd(_) => [StateUpdate(Some(Idle))]
      case UserBashFinished(_) => [StateUpdate(Some(Idle))]
      case ActionRequired => [StateUpdate(Some(RequiresAction))]
      case ActionResolved => [StateUpdate(Some(Running))]
      case _ => []
  }

  function GroupOf(active: Option<Operation>, event: Event): EventGroup {
    var c := Classify(active, event.payload);
    EventGroup(c.runId, event.sequence, Updates(event.payload), c.phase, c.kind, None, None, SnapshotKey(event.payload))
  }

  // ---------------------------------------------------------------- well-bracketed runs

  /** The Operation an event opens at top level. */
  function Opens(payload: Payload): Option<Operation> {
    match payload
    case RunStart(run) => Some(Operation(run, AgentRun))
    case SlashCommandStart(run) => Some(Operation(run, SlashCommand))
    case UserBashStarted(run) => Some(Operation(run, UserBash))
    case CompactionStart(run) => Some(Operation(run, Compaction))
    case _ => None
  }

  predicate Closes(open: Operation, payload: Payload) {
    match payload
    case AgentSettled(run) => open == Operation(run, AgentRun)
    case SlashCommandEnd(run) => open == Operation(run, SlashCommand)
    case UserBashFinished(run) => open == Operation(run, UserBash)
    case CompactionEnd(run) => open == Operation(run, Compaction)
    case _ => false
  }

  /** A compaction that runs inside another Operation. */
  predicate NestedCompaction(open: Operation, payload: Payload) {
    (payload.CompactionStart? || payload.CompactionEnd?) && Operation(payload.run, Compaction) != open
  }

  predicate Inside(open: Operation, payload: Payload) {
    || ((payload.RunProgress? || payload.ToolOutput?) && payload.run == open.run)
    || NestedCompaction(open, payload)
    || payload.QueueChanged? || payload.UserBashOutput? || payload.ActionRequired? || payload.ActionResolved?
    || payload.SessionUpdate?
  }

  /** One event of a well-bracketed run: what may happen with and without an open Operation. */
  predicate Allowed(open: Option<Operation>, payload: Payload) {
    if open.None? then Opens(payload).Some? || payload.QueueChanged? || payload.SessionUpdate?
    else Closes(open.value, payload) || Inside(open.value, payload)
  }

  function OpenAfter(open: Option<Operation>, payload: Payload): Option<Operation> {
    if open.None? then Opens(payload)
    else if Closes(open.value, payload) then None
    else open
  }

  /** The journal runs exactly for the open Operation. */
  predicate Brackets(st: State, open: Option<Operation>) {
    ActiveOperation(st) == open
  }

  /** One sequential emission: the journal follows the brackets, so a nested compaction neither opens
      nor closes the enclosing journal and `running` holds from Start to the matching End. */
  lemma EmissionFollowsBrackets(st: State, open: Option<Operation>, event: Event, baseline: seq<string>)
    requires Brackets(st, open) && Allowed(open, event.payload)
    ensures var r := Append(st, GroupOf(ActiveOperation(st), event), baseline);
            && r.Ok? && Brackets(r.value, OpenAfter(open, event.payload))
            && (open.Some? ==> r.value.journal.Some? && r.value.journal.value.runId == open.value.run
                               && r.value.journal.value.baseline == st.journal.value.baseline
                               && r.value.journal.value.groups == Push(st.journal.value.groups, GroupOf(open, event)))
  {
  }

  function EmitAll(st: State, events: seq<Event>): Result<State, ProjectionError>
    decreases |events|
  {
    if events == [] then Ok(st)
    else match Append(st, GroupOf(ActiveOperation(st), events[0]), [])
      case Err(e) => Err(e)
      case Ok(next) => EmitAll(next, events[1..])
  }

  predicate WellBracketed(open: Option<Operation>, events: seq<Event>)
    decreases |events|
  {
    events == [] ||
    (Allowed(open, events[0].payload) && WellBracketed(OpenAfter(open, events[0].payload), events[1..]))
  }

  function OpenAfterAll(open: Option<Operation>, events: seq<Event>): Option<Operation>
    decreases |events|
  {
    if events == [] then open else OpenAfterAll(OpenAfter(open, events[0].payload), events[1..])
  }

  /** Over any well-bracketed run, the running journal is the open Operation's, at every point. */
  lemma {:induction false} RunFollowsBrackets(st: State, open: Option<Operation>, events: seq<Event>)
    requires Brackets(st, open) && WellBracketed(open, events)
    ensures EmitAll(st, events).Ok?
    ensures Brackets(EmitAll(st, events).value, OpenAfterAll(open, events))
    decreases |events|
  {
    if events != [] {
      EmissionFollowsBrackets(st, open, events[0], []);
      RunFollowsBrackets(Append(st, GroupOf(ActiveOperation(st), events[0]), []).value,
                         OpenAfter(open, events[0].payload), events[1..]);
    }
  }

  predicate SameJournal(before: State, after: State, open: Operation) {
    && before.journal.Some? && after.journal.Some?
    && var j := after.journal.value;
       j.running && j.runId == open.run && j.kind == open.kind
       && j.baseline == before.journal.value.baseline && j.incremental == before.journal.value.incremental
  }

  lemma NestedEventKeepsJournal(st: State, open: Operation, event: Event)
    requires Brackets(st, Some(open)) && Inside(open, event.payload) && !Closes(open, event.payload)
    ensures var r := Append(st, GroupOf(ActiveOperation(st), event), []);
            r.Ok? && Brackets(r.value, Some(open)) && SameJournal(st, r.value, open)
  {
  }

  /** While an Operation stays open, its journal keeps its identity, whatever compactions nest in it. */
  lemma {:induction false} NestedEventsKeepJournal(st: State, open: Operation, events: seq<Event>)
    requires Brackets(st, Some(open))
    requires forall i :: 0 <= i < |events| ==> Inside(open, events[i].payload) && !Closes(open, events[i].payload)
    ensures EmitAll(st, events).Ok?
    ensures SameJournal(st, EmitAll(st, events).value, open)
    decreases |events|
  {
    if events != [] {
      NestedEventKeepsJournal(st, open, events[0]);
      assert forall i :: 0 <= i < |events[1..]| ==> events[1..][i] == events[i + 1];
      NestedEventsKeepJournal(Append(st, GroupOf(ActiveOperation(st), events[0]), []).value, open, events[1..]);
    }
  }

  // ---------------------------------------------------------------- the discipline of the protocol

  lemma UpdatesReport(payload: Payload)
    ensures Reported(Updates(payload)) ==
            match payload
            case RunStart(_) => Some(Running)
            case SlashCommandStart(_) => Some(Running)
            case UserBashStarted(_) => Some(Running)
            case AgentSettled(_) => Some(Idle)
            case SlashCommandEnd(_) => Some(Idle)
            case UserBashFinished(_) => Some(Idle)
            case ActionRequired => Some(RequiresAction)
            case ActionResolved => Some(Running)
            case _ => None
  {
    var updates := Updates(payload);
    assert Reported([Content("event")]) == Reported([]) by {
      assert [Content("event")][..0] == [];
    }
    if |updates| == 1 {
      assert updates == [Content("event")];
    }
  }

  /** Every group the sink emits in a well-bracketed run with fresh run ids is one the watcher
      protocol's convergence argument relies on. */
  lemma WellBracketedIsDisciplined(t: Tracked, open: Option<Operation>, event: Event, baseline: seq<string>)
    requires Brackets(t.sys.st, open) && Allowed(open, event.payload)
    requires open.None? && Opens(event.payload).Some? ==> Opens(event.payload).value.run !in t.runs
    ensures WellFormed(GroupOf(ActiveOperation(t.sys.st), event))
    ensures Disciplined(t, Emit(GroupOf(ActiveOperation(t.sys.st), event), baseline))
  {
    UpdatesReport(event.payload);
  }

  // ---------------------------------------------------------------- interleaved emissions

  /** An emission between its two lock sections: the event and the Operation it read as active. */
  datatype Flight = Flight(event: Event, active: Option<Operation>)

  datatype Sinks = Sinks(st: State, flights: seq<Flight>)

  datatype SinkStep = ReadActive(event: Event) | Commit(index: nat, baseline: seq<string>) | Fallen

  predicate SinkEnabled(s: Sinks, step: SinkStep) {
    step.Commit? ==> step.index < |s.flights|
  }

  function SinkNext(s: Sinks, step: SinkStep): Sinks
    requires SinkEnabled(s, step)
  {
    match step
    case ReadActive(event) => s.(flights := s.flights + [Flight(event, ActiveOperation(s.st))])
    case Commit(index, baseline) =>
      var flight := s.flights[index];
      var rest := s.flights[..index] + s.flights[index + 1..];
      (match Append(s.st, GroupOf(flight.active, flight.event), baseline)
       case Err(_) => s.(flights := rest)
       case Ok(st) => Sinks(st, rest))
    case Fallen => s.(st := Fallback(s.st).0)
  }

  ghost predicate OwnRunOnly(st: State) {
    st.journal.Some? ==>
      forall i :: 0 <= i < |st.journal.value.groups| ==> st.journal.value.groups[i].runId == Some(st.journal.value.runId)
  }

  predicate PossibleSinks(s: Sinks, run: seq<SinkStep>)
    decreases |run|
  {
    run == [] || (SinkEnabled(s, run[0]) && PossibleSinks(SinkNext(s, run[0]), run[1..]))
  }

  function AfterSinks(s: Sinks, run: seq<SinkStep>): Sinks
    requires PossibleSinks(s, run)
    decreases |run|
  {
    if run == [] then s else AfterSinks(SinkNext(s, run[0]), run[1..])
  }

  lemma CommitKeepsOwnRun(st: State, group: EventGroup, baseline: seq<string>)
    requires OwnRunOnly(st) && Append(st, group, baseline).Ok?
    ensures OwnRunOnly(Append(st, group, baseline).value)
  {
    if group.phase != Some(Start) && Admits(st, group) && group.snapshotOf.Some? {
      RetainMembers(st.journal.value.groups, group.snapshotOf.value);
      var kept := Retain(st.journal.value.groups, group.snapshotOf.value);
      forall i | 0 <= i < |kept|
        ensures kept[i].runId == Some(st.journal.value.runId)
      {
        assert kept[i] in st.journal.value.groups;
      }
    }
  }

  /** However emissions interleave, in any order, a journal holds only groups of its own run. */
  lemma {:induction false} InterleavedJournalOwnsItsGroups(s: Sinks, run: seq<SinkStep>)
    requires PossibleSinks(s, run) && OwnRunOnly(s.st)
    ensures OwnRunOnly(AfterSinks(s, run).st)
    decreases |run|
  {
    if run != [] {
      match run[0] {
        case Commit(index, baseline) =>
          var flight := s.flights[index];
          if Append(s.st, GroupOf(flight.active, flight.event), baseline).Ok? {
            CommitKeepsOwnRun(s.st, GroupOf(flight.active, flight.event), baseline);
          }
        case _ =>
      }
      InterleavedJournalOwnsItsGroups(SinkNext(s, run[0]), run[1..]);
    }
  }

  /** A compaction that is not the running Operation touches the journal's boundaries exactly when its
      start read no active Operation, then it replaces the journal, or when its end read a compaction that
      had the running Operation's run id, then it ends the journal. */
  lemma CompactionInterferesExactly(st: State, flight: Flight, baseline: seq<string>)
    requires st.journal.Some? && st.journal.value.running
    requires flight.event.payload.CompactionStart? || flight.event.payload.CompactionEnd?
    requires ActiveOperation(st) != Some(Operation(flight.event.payload.run, Compaction))
    ensures var r := Append(st, GroupOf(flight.active, flight.event), baseline);
            var compaction := Operation(flight.event.payload.run, Compaction);
            && r.Ok? && r.value.journal.Some?
            && (ActiveOperation(r.value) != ActiveOperation(st) <==>
                  || (flight.event.payload.CompactionStart? && flight.active.None?)
                  || (flight.event.payload.CompactionEnd? && flight.active == Some(compaction)
                      && compaction.run == st.journal.value.runId))
  {
  }

  /** The sink alone does not prevent such a stale read: the run starts between the compaction's two lock
      sections. The Kernel's gate does. */
  lemma StaleCompactionReplacesJournal()
    ensures exists run :: PossibleSinks(Sinks(INITIAL, []), run)
                       && ActiveOperation(AfterSinks(Sinks(INITIAL, []), run).st) == Some(Operation("compaction", Compaction))
                       && run == [ReadActive(Event(CompactionStart("compaction"), 2)),
                                  ReadActive(Event(RunStart("run"), 1)), Commit(1, []), Commit(0, [])]
  {
    var s0 := Sinks(INITIAL, []);
    var compaction, start := Event(CompactionStart("compaction"), 2), Event(RunStart("run"), 1);
    var a, b, c, d := ReadActive(compaction), ReadActive(start), Commit(1, []), Commit(0, []);
    var run := [a, b, c, d];
    assert run[1..] == [b, c, d] && [b, c, d][1..] == [c, d] && [c, d][1..] == [d] && [d][1..] == [];
    var s1 := SinkNext(s0, a);
    var s2 := SinkNext(s1, b);
    assert s2.flights == [Flight(compaction, None), Flight(start, None)];
    var s3 := SinkNext(s2, c);
    assert s3.flights == [Flight(compaction, None)];
    var s4 := SinkNext(s3, d);
    assert PossibleSinks(s4, []) && AfterSinks(s4, []) == s4;
    assert PossibleSinks(s3, [d]) && AfterSinks(s3, [d]) == s4;
    assert PossibleSinks(s2, [c, d]) && AfterSinks(s2, [c, d]) == s4;
    assert PossibleSinks(s1, [b, c, d]) && AfterSinks(s1, [b, c, d]) == s4;
    assert PossibleSinks(s0, run) && AfterSinks(s0, run) == s4;
  }

  // ---------------------------------------------------------------- the session's gate

  /** The emissions that the Kernel awaits while it holds the session's operation gate: every start, and
      the end of a compaction. The end of an extension command is none of them. */
  predicate UnderGate(payload: Payload) {
    Opens(payload).Some? || payload.CompactionEnd?
  }

  predicate GateFree(flights: seq<Flight>) {
    forall i :: 0 <= i < |flights| ==> !UnderGate(flights[i].event.payload)
  }

  /** A run in which an emission under the gate begins only when no other one is on its way. */
  predicate GatedRun(s: Sinks, run: seq<SinkStep>): (r: bool)
    ensures r ==> PossibleSinks(s, run)
    decreases |run|
  {
    run == [] ||
    (&& SinkEnabled(s, run[0])
     && (run[0].ReadActive? && UnderGate(run[0].event.payload) ==> GateFree(s.flights))
     && GatedRun(SinkNext(s, run[0]), run[1..]))
  }

  /** What the gate's holder read as active is still active, or nothing is. */
  ghost predicate GateInv(s: Sinks) {
    && (forall i, k :: 0 <= i < k < |s.flights| && UnderGate(s.flights[i].event.payload)
                       ==> !UnderGate(s.flights[k].event.payload))
    && (forall i :: 0 <= i < |s.flights| && UnderGate(s.flights[i].event.payload) ==>
          ActiveOperation(s.st).None? || ActiveOperation(s.st) == s.flights[i].active)
  }

  /** An emission outside the gate can end an Operation but opens none. */
  lemma OutsideGateOpensNothing(st: State, flight: Flight, baseline: seq<string>)
    requires !UnderGate(flight.event.payload)
    ensures var r := Append(st, GroupOf(flight.active, flight.event), baseline);
            r.Ok? && (ActiveOperation(r.value).None? || ActiveOperation(r.value) == ActiveOperation(st))
  {
  }

  lemma CommitKeepsGate(s: Sinks, index: nat, baseline: seq<string>)
    requires GateInv(s) && index < |s.flights|
    ensures GateInv(SinkNext(s, Commit(index, baseline)))
  {
    var rest := s.flights[..index] + s.flights[index + 1..];
    assert forall i :: 0 <= i < |rest| ==> rest[i] == s.flights[if i < index then i else i + 1];
    if UnderGate(s.flights[index].event.payload) {
      assert GateFree(rest);
    } else {
      OutsideGateOpensNothing(s.st, s.flights[index], baseline);
    }
  }

  lemma {:induction false} RunKeepsGate(s: Sinks, run: seq<SinkStep>)
    requires GateInv(s) && GatedRun(s, run)
    ensures GateInv(AfterSinks(s, run))
    decreases |run|
  {
    if run != [] {
      match run[0] {
        case Commit(index, baseline) => CommitKeepsGate(s, index, baseline);
        case _ =>
      }
      RunKeepsGate(SinkNext(s, run[0]), run[1..]);
    }
  }

  /** Under the Kernel's gate no interleaving lets a compaction touch another Operation's journal. */
  lemma GatedCompactionsNeverInterfere(run: seq<SinkStep>, index: nat, baseline: seq<string>)
    requires GatedRun(Sinks(INITIAL, []), run)
    requires var s := AfterSinks(Sinks(INITIAL, []), run);
             && index < |s.flights| && ActiveOperation(s.st).Some?
             && (s.flights[index].event.payload.CompactionStart? || s.flights[index].event.payload.CompactionEnd?)
             && ActiveOperation(s.st) != Some(Operation(s.flights[index].event.payload.run, Compaction))
    ensures var s := AfterSinks(Sinks(INITIAL, []), run);
            ActiveOperation(SinkNext(s, Commit(index, baseline)).st) == ActiveOperation(s.st)
  {
    RunKeepsGate(Sinks(INITIAL, []), run);
    var s := AfterSinks(Sinks(INITIAL, []), run);
    CompactionInterferesExactly(s.st, s.flights[index], baseline);
  }
}
