/** The Session projection of crates/acp/src/projection.rs: one Operation journal, the newest
    broadcast sequence, the foreground state, and the stream of groups handed to the channel. */
module Projection {
  import opened Wrappers

  const MAX_SAFE_INTEGER: nat := 9_007_199_254_740_991

  /** A validated Kernel event sequence. */
  type Sequence = n: nat | 1 <= n <= MAX_SAFE_INTEGER witness 1

  /** `Sequence::try_from`: zero and values no JavaScript client can hold are refused. */
  function SequenceOf(value: nat): (r: Option<Sequence>) {
    if 1 <= value <= MAX_SAFE_INTEGER then Some(value) else None
  }

  type RunId = string

  datatype Foreground = Running | RequiresAction | Idle

  /** A `SessionUpdate`; a state update a later protocol may add carries no known state. */
  datatype Update =
    | StateUpdate(state: Option<Foreground>)
    | Notice(text: string)
    | Content(text: string)

  datatype Phase = Start | End

  datatype OperationKind = AgentRun | SlashCommand | Compaction | UserBash

  datatype EventGroup = EventGroup(
    runId: Option<RunId>,
    sequence: Sequence,
    updates: seq<Update>,
    phase: Option<Phase>,
    kind: Option<OperationKind>,
    elicitation: Option<string>,
    planApproval: Option<string>,
    snapshotOf: Option<string>)

  datatype Journal = Journal(
    runId: RunId,
    kind: OperationKind,
    baseline: seq<string>,
    groups: seq<EventGroup>,
    running: bool,
    incremental: bool)

  datatype State = State(journal: Option<Journal>, lastSequence: Option<Sequence>, foreground: Foreground)

  datatype ProjectionError = CursorUnavailable | Metadata

  const INITIAL := State(None, None, Idle)

  // ---------------------------------------------------------------- state updates

  function ApplyUpdate(foreground: Foreground, update: Update): Foreground {
    match update
    case StateUpdate(Some(state)) => state
    case _ => foreground
  }

  /** The foreground state left by a list of updates. */
  function ApplyUpdates(foreground: Foreground, updates: seq<Update>): Foreground {
    if updates == [] then foreground
    else ApplyUpdate(ApplyUpdates(foreground, updates[..|updates| - 1]), updates[|updates| - 1])
  }

  function Later(last: Option<Sequence>, sequence: Sequence): Option<Sequence> {
    if last.Some? && last.value >= sequence then last else Some(sequence)
  }

  function RecordBroadcast(st: State, group: EventGroup): State {
    st.(lastSequence := Later(st.lastSequence, group.sequence),
        foreground := ApplyUpdates(st.foreground, group.updates))
  }

  // ---------------------------------------------------------------- the journal

  /** The groups whose snapshot key differs from `key`. */
  function Retain(groups: seq<EventGroup>, key: string): seq<EventGroup> {
    if groups == [] then []
    else
      var kept := Retain(groups[..|groups| - 1], key);
      var last := groups[|groups| - 1];
      if last.snapshotOf == Some(key) then kept else kept + [last]
  }

  function Push(groups: seq<EventGroup>, group: EventGroup): seq<EventGroup> {
    (if group.snapshotOf.Some? then Retain(groups, group.snapshotOf.value) else groups) + [group]
  }

  predicate Admits(st: State, group: EventGroup) {
    && st.journal.Some?
    && st.journal.value.running
    && group.runId == Some(st.journal.value.runId)
  }

  function Opened(group: EventGroup, baseline: seq<string>): Journal
    requires group.runId.Some?
  {
    Journal(group.runId.value, if group.kind.Some? then group.kind.value else AgentRun,
            baseline, [group], true, true)
  }

  /** The specification of `append_group`; an error leaves the projection untouched. */
  function Append(st: State, group: EventGroup, baseline: seq<string>): Result<State, ProjectionError> {
    if group.phase == Some(Start) then
      if group.runId.None? then Err(CursorUnavailable)
      else Ok(RecordBroadcast(st.(journal := Some(Opened(group, baseline))), group))
    else if Admits(st, group) then
      var j := st.journal.value;
      var grown := j.(groups := Push(j.groups, group),
                      running := j.running && group.phase != Some(End));
      Ok(RecordBroadcast(st.(journal := Some(grown)), group))
    else
      Ok(RecordBroadcast(st, group))
  }

  // ---------------------------------------------------------------- the terminal fallback

  function FallbackSequence(st: State): nat {
    if st.journal.Some? && st.journal.value.groups != []
    then st.journal.value.groups[|st.journal.value.groups| - 1].sequence + 1 else 1
  }

  function Invalidated(st: State): State {
    if st.journal.None? then st
    else st.(journal := Some(st.journal.value.(running := false, incremental := false)))
  }

  function FallbackGroup(sequence: Sequence): EventGroup {
    EventGroup(None, sequence, [StateUpdate(Some(Idle))], None, None, None, None, None)
  }

  /** The specification of `publish_terminal_fallback`: the journal is invalidated even when the
      next sequence cannot be represented and nothing is broadcast. */
  function Fallback(st: State): (State, Option<EventGroup>) {
    match SequenceOf(FallbackSequence(st))
    case None => (Invalidated(st), None)
    case Some(sequence) =>
      (RecordBroadcast(Invalidated(st), FallbackGroup(sequence)), Some(FallbackGroup(sequence)))
  }

  // ---------------------------------------------------------------- cursors

  /** The groups at or after a sequence. */
  function From(groups: seq<EventGroup>, sequence: nat): seq<EventGroup> {
    if groups == [] then []
    else
      var kept := From(groups[..|groups| - 1], sequence);
      var last := groups[|groups| - 1];
      if last.sequence >= sequence then kept + [last] else kept
  }

  predicate Covers(groups: seq<EventGroup>, sequence: nat) {
    && groups != []
    && groups[0].sequence <= sequence
    && sequence <= groups[|groups| - 1].sequence + 1
  }

  function SnapshotFrom(st: State, run: RunId, sequence: Sequence): Result<seq<EventGroup>, ProjectionError> {
    if st.journal.None? || st.journal.value.runId != run || !st.journal.value.incremental then
      Err(CursorUnavailable)
    else if st.journal.value.groups == [] then
      Err(CursorUnavailable)
    else
      var groups := st.journal.value.groups;
      if sequence < groups[0].sequence || sequence > groups[|groups| - 1].sequence + 1 then
        Err(CursorUnavailable)
      else
        Ok(From(groups, sequence))
  }

  datatype Feed = Feed(
    baseline: seq<string>,
    backlog: seq<EventGroup>,
    runId: RunId,
    nextSequence: Sequence,
    tailSequence: Sequence,
    delivered: Option<Sequence>,
    state: Foreground,
    running: bool)

  function SubscribeFromCursor(st: State, run: RunId, sequence: Sequence): Result<Feed, ProjectionError> {
    if st.journal.None? || st.journal.value.runId != run || !st.journal.value.incremental
       || st.journal.value.groups == [] then
      Err(CursorUnavailable)
    else
      var j := st.journal.value;
      var tail := j.groups[|j.groups| - 1].sequence;
      if sequence < j.groups[0].sequence || sequence > tail + 1 then
        Err(CursorUnavailable)
      else
        Ok(Feed([], From(j.groups, sequence), j.runId, sequence, tail, st.lastSequence, st.foreground, j.running))
  }

  function SubscribeFromStart(st: State): Result<Feed, ProjectionError> {
    if st.journal.None? || st.journal.value.groups == [] then
      Err(CursorUnavailable)
    else
      var j := st.journal.value;
      Ok(Feed(j.baseline, j.groups, j.runId, j.groups[0].sequence, j.groups[|j.groups| - 1].sequence,
              st.lastSequence, st.foreground, j.running))
  }

  datatype RecoveryPlan = WatchFrom(runId: RunId, nextSequence: Sequence, running: bool) | ResumeFully(running: bool)

  function PlanRecovery(st: State, run: RunId, nextSequence: Sequence): RecoveryPlan {
    if st.journal.None? then ResumeFully(false)
    else
      var j := st.journal.value;
      if j.incremental && j.runId == run
         && j.groups != [] && nextSequence >= j.groups[0].sequence
         && nextSequence <= j.groups[|j.groups| - 1].sequence + 1
      then WatchFrom(run, nextSequence, j.running)
      else ResumeFully(j.running)
  }

  // ---------------------------------------------------------------- replayed history

  function ReplayedUpdates(updates: seq<Update>): seq<Update> {
    if updates == [] then []
    else
      var kept := ReplayedUpdates(updates[..|updates| - 1]);
      var last := updates[|updates| - 1];
      if last.StateUpdate? || last.Notice? then kept else kept + [last]
  }

  /** A group as history: no state updates, notices or pending requests; nothing when empty. */
  function Replayed(group: EventGroup): Option<EventGroup> {
    var updates := ReplayedUpdates(group.updates);
    if updates == [] then None
    else Some(group.(updates := updates, elicitation := None, planApproval := None))
  }

  // ---------------------------------------------------------------- the mutable projection

  class SessionProjection {
    var journal: Option<Journal>
    var lastSequence: Option<Sequence>
    var foreground: Foreground
    /** Every group handed to the broadcast channel, oldest first. */
    var sent: seq<EventGroup>

    function View(): State
      reads this
    {
      State(journal, lastSequence, foreground)
    }

    constructor ()
      ensures View() == INITIAL && sent == []
    {
      journal, lastSequence, foreground, sent := None, None, Idle, [];
    }

    method RecordBroadcastOf(group: EventGroup)
      modifies this`lastSequence, this`foreground
      ensures View() == RecordBroadcast(old(View()), group)
    {
      lastSequence := Later(lastSequence, group.sequence);
      for i := 0 to |group.updates|
        invariant lastSequence == Later(old(lastSequence), group.sequence)
        invariant foreground == ApplyUpdates(old(foreground), group.updates[..i])
      {
        assert group.updates[..i + 1][..i] == group.updates[..i];
        match group.updates[i]
        case StateUpdate(Some(state)) => foreground := state;
        case _ =>
      }
      assert group.updates[..|group.updates|] == group.updates;
    }

    method DropSuperseded(key: string)
      requires journal.Some?
      modifies this`journal
      ensures journal == Some(old(journal.value).(groups := Retain(old(journal.value.groups), key)))
    {
      var groups := journal.value.groups;
      var kept := [];
      for i := 0 to |groups|
        invariant kept == Retain(groups[..i], key)
      {
        assert groups[..i + 1][..i] == groups[..i];
        if groups[i].snapshotOf != Some(key) {
          kept := kept + [groups[i]];
        }
      }
      assert groups[..|groups|] == groups;
      journal := Some(journal.value.(groups := kept));
    }

    method AppendGroup(group: EventGroup, baseline: seq<string>) returns (r: Result<(), ProjectionError>)
      modifies this
      ensures r.Ok? <==> Append(old(View()), group, baseline).Ok?
      ensures r.Ok? ==> View() == Append(old(View()), group, baseline).value && sent == old(sent) + [group]
      ensures r.Err? ==> r.error == CursorUnavailable && View() == old(View()) && sent == old(sent)
    {
      if group.phase == Some(Start) {
        if group.runId.None? {
          return Err(CursorUnavailable);
        }
        journal := Some(Opened(group, baseline));
      } else if journal.Some? && journal.value.running && group.runId == Some(journal.value.runId) {
        if group.snapshotOf.Some? {
          DropSuperseded(group.snapshotOf.value);
        }
        journal := Some(journal.value.(groups := journal.value.groups + [group]));
        if group.phase == Some(End) {
          journal := Some(journal.value.(running := false));
        }
      }
      RecordBroadcastOf(group);
      sent := sent + [group];
      r := Ok(());
    }

    method PublishTerminalFallback() returns (r: Result<(), ProjectionError>)
      modifies this
      ensures View() == Fallback(old(View())).0
      ensures r.Ok? <==> Fallback(old(View())).1.Some?
      ensures sent == old(sent) + (match Fallback(old(View())).1 case Some(g) => [g] case None => [])
    {
      var next := if journal.Some? && journal.value.groups != []
                  then journal.value.groups[|journal.value.groups| - 1].sequence + 1 else 1;
      if journal.Some? {
        journal := Some(journal.value.(running := false, incremental := false));
      }
      if next > MAX_SAFE_INTEGER {
        return Err(Metadata);
      }
      var terminal := FallbackGroup(next);
      RecordBroadcastOf(terminal);
      sent := sent + [terminal];
      r := Ok(());
    }
  }
}
