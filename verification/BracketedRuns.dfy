/** Whole runs of Kernel events through the event sink, interleaved with everything a watcher and the
    terminal fallback can do: well-bracketed runs are disciplined, so their clients converge. */
module BracketedRuns {
  import opened Wrappers
  import opened Projection
  import opened Journals
  import opened WatchProtocol
  import opened WatchGuarantees
  import opened Convergence
  import opened Sink

  /** A Kernel event with the replay baseline of the moment, or a step of the watcher or the fallback. */
  datatype Act = Kernel(event: Event, baseline: seq<string>) | Other(step: Step)

  /** The runs of Operations opened so far. */
  function UsedAfter(open: Option<Operation>, used: set<RunId>, payload: Payload): set<RunId> {
    if open.None? && Opens(payload).Some? then used + {Opens(payload).value.run} else used
  }

  /** What the Kernel promises while no extension command's handler runs, without looking at any journal:
      increasing sequences, bracketed Operations, fresh run ids. A terminal fallback closes whatever is
      open. */
  predicate Bracketed(open: Option<Operation>, used: set<RunId>, kernel: nat, acts: seq<Act>)
    decreases |acts|
  {
    acts == [] ||
    match acts[0]
    case Kernel(event, _) =>
      && kernel < event.sequence && Allowed(open, event.payload)
      && (open.None? && Opens(event.payload).Some? ==> Opens(event.payload).value.run !in used)
      && Bracketed(OpenAfter(open, event.payload), UsedAfter(open, used, event.payload), event.sequence, acts[1..])
    case Other(step) =>
      !step.Emit? && Bracketed(if step.TerminalFallback? then None else open, used, kernel, acts[1..])
  }

  /** The protocol step of an act: the sink classifies an event by the Operation active at that moment. */
  function StepOf(t: Tracked, act: Act): Step {
    match act
    case Kernel(event, baseline) => Emit(GroupOf(ActiveOperation(t.sys.st), event), baseline)
    case Other(step) => step
  }

  /** Watcher steps are taken only when they can be; nothing is assumed of Kernel events. */
  predicate Occurs(t: Tracked, acts: seq<Act>)
    decreases |acts|
  {
    acts == [] ||
    (&& (acts[0].Other? ==> Enabled(t.sys, acts[0].step))
     && (Enabled(t.sys, StepOf(t, acts[0])) ==> Occurs(TrackedNext(t, StepOf(t, acts[0])), acts[1..])))
  }

  /** The protocol run of a list of acts. */
  function Induced(t: Tracked, acts: seq<Act>): seq<Step>
    decreases |acts|
  {
    if acts == [] then []
    else
      var step := StepOf(t, acts[0]);
      [step] + if Enabled(t.sys, step) then Induced(TrackedNext(t, step), acts[1..]) else []
  }

  /** The sink's state follows the brackets. */
  predicate Follows(t: Tracked, open: Option<Operation>, used: set<RunId>, kernel: nat) {
    && Brackets(t.sys.st, open) && t.runs <= used && t.sys.kernel == kernel
    && (open.Some? ==> open.value.run in used)
  }

  lemma EventIsDisciplined(t: Tracked, open: Option<Operation>, used: set<RunId>, kernel: nat, event: Event, baseline: seq<string>)
    requires Follows(t, open, used, kernel) && kernel < event.sequence && Allowed(open, event.payload)
    requires open.None? && Opens(event.payload).Some? ==> Opens(event.payload).value.run !in used
    ensures var step := Emit(GroupOf(ActiveOperation(t.sys.st), event), baseline);
            && Enabled(t.sys, step) && Disciplined(t, step)
            && Follows(TrackedNext(t, step), OpenAfter(open, event.payload), UsedAfter(open, used, event.payload), event.sequence)
  {
    WellBracketedIsDisciplined(t, open, event, baseline);
    EmissionFollowsBrackets(t.sys.st, open, event, baseline);
  }

  lemma OtherFollows(t: Tracked, open: Option<Operation>, used: set<RunId>, kernel: nat, step: Step)
    requires Follows(t, open, used, kernel) && !step.Emit? && Enabled(t.sys, step)
    ensures Disciplined(t, step)
    ensures Follows(TrackedNext(t, step), if step.TerminalFallback? then None else open, used, kernel)
  {
  }

  /** Every well-bracketed run with fresh run ids, however it interleaves with subscriptions, overflow,
      lag recovery, forwarding and fallbacks, is a disciplined run of the watcher protocol. */
  lemma {:induction false} BracketedRunIsPossible(t: Tracked, open: Option<Operation>, used: set<RunId>, kernel: nat, acts: seq<Act>)
    requires Follows(t, open, used, kernel) && Bracketed(open, used, kernel, acts) && Occurs(t, acts)
    ensures PossibleRun(t, Induced(t, acts))
    decreases |acts|
  {
    if acts != [] {
      var step := StepOf(t, acts[0]);
      match acts[0]
      case Kernel(event, baseline) =>
        EventIsDisciplined(t, open, used, kernel, event, baseline);
        BracketedRunIsPossible(TrackedNext(t, step), OpenAfter(open, event.payload), UsedAfter(open, used, event.payload),
                               event.sequence, acts[1..]);
      case Other(_) =>
        OtherFollows(t, open, used, kernel, step);
        BracketedRunIsPossible(TrackedNext(t, step), if step.TerminalFallback? then None else open, used, kernel, acts[1..]);
      assert Induced(t, acts)[1..] == Induced(TrackedNext(t, step), acts[1..]);
    }
  }

  /** So in every well-bracketed run a client that has caught up shows the foreground state of a client
      connected throughout. */
  lemma BracketedRunsConverge(capacity: nat, acts: seq<Act>)
    requires Bracketed(None, {}, 0, acts) && Occurs(Begin(capacity), acts)
    ensures PossibleRun(Begin(capacity), Induced(Begin(capacity), acts))
    ensures var s := AfterRun(Begin(capacity), Induced(Begin(capacity), acts)).sys;
            CaughtUp(s) && (forall g :: g in s.watch.sent && g.runId.Some? ==> g.sequence < MAX_SAFE_INTEGER)
            ==> s.watch.client == s.st.foreground == Throughout(Idle, s.log)
  {
    var run := Induced(Begin(capacity), acts);
    BracketedRunIsPossible(Begin(capacity), None, {}, 0, acts);
    var s := AfterRun(Begin(capacity), run).sys;
    if CaughtUp(s) && (forall g :: g in s.watch.sent && g.runId.Some? ==> g.sequence < MAX_SAFE_INTEGER) {
      ForegroundConverges(capacity, run);
    }
  }

  // ---------------------------------------------------------------- the swallowed fallback

  /** A caught-up watcher receives and forwards the one group that was just broadcast. */
  lemma ForwardBroadcast(s: System, group: EventGroup) returns (t: System)
    requires Reachable(s) && s.watch.live && s.watch.pending == [] && s.capacity > 0
    requires s.watch.pos + 1 == |s.log| && s.log[s.watch.pos] == group && !Duplicate(s.watch, group)
    ensures Reachable(t) && CaughtUp(t) && t == s.(watch := t.watch)
    ensures t.watch.client == ApplyUpdates(s.watch.client, group.updates)
    ensures t.watch.next == (if group.runId.Some? then SequenceOf(group.sequence + 1) else s.watch.next)
    ensures t.watch.runId == (if group.runId.Some? then group.runId else s.watch.runId)
  {
    ReachableStep(s, Receive);
    var r := Next(s, Receive);
    assert r.watch.pending == [group];
    ReachableStep(r, Forward);
    t := Next(r, Forward);
    assert t.watch.pending == [];
  }

  /** A Kernel event is emitted, received and forwarded by a caught-up watcher. */
  lemma EmitAndForward(s: System, event: Event) returns (t: System)
    requires Reachable(s) && CaughtUp(s) && s.kernel < event.sequence && s.capacity > 0
    requires var group := GroupOf(ActiveOperation(s.st), event);
             WellFormed(group) && Append(s.st, group, []).Ok? && !Duplicate(s.watch, group)
    ensures Reachable(t) && CaughtUp(t) && t.capacity == s.capacity && t.kernel == event.sequence
    ensures var group := GroupOf(ActiveOperation(s.st), event);
            && t.st == Append(s.st, group, []).value && t.log == s.log + [group]
            && t.watch.client == ApplyUpdates(s.watch.client, group.updates)
            && t.watch.next == (if group.runId.Some? then SequenceOf(event.sequence + 1) else s.watch.next)
            && t.watch.runId == (if group.runId.Some? then group.runId else s.watch.runId)
  {
    var group := GroupOf(ActiveOperation(s.st), event);
    ReachableStep(s, Emit(group, []));
    var e := Next(s, Emit(group, []));
    assert e.log == s.log + [group] && e.watch == s.watch;
    t := ForwardBroadcast(e, group);
  }

  lemma EventStates(payload: Payload, foreground: Foreground)
    ensures ApplyUpdates(foreground, Updates(payload)) == Default(Reported(Updates(payload)), foreground)
  {
    ApplyReported(foreground, Updates(payload));
    UpdatesReport(payload);
  }

  /** Outside the discipline the sink admits a divergence: if, after its run settled, a late event of the
      run moved the cursor past the next fallback and a request for action changed the state, the fallback
      that resets it would be filtered out. The Kernel emits nothing of a run after it settled. */
  lemma SwallowedFallback() returns (s: System)
    ensures Reachable(s) && CaughtUp(s) && s.watch.client == RequiresAction && s.st.foreground == Idle
  {
    var late := LateAction();
    DroppedFallback(late);
    FallbackIsIdle(late.st);
    ReachableStep(late, TerminalFallback);
    var f := Next(late, TerminalFallback);
    ReachableStep(f, Receive);
    var r := Next(f, Receive);
    ReachableStep(r, Forward);
    s := Next(r, Forward);
  }

  lemma FallbackIsIdle(st: State)
    requires Fallback(st).1.Some?
    ensures Fallback(st).0.foreground == Idle
  {
    FallbackSets(Fallback(st).1.value.sequence);
    ApplyReported(st.foreground, Fallback(st).1.value.updates);
  }

  lemma DroppedFallback(s: System)
    requires CaughtUp(s) && s.capacity > 0 && Fallback(s.st).1.Some?
    requires s.watch.next.Some? && FallbackSequence(s.st) < s.watch.next.value
    ensures Enabled(Next(s, TerminalFallback), Receive) && Enabled(Next(Next(s, TerminalFallback), Receive), Forward)
    ensures var n := Next(Next(Next(s, TerminalFallback), Receive), Forward);
            CaughtUp(n) && n.watch.client == s.watch.client && n.st == Fallback(s.st).0
  {
    var f := Next(s, TerminalFallback);
    var r := Next(f, Receive);
    assert r.watch.pending == [Fallback(s.st).1.value];
  }

  lemma SettledRun() returns (s: System)
    ensures Reachable(s) && CaughtUp(s) && s.capacity == 8 && s.kernel == 2
    ensures ActiveOperation(s.st).None? && FallbackSequence(s.st) == 3 && s.watch.next == Some(3)
  {
    ReachableInitial(8);
    ReachableStep(Initial(8), Attach(AtLive));
    s := Next(Initial(8), Attach(AtLive));
    s := EmitAndForward(s, Event(RunStart("run"), 1));
    s := EmitAndForward(s, Event(AgentSettled("run"), 2));
  }

  lemma LateAction() returns (s: System)
    ensures Reachable(s) && CaughtUp(s) && s.capacity == 8
    ensures s.watch.client == RequiresAction && FallbackSequence(s.st) == 3 && s.watch.next == Some(4)
  {
    s := SettledRun();
    s := EmitAndForward(s, Event(RunProgress("run"), 3));
    EventStates(ActionRequired, s.watch.client);
    UpdatesReport(ActionRequired);
    s := EmitAndForward(s, Event(ActionRequired, 4));
  }
}
