/** Foreground convergence: a resumed client that replays history without state updates, applies
    the captured snapshot and then follows its watcher ends in the projection's own state, through
    lag recovery and terminal fallbacks (crates/acp/src/projection.rs, crates/acp/src/server.rs). */
module Convergence {
  import opened Wrappers
  import opened Projection
  import opened Journals
  import opened WatchProtocol
  import opened WatchGuarantees

  // ---------------------------------------------------------------- the last state update

  /** The last known state a list of updates reports. */
  function Reported(updates: seq<Update>): Option<Foreground> {
    if updates == [] then None
    else match updates[|updates| - 1]
      case StateUpdate(Some(state)) => Some(state)
      case _ => Reported(updates[..|updates| - 1])
  }

  function Sets(group: EventGroup): Option<Foreground> {
    Reported(group.updates)
  }

  function Default(state: Option<Foreground>, otherwise: Foreground): Foreground {
    if state.Some? then state.value else otherwise
  }

  lemma {:induction false} ApplyReported(foreground: Foreground, updates: seq<Update>)
    ensures ApplyUpdates(foreground, updates) == Default(Reported(updates), foreground)
  {
    if updates != [] {
      ApplyReported(foreground, updates[..|updates| - 1]);
    }
  }

  /** Replayed history carries no state at all, and drops nothing but states and notices. */
  lemma {:induction false} ReplayCarriesNoState(updates: seq<Update>)
    ensures Reported(ReplayedUpdates(updates)) == None
    ensures forall u :: u in ReplayedUpdates(updates) <==> u in updates && !u.StateUpdate? && !u.Notice?
  {
    if updates != [] {
      ReplayCarriesNoState(updates[..|updates| - 1]);
      assert updates == updates[..|updates| - 1] + [updates[|updates| - 1]];
    }
  }

  ghost predicate Quiet(log: seq<EventGroup>, from: int) {
    forall i :: 0 <= i < |log| && from <= i ==> Sets(log[i]).None?
  }

  ghost predicate LastSetting(log: seq<EventGroup>, k: int) {
    0 <= k < |log| && Sets(log[k]).Some? && Quiet(log, k + 1)
  }

  // ---------------------------------------------------------------- disciplined runs

  /** The protocol with the marks the argument needs: where the watcher attached, where the last
      fallback ended, which runs were ever seen and which were seen before that fallback. */
  datatype Tracked = Tracked(sys: System, attachAt: nat, fallbackEnd: nat, runs: set<RunId>, runsBefore: set<RunId>)

  function TrackedNext(t: Tracked, step: Step): Tracked
    requires Enabled(t.sys, step)
  {
    var n := Next(t.sys, step);
    match step
    case Emit(group, _) =>
      t.(sys := n, runs := if group.runId.Some? then t.runs + {group.runId.value} else t.runs)
    case TerminalFallback =>
      if |n.log| > |t.sys.log| then t.(sys := n, fallbackEnd := |n.log|, runsBefore := t.runs) else t.(sys := n)
    case Attach(_) => t.(sys := n, attachAt := |n.log|)
    case _ => t.(sys := n)
  }

  /** What the event sink guarantees for a well-bracketed run: every event correlated with a run
      belongs to that run's journal, only such events change the state, a snapshot never does, and
      run ids are not reused. */
  predicate Disciplined(t: Tracked, step: Step) {
    step.Emit? ==>
      var group := step.group;
      && (group.runId.Some? ==> TakesIn(t.sys.st, group))
      && (Sets(group).Some? ==> group.runId.Some? && group.snapshotOf.None?)
      && (group.phase == Some(Start) && group.runId.Some? ==> group.runId.value !in t.runs)
  }

  // ---------------------------------------------------------------- the invariant

  /** The runs of the first events of the stream. */
  ghost predicate Seen(log: seq<EventGroup>, through: nat, runs: set<RunId>) {
    forall i :: 0 <= i < |log| && i < through && log[i].runId.Some? ==> log[i].runId.value in runs
  }

  ghost predicate RunsInv(t: Tracked) {
    && t.fallbackEnd <= |t.sys.log|
    && t.runsBefore <= t.runs
    && Seen(t.sys.log, |t.sys.log|, t.runs)
    && Seen(t.sys.log, t.fallbackEnd, t.runsBefore)
    && FreshInv(t.sys.st, t.runs, t.runsBefore)
  }

  predicate FreshInv(st: State, runs: set<RunId>, runsBefore: set<RunId>) {
    st.journal.Some? ==>
      && st.journal.value.runId in runs
      && (st.journal.value.incremental ==> st.journal.value.runId !in runsBefore)
  }

  /** Every grouped event was taken in by a journal, and no snapshot sets a state. */
  ghost predicate TakenIn(log: seq<EventGroup>, admitted: seq<EventGroup>) {
    && (forall g :: g in log && g.runId.Some? ==> g in admitted)
    && (forall g :: g in log && g.runId.Some? && Sets(g).Some? ==> g.snapshotOf.None?)
  }

  ghost predicate IsFallback(log: seq<EventGroup>, i: int) {
    0 <= i < |log| && log[i].runId.None? && Sets(log[i]).Some?
  }

  ghost predicate FallbacksMarked(log: seq<EventGroup>, fallbackEnd: nat, kernel: nat) {
    && (forall i :: IsFallback(log, i) ==> i < fallbackEnd && log[i].sequence <= kernel + 1)
    && (fallbackEnd > 0 ==> IsFallback(log, fallbackEnd - 1))
  }

  /** A fallback's sequence lies between those of the grouped events around it. */
  ghost predicate FallbackOrder(log: seq<EventGroup>) {
    forall i, k :: IsFallback(log, i) && 0 <= k < |log| && log[k].runId.Some?
                   ==> (k < i ==> log[k].sequence < log[i].sequence) && (i < k ==> log[i].sequence <= log[k].sequence)
  }

  ghost predicate TailInv(st: State, log: seq<EventGroup>) {
    && (st.journal.None? ==> forall g :: g in log ==> g.runId.None?)
    && (st.journal.Some? ==> st.journal.value.groups != [] && BelowTail(st.journal.value.groups, log))
  }

  ghost predicate BelowTail(groups: seq<EventGroup>, log: seq<EventGroup>)
    requires groups != []
  {
    forall g :: g in log && g.runId.Some? ==> g.sequence <= groups[|groups| - 1].sequence
  }

  ghost predicate ForegroundInv(foreground: Foreground, log: seq<EventGroup>) {
    && (forall k :: LastSetting(log, k) ==> foreground == Sets(log[k]).value)
    && (Quiet(log, 0) ==> foreground == Idle)
  }

  /** While a fallback is still to be received, the watcher knows only what came before it. */
  ghost predicate NotOvertaken(w: Watch, log: seq<EventGroup>, fallbackEnd: nat, runsBefore: set<RunId>) {
    fallbackEnd > w.pos && fallbackEnd <= |log| ==>
      && (w.runId.Some? ==> w.runId.value in runsBefore)
      && (w.next.Some? ==> w.next.value <= log[fallbackEnd - 1].sequence)
      && (forall g :: g in w.pending && g.runId.Some? ==>
            g.runId.value in runsBefore && g.sequence < log[fallbackEnd - 1].sequence)
  }

  ghost predicate OriginInv(w: Watch, log: seq<EventGroup>, attachAt: nat, kernel: nat) {
    && attachAt <= w.pos
    && w.origin <= kernel + 1
    && (forall i :: attachAt <= i < |log| && log[i].runId.Some? ==> log[i].sequence >= w.origin)
    && (w.next.Some? ==> w.next.value >= w.origin)
    && (forall g :: g in w.pending ==> g in log && (g.runId.Some? ==> g.sequence >= w.origin))
  }

  predicate CursorBelowTail(w: Watch, st: State, runs: set<RunId>) {
    && (w.runId.Some? ==> w.runId.value in runs)
    && (w.next.Some? ==>
          st.journal.Some? && st.journal.value.groups != [] &&
          w.next.value <= st.journal.value.groups[|st.journal.value.groups| - 1].sequence + 1)
  }

  /** The watcher has, or has received, the last state update of the stream. */
  ghost predicate Informed(w: Watch, log: seq<EventGroup>, k: int) {
    0 <= k < |log| && (k < w.pos || (log[k].runId.Some? && (log[k] in w.sent || log[k] in w.pending)))
  }

  ghost predicate ClientInv(w: Watch, log: seq<EventGroup>, attachAt: nat, foreground: Foreground) {
    && (Quiet(log, attachAt) ==> Drained(w).client == foreground)
    && (forall k :: LastSetting(log, k) && attachAt <= k && Informed(w, log, k)
                    ==> Drained(w).client == foreground)
  }

  ghost predicate Following(w: Watch) {
    w.live && !Exhausted(w)
  }

  ghost predicate FollowerInv(t: Tracked) {
    && OriginInv(t.sys.watch, t.sys.log, t.attachAt, t.sys.kernel)
    && CursorBelowTail(t.sys.watch, t.sys.st, t.runs)
    && NotOvertaken(t.sys.watch, t.sys.log, t.fallbackEnd, t.runsBefore)
    && ClientInv(t.sys.watch, t.sys.log, t.attachAt, t.sys.st.foreground)
  }

  ghost predicate StreamInv(t: Tracked) {
    && RunsInv(t)
    && TakenIn(t.sys.log, t.sys.admitted)
    && FallbacksMarked(t.sys.log, t.fallbackEnd, t.sys.kernel)
    && FallbackOrder(t.sys.log)
    && TailInv(t.sys.st, t.sys.log)
    && ForegroundInv(t.sys.st.foreground, t.sys.log)
  }

  ghost predicate ConvergenceInv(t: Tracked) {
    Inv(t.sys) && StreamInv(t) && (Following(t.sys.watch) ==> FollowerInv(t))
  }

  // ---------------------------------------------------------------- draining

  /** Draining groups the watcher will not filter leaves the last state they report. */
  lemma {:induction false} DrainedClient(w: Watch, k: int)
    requires Sorted(w.pending)
    requires forall g :: g in w.pending ==> !Duplicate(w, g)
    requires LastSetting(w.pending, k)
    ensures Drained(w).client == Sets(w.pending[k]).value
    decreases |w.pending|
  {
    var h, rest := w.pending[0], w.pending[1..];
    var v := ForwardStep(w);
    assert h in w.pending && v.pending == rest;
    ApplyReported(w.client, h.updates);
    assert forall i :: 0 <= i < |rest| ==> rest[i] == w.pending[i + 1];
    if k == 0 {
      assert Quiet(rest, 0);
      QuietDrain(v);
    } else {
      forall g | g in rest
        ensures !Duplicate(v, g)
      {
        assert g in w.pending && h.sequence < g.sequence;
      }
      assert LastSetting(rest, k - 1);
      DrainedClient(v, k - 1);
    }
  }

  /** Draining groups that set no state, filtered or not, leaves the client's state alone. */
  lemma {:induction false} QuietDrain(w: Watch)
    requires Quiet(w.pending, 0)
    ensures Drained(w).client == w.client
    decreases |w.pending|
  {
    if w.pending != [] {
      var v := ForwardStep(w);
      assert Sets(w.pending[0]).None?;
      ApplyReported(w.client, w.pending[0].updates);
      forall i | 0 <= i < |v.pending| ensures Sets(v.pending[i]).None? { assert v.pending[i] == w.pending[i + 1]; }
      QuietDrain(v);
    }
  }

  // ---------------------------------------------------------------- emissions

  lemma {:induction false} HasLastSetting(log: seq<EventGroup>, from: nat) returns (k: nat)
    requires from <= |log| && !Quiet(log, from)
    ensures from <= k && LastSetting(log, k)
    decreases |log| - from
  {
    if from < |log| && Sets(log[from]).Some? && Quiet(log, from + 1) {
      k := from;
    } else {
      assert !Quiet(log, from + 1);
      k := HasLastSetting(log, from + 1);
    }
  }

  lemma QuietPrefix(log: seq<EventGroup>, group: EventGroup, from: int)
    requires Quiet(log + [group], from) && from <= |log|
    ensures Quiet(log, from) && Sets(group).None?
  {
    assert (log + [group])[|log|] == group;
    assert forall i :: 0 <= i < |log| ==> (log + [group])[i] == log[i];
  }

  lemma AppendedForeground(before: Foreground, log: seq<EventGroup>, group: EventGroup)
    requires ForegroundInv(before, log)
    ensures ForegroundInv(ApplyUpdates(before, group.updates), log + [group])
  {
    var more := log + [group];
    ApplyReported(before, group.updates);
    forall k | LastSetting(more, k)
      ensures ApplyUpdates(before, group.updates) == Sets(more[k]).value
    {
      if k < |log| {
        QuietPrefix(log, group, k + 1);
        assert LastSetting(log, k);
      }
    }
    if Quiet(more, 0) {
      QuietPrefix(log, group, 0);
    }
  }

  /** The stream grows by one event: a grouped one newer than every fallback, or a silent one. */
  lemma StreamGrows(log: seq<EventGroup>, fallbackEnd: nat, kernel: nat, group: EventGroup)
    requires FallbacksMarked(log, fallbackEnd, kernel) && FallbackOrder(log)
    requires kernel < group.sequence
    requires Sets(group).Some? ==> group.runId.Some?
    ensures FallbacksMarked(log + [group], fallbackEnd, group.sequence) && FallbackOrder(log + [group])
  {
    var more := log + [group];
    assert forall i :: 0 <= i < |log| ==> more[i] == log[i];
    forall i | IsFallback(more, i)
      ensures i < |log| && IsFallback(log, i)
    {
    }
    if fallbackEnd > 0 {
      assert IsFallback(more, fallbackEnd - 1);
    }
  }

  lemma EmitKeepsRuns(t: Tracked, group: EventGroup, baseline: seq<string>)
    requires RunsInv(t) && Disciplined(t, Emit(group, baseline))
    requires Append(t.sys.st, group, baseline).Ok? && Enabled(t.sys, Emit(group, baseline))
    ensures RunsInv(TrackedNext(t, Emit(group, baseline)))
  {
    var n := TrackedNext(t, Emit(group, baseline));
    assert n.sys.log == t.sys.log + [group];
  }

  lemma EmitKeepsTail(st: State, log: seq<EventGroup>, kernel: nat, group: EventGroup, baseline: seq<string>)
    requires TailInv(st, log) && Ordered(log, kernel) && kernel < group.sequence
    requires group.runId.Some? ==> TakesIn(st, group)
    requires Append(st, group, baseline).Ok?
    ensures TailInv(Append(st, group, baseline).value, log + [group])
  {
  }

  lemma EmitKeepsTaken(log: seq<EventGroup>, admitted: seq<EventGroup>, group: EventGroup, taken: bool)
    requires TakenIn(log, admitted)
    requires group.runId.Some? ==> taken && (Sets(group).Some? ==> group.snapshotOf.None?)
    ensures TakenIn(log + [group], if taken then admitted + [group] else admitted)
  {
  }

  /** What an accepted emission leaves behind. */
  lemma EmittedFields(t: Tracked, group: EventGroup, baseline: seq<string>)
    requires Enabled(t.sys, Emit(group, baseline)) && Append(t.sys.st, group, baseline).Ok?
    ensures var s, n := t.sys, TrackedNext(t, Emit(group, baseline));
            && n.sys.log == s.log + [group] && n.sys.kernel == group.sequence && n.sys.watch == s.watch
            && n.sys.st == Append(s.st, group, baseline).value
            && n.sys.st.foreground == ApplyUpdates(s.st.foreground, group.updates)
            && n.sys.admitted == (if TakesIn(s.st, group) then s.admitted + [group] else s.admitted)
            && n.fallbackEnd == t.fallbackEnd && n.attachAt == t.attachAt
            && n.runsBefore == t.runsBefore && t.runs <= n.runs
  {
  }

  lemma RefusedFields(t: Tracked, group: EventGroup, baseline: seq<string>)
    requires Enabled(t.sys, Emit(group, baseline)) && Append(t.sys.st, group, baseline).Err?
    ensures TrackedNext(t, Emit(group, baseline)) == t.(sys := t.sys.(kernel := group.sequence))
    ensures group.runId.None?
  {
  }

  lemma LaterKernel(log: seq<EventGroup>, fallbackEnd: nat, kernel: nat, later: nat)
    requires FallbacksMarked(log, fallbackEnd, kernel) && kernel <= later
    ensures FallbacksMarked(log, fallbackEnd, later)
  {
  }

  lemma ComposeStream(t: Tracked)
    requires RunsInv(t) && TakenIn(t.sys.log, t.sys.admitted)
    requires FallbacksMarked(t.sys.log, t.fallbackEnd, t.sys.kernel) && FallbackOrder(t.sys.log)
    requires TailInv(t.sys.st, t.sys.log) && ForegroundInv(t.sys.st.foreground, t.sys.log)
    ensures StreamInv(t)
  {
  }

  lemma AcceptedKeepsStream(t: Tracked, group: EventGroup, baseline: seq<string>)
    requires StreamInv(t) && Ordered(t.sys.log, t.sys.kernel)
    requires Enabled(t.sys, Emit(group, baseline)) && Disciplined(t, Emit(group, baseline))
    requires Append(t.sys.st, group, baseline).Ok?
    ensures StreamInv(TrackedNext(t, Emit(group, baseline)))
  {
    var s := t.sys;
    EmittedFields(t, group, baseline);
    EmitKeepsRuns(t, group, baseline);
    EmitKeepsTaken(s.log, s.admitted, group, TakesIn(s.st, group));
    AppendedForeground(s.st.foreground, s.log, group);
    StreamGrows(s.log, t.fallbackEnd, s.kernel, group);
    EmitKeepsTail(s.st, s.log, s.kernel, group, baseline);
    ComposeStream(TrackedNext(t, Emit(group, baseline)));
  }

  lemma EmitKeepsStream(t: Tracked, group: EventGroup, baseline: seq<string>)
    requires StreamInv(t) && Ordered(t.sys.log, t.sys.kernel)
    requires Enabled(t.sys, Emit(group, baseline)) && Disciplined(t, Emit(group, baseline))
    ensures StreamInv(TrackedNext(t, Emit(group, baseline)))
  {
    if Append(t.sys.st, group, baseline).Ok? {
      AcceptedKeepsStream(t, group, baseline);
    } else {
      RefusedFields(t, group, baseline);
      LaterKernel(t.sys.log, t.fallbackEnd, t.sys.kernel, group.sequence);
    }
  }

  /** A watcher cannot already hold an event the Kernel has only just emitted. */
  lemma EmitKeepsClient(w: Watch, log: seq<EventGroup>, admitted: seq<EventGroup>, kernel: nat,
                        attachAt: nat, before: Foreground, group: EventGroup)
    requires CursorInv(w, admitted, kernel) && PendingInv(w, admitted, kernel)
    requires ClientInv(w, log, attachAt, before) && attachAt <= w.pos <= |log|
    requires kernel < group.sequence && (Sets(group).Some? ==> group.runId.Some?)
    ensures ClientInv(w, log + [group], attachAt, ApplyUpdates(before, group.updates))
  {
    var more := log + [group];
    ApplyReported(before, group.updates);
    assert forall i :: 0 <= i < |log| ==> more[i] == log[i];
    assert group.runId.Some? ==> group !in w.sent && group !in w.pending;
    if Quiet(more, attachAt) {
      QuietPrefix(log, group, attachAt);
    }
    forall k | LastSetting(more, k) && attachAt <= k && Informed(w, more, k)
      ensures Drained(w).client == ApplyUpdates(before, group.updates)
    {
      if k < |log| {
        QuietPrefix(log, group, k + 1);
        assert LastSetting(log, k) && Informed(w, log, k);
      }
    }
  }

  lemma StreamGrowthKeepsMarks(w: Watch, log: seq<EventGroup>, group: EventGroup, kernel: nat,
                               attachAt: nat, fallbackEnd: nat, runsBefore: set<RunId>)
    requires OriginInv(w, log, attachAt, kernel) && kernel < group.sequence
    requires NotOvertaken(w, log, fallbackEnd, runsBefore) && fallbackEnd <= |log|
    ensures OriginInv(w, log + [group], attachAt, group.sequence)
    ensures NotOvertaken(w, log + [group], fallbackEnd, runsBefore)
  {
    assert forall i :: 0 <= i < |log| ==> (log + [group])[i] == log[i];
  }

  lemma EmitKeepsCursorBelowTail(s: System, runs: set<RunId>, more: set<RunId>, group: EventGroup, baseline: seq<string>)
    requires CursorBelowTail(s.watch, s.st, runs) && runs <= more
    requires s.st.journal.Some? && s.st.journal.value.groups != [] ==>
               s.st.journal.value.groups[|s.st.journal.value.groups| - 1].sequence < group.sequence
    requires Append(s.st, group, baseline).Ok?
    ensures CursorBelowTail(s.watch, Append(s.st, group, baseline).value, more)
  {
  }

  lemma EmitKeeps(t: Tracked, group: EventGroup, baseline: seq<string>)
    requires ConvergenceInv(t) && Enabled(t.sys, Emit(group, baseline)) && Disciplined(t, Emit(group, baseline))
    ensures ConvergenceInv(TrackedNext(t, Emit(group, baseline)))
  {
    StepKeepsInv(t.sys, Emit(group, baseline));
    EmitKeepsStream(t, group, baseline);
    if Following(t.sys.watch) {
      EmitKeepsFollower(t, group, baseline);
    }
  }

  lemma EmitKeepsFollower(t: Tracked, group: EventGroup, baseline: seq<string>)
    requires ConvergenceInv(t) && Enabled(t.sys, Emit(group, baseline)) && Disciplined(t, Emit(group, baseline))
    requires Following(t.sys.watch)
    ensures FollowerInv(TrackedNext(t, Emit(group, baseline)))
  {
    var s := t.sys;
    if Append(s.st, group, baseline).Ok? {
      var n := TrackedNext(t, Emit(group, baseline));
      EmitKeepsClient(s.watch, s.log, s.admitted, s.kernel, t.attachAt, s.st.foreground, group);
      StreamGrowthKeepsMarks(s.watch, s.log, group, s.kernel, t.attachAt, t.fallbackEnd, t.runsBefore);
      EmitKeepsCursorBelowTail(s, t.runs, n.runs, group, baseline);
      assert n.sys.log == s.log + [group] && n.sys.watch == s.watch && n.sys.kernel == group.sequence;
    }
  }

  // ---------------------------------------------------------------- the terminal fallback

  lemma FallbackSets(sequence: Sequence)
    ensures Sets(FallbackGroup(sequence)) == Some(Idle)
  {
  }

  /** The fallback's sequence follows every grouped event of the stream. */
  lemma FallbackFollows(st: State, log: seq<EventGroup>)
    requires TailInv(st, log) && Fallback(st).1.Some?
    ensures forall g :: g in log && g.runId.Some? ==> g.sequence < Fallback(st).1.value.sequence
  {
  }

  lemma FallbackKeepsOrder(st: State, log: seq<EventGroup>, fallbackEnd: nat, kernel: nat)
    requires TailInv(st, log) && Fallback(st).1.Some?
    requires FallbacksMarked(log, fallbackEnd, kernel) && FallbackOrder(log) && fallbackEnd <= |log|
    requires st.journal.Some? ==> st.journal.value.groups[|st.journal.value.groups| - 1].sequence <= kernel
    ensures var more := log + [Fallback(st).1.value];
            FallbacksMarked(more, |more|, kernel) && FallbackOrder(more)
  {
    var terminal := Fallback(st).1.value;
    var more := log + [terminal];
    FallbackSets(terminal.sequence);
    FallbackFollows(st, log);
    assert forall i :: 0 <= i < |log| ==> more[i] == log[i] && more[i] in log;
    forall i | IsFallback(more, i) && i < |log|
      ensures IsFallback(log, i)
    {
    }
    assert IsFallback(more, |log|);
  }

  lemma FallbackKeepsRuns(t: Tracked)
    requires RunsInv(t)
    ensures RunsInv(TrackedNext(t, TerminalFallback))
  {
    var s := t.sys;
    var n := TrackedNext(t, TerminalFallback);
    if Fallback(s.st).1.Some? {
      assert n.sys.log == s.log + [Fallback(s.st).1.value];
    } else {
      assert n.sys.log == s.log;
    }
  }

  lemma FallbackKeepsTail(st: State, log: seq<EventGroup>, admitted: seq<EventGroup>)
    requires TailInv(st, log) && TakenIn(log, admitted)
    ensures Fallback(st).1.None? ==> TailInv(Fallback(st).0, log)
    ensures Fallback(st).1.Some? ==>
              TailInv(Fallback(st).0, log + [Fallback(st).1.value]) && TakenIn(log + [Fallback(st).1.value], admitted)
  {
  }

  lemma FallbackKeepsStream(t: Tracked)
    requires ConvergenceInv(t)
    ensures StreamInv(TrackedNext(t, TerminalFallback))
  {
    var s := t.sys;
    var n := TrackedNext(t, TerminalFallback);
    FallbackKeepsRuns(t);
    FallbackKeepsTail(s.st, s.log, s.admitted);
    if Fallback(s.st).1.Some? {
      FallbackKeepsOrder(s.st, s.log, t.fallbackEnd, s.kernel);
      AppendedForeground(s.st.foreground, s.log, Fallback(s.st).1.value);
      assert n.sys.log == s.log + [Fallback(s.st).1.value];
    } else {
      assert n.sys.log == s.log;
    }
  }

  lemma FallbackKeepsMarks(w: Watch, st: State, log: seq<EventGroup>, kernel: nat, attachAt: nat, runs: set<RunId>)
    requires TailInv(st, log) && Fallback(st).1.Some? && CursorBelowTail(w, st, runs)
    requires OriginInv(w, log, attachAt, kernel) && w.pos <= |log|
    requires Seen(log, |log|, runs)
    ensures var more := log + [Fallback(st).1.value];
            NotOvertaken(w, more, |more|, runs) && OriginInv(w, more, attachAt, kernel)
    ensures CursorBelowTail(w, Fallback(st).0, runs)
  {
    var terminal := Fallback(st).1.value;
    FallbackFollows(st, log);
    assert (log + [terminal])[|log|] == terminal;
    assert forall i :: 0 <= i < |log| ==> (log + [terminal])[i] == log[i];
  }

  lemma FallbackKeepsClient(w: Watch, log: seq<EventGroup>, attachAt: nat, sequence: Sequence, foreground: Foreground)
    requires attachAt <= w.pos <= |log|
    ensures ClientInv(w, log + [FallbackGroup(sequence)], attachAt, foreground)
  {
    FallbackSets(sequence);
    assert (log + [FallbackGroup(sequence)])[|log|] == FallbackGroup(sequence);
  }

  lemma FallbackKeepsFollower(t: Tracked)
    requires ConvergenceInv(t) && Following(t.sys.watch)
    ensures FollowerInv(TrackedNext(t, TerminalFallback))
  {
    var s := t.sys;
    var n := TrackedNext(t, TerminalFallback);
    if Fallback(s.st).1.Some? {
      FallbackKeepsMarks(s.watch, s.st, s.log, s.kernel, t.attachAt, t.runs);
      FallbackKeepsClient(s.watch, s.log, t.attachAt, Fallback(s.st).1.value.sequence, n.sys.st.foreground);
      assert n.sys.log == s.log + [Fallback(s.st).1.value] && n.sys.watch == s.watch;
    } else {
      assert n.sys.log == s.log && n.sys.watch == s.watch;
    }
  }

  lemma FallbackKeeps(t: Tracked)
    requires ConvergenceInv(t)
    ensures ConvergenceInv(TrackedNext(t, TerminalFallback))
  {
    StepKeepsInv(t.sys, TerminalFallback);
    FallbackKeepsStream(t);
    if Following(t.sys.watch) {
      FallbackKeepsFollower(t);
    }
  }

  // ---------------------------------------------------------------- steps of the watcher

  /** The stream's invariant says nothing about the watcher. */
  lemma StreamIgnoresWatch(t: Tracked, w: Watch, attachAt: nat)
    requires StreamInv(t)
    ensures StreamInv(t.(sys := t.sys.(watch := w), attachAt := attachAt))
  {
  }

  /** What the arguments about a single reception need of a following watcher. */
  ghost predicate Listening(t: Tracked) {
    && CursorInv(t.sys.watch, t.sys.admitted, t.sys.kernel)
    && Ordered(t.sys.log, t.sys.kernel)
    && StreamInv(t) && FollowerInv(t)
    && t.sys.watch.pos <= |t.sys.log|
  }

  lemma IsListening(t: Tracked)
    requires ConvergenceInv(t) && Following(t.sys.watch)
    ensures Listening(t)
  {
  }

  // ---------------------------------------------------------------- subscriptions

  lemma BacklogBelowTail(journal: Journal, feed: Feed)
    requires ValidJournal(journal) && feed.runId == journal.runId
    requires feed.backlog == From(journal.groups, feed.nextSequence)
    ensures forall i :: 0 <= i < |feed.backlog| ==>
              && feed.backlog[i].runId == Some(feed.runId)
              && feed.nextSequence <= feed.backlog[i].sequence <= journal.groups[|journal.groups| - 1].sequence
  {
    FromProperties(journal.groups, feed.nextSequence);
    forall i | 0 <= i < |feed.backlog|
      ensures feed.backlog[i].runId == Some(feed.runId)
      ensures feed.nextSequence <= feed.backlog[i].sequence <= journal.groups[|journal.groups| - 1].sequence
    {
      assert feed.backlog[i] in feed.backlog && feed.backlog[i] in journal.groups;
    }
  }

  lemma AttachedCursor(s: System, feed: Feed)
    requires s.st.journal.Some? && ValidJournal(s.st.journal.value)
    requires feed.backlog == From(s.st.journal.value.groups, feed.nextSequence)
    requires Covers(s.st.journal.value.groups, feed.nextSequence)
    requires feed.runId == s.st.journal.value.runId
    ensures var w := Attached(s, feed);
            && CursorBelowTail(w, s.st, {feed.runId})
            && w.origin == feed.nextSequence
            && (w.next.Some? ==> w.next.value >= w.origin)
            && w.pending == [] && w.pos == |s.log| && w.client == feed.state
  {
    BacklogBelowTail(s.st.journal.value, feed);
    AttachedFields(s, feed);
    BacklogRecorded(
      Watch(Some(feed.runId), Some(feed.nextSequence), |s.log|, [], feed.delivered, true, [], feed.state, feed.nextSequence),
      feed.backlog);
  }

  /** A watcher that has just attached has nothing to catch up with. */
  lemma FreshFollower(t: Tracked)
    requires t.attachAt == t.sys.watch.pos == |t.sys.log| && t.sys.watch.pending == []
    requires t.fallbackEnd <= |t.sys.log|
    requires t.sys.watch.client == t.sys.st.foreground
    requires t.sys.watch.origin <= t.sys.kernel + 1
    requires t.sys.watch.next.Some? ==> t.sys.watch.next.value >= t.sys.watch.origin
    requires CursorBelowTail(t.sys.watch, t.sys.st, t.runs)
    ensures FollowerInv(t)
  {
    assert Drained(t.sys.watch) == t.sys.watch;
  }

  lemma AttachedFollows(t: Tracked, feed: Feed)
    requires ConvergenceInv(t) && t.sys.st.journal.Some?
    requires feed.backlog == From(t.sys.st.journal.value.groups, feed.nextSequence)
    requires Covers(t.sys.st.journal.value.groups, feed.nextSequence)
    requires feed.runId == t.sys.st.journal.value.runId && feed.state == t.sys.st.foreground
    ensures FollowerInv(t.(sys := t.sys.(watch := Attached(t.sys, feed)), attachAt := |t.sys.log|))
  {
    AttachedCursor(t.sys, feed);
    FreshFollower(t.(sys := t.sys.(watch := Attached(t.sys, feed)), attachAt := |t.sys.log|));
  }

  lemma AttachKeeps(t: Tracked, how: Attachment)
    requires ConvergenceInv(t) && Enabled(t.sys, Attach(how))
    ensures ConvergenceInv(TrackedNext(t, Attach(how)))
  {
    var s := t.sys;
    AttachKeepsInv(s, how);
    if how.AtLive? {
      assert Drained(AttachStep(s, how).value) == AttachStep(s, how).value;
    } else {
      var feed := if how.AtStart? then SubscribeFromStart(s.st).value
                  else SubscribeFromCursor(s.st, how.run, how.sequence).value;
      if how.AtStart? {
        FromAll(s.st.journal.value.groups, feed.nextSequence);
      }
      AttachedFollows(t, feed);
    }
  }

  // ---------------------------------------------------------------- receiving

  lemma GroupedIndex(log: seq<EventGroup>, kernel: nat, i: int, k: int)
    requires Ordered(log, kernel) && 0 <= i < |log| && 0 <= k < |log|
    requires log[i].runId.Some? && log[k].runId.Some? && log[i].sequence <= log[k].sequence
    ensures i <= k
  {
  }

  lemma DropDuplicate(w: Watch, group: EventGroup)
    requires w.pending == [group] && Duplicate(w, group)
    ensures Drained(w).client == w.client
  {
    assert ForwardStep(w).pending == [];
  }

  /** The watcher after receiving the next event of the stream. */
  function Received(w: Watch, log: seq<EventGroup>): Watch
    requires w.pos < |log|
  {
    w.(pos := w.pos + 1, pending := [log[w.pos]])
  }

  /** The next event is the last state update: it is applied, unless it was forwarded before. */
  lemma ReceivedNow(w: Watch, log: seq<EventGroup>, admitted: seq<EventGroup>, kernel: nat, fallbackEnd: nat,
                    runsBefore: set<RunId>, attachAt: nat, foreground: Foreground)
    requires CursorInv(w, admitted, kernel) && w.pending == [] && w.pos < |log|
    requires TakenIn(log, admitted) && FallbacksMarked(log, fallbackEnd, kernel) && fallbackEnd <= |log|
    requires OriginInv(w, log, attachAt, kernel) && NotOvertaken(w, log, fallbackEnd, runsBefore)
    requires ClientInv(w, log, attachAt, foreground) && LastSetting(log, w.pos)
    requires foreground == Sets(log[w.pos]).value
    ensures Drained(Received(w, log)).client == foreground
  {
    var h := log[w.pos];
    var v := w.(pos := w.pos + 1, pending := [h]);
    assert h in log;
    if h.runId.None? {
      assert IsFallback(log, w.pos);
      assert IsFallback(log, fallbackEnd - 1);
      assert !Duplicate(w, h);
    }
    if Duplicate(w, h) {
      assert h in admitted && !Superseded(h, admitted);
      assert h in w.sent;
      assert Informed(w, log, w.pos);
      DropDuplicate(v, h);
    } else {
      assert LastSetting([h], 0);
      DrainedClient(v, 0);
    }
  }

  /** The last state update was already forwarded: nothing received now undoes it. */
  lemma ReceivedLate(w: Watch, log: seq<EventGroup>, admitted: seq<EventGroup>, kernel: nat, k: int)
    requires CursorInv(w, admitted, kernel) && Ordered(log, kernel) && FallbackOrder(log)
    requires w.pending == [] && w.pos < k < |log| && log[k].runId.Some? && log[k] in w.sent
    ensures Drained(Received(w, log)).client == w.client
  {
    var h := log[w.pos];
    var v := w.(pos := w.pos + 1, pending := [h]);
    if Sets(h).None? {
      assert Quiet([h], 0);
      QuietDrain(v);
    } else {
      if h.runId.None? {
        assert IsFallback(log, w.pos);
      }
      assert h.sequence <= log[k].sequence;
      DropDuplicate(v, h);
    }
  }

  lemma ReceivedNews(t: Tracked, k: int)
    requires Listening(t) && t.sys.watch.pending == [] && t.sys.watch.pos < |t.sys.log|
    requires LastSetting(t.sys.log, k) && t.attachAt <= k && Informed(Received(t.sys.watch, t.sys.log), t.sys.log, k)
    ensures Drained(Received(t.sys.watch, t.sys.log)).client == t.sys.st.foreground
  {
    var s := t.sys;
    if k == s.watch.pos {
      ReceivedNow(s.watch, s.log, s.admitted, s.kernel, t.fallbackEnd, t.runsBefore, t.attachAt, s.st.foreground);
    } else {
      KnownBefore(s.watch, s.log, s.kernel, k);
      if k < s.watch.pos {
        ReceivedQuiet(s.watch, s.log, k);
      } else {
        ReceivedLate(s.watch, s.log, s.admitted, s.kernel, k);
      }
    }
  }

  lemma KnownBefore(w: Watch, log: seq<EventGroup>, kernel: nat, k: int)
    requires Ordered(log, kernel) && w.pending == [] && w.pos < |log| && k != w.pos
    requires Informed(Received(w, log), log, k)
    ensures Informed(w, log, k) && (w.pos < k ==> log[k].runId.Some? && log[k] in w.sent)
  {
    assert w.pos < k && log[k].runId.Some? ==> log[k] != log[w.pos];
  }

  lemma ReceivedQuiet(w: Watch, log: seq<EventGroup>, k: int)
    requires w.pending == [] && k < w.pos < |log| && LastSetting(log, k)
    ensures Drained(Received(w, log)).client == Drained(w).client
  {
    assert Quiet([log[w.pos]], 0);
    QuietDrain(Received(w, log));
  }

  lemma ReceivedClient(w: Watch, log: seq<EventGroup>, attachAt: nat, foreground: Foreground)
    requires ClientInv(w, log, attachAt, foreground) && w.pending == [] && attachAt <= w.pos < |log|
    requires forall k :: LastSetting(log, k) && attachAt <= k && Informed(Received(w, log), log, k)
                         ==> Drained(Received(w, log)).client == foreground
    ensures ClientInv(Received(w, log), log, attachAt, foreground)
  {
    var v := Received(w, log);
    if Quiet(log, attachAt) {
      assert Quiet(v.pending, 0);
      QuietDrain(v);
    }
  }

  lemma ReceiveLiveKeepsClient(t: Tracked)
    requires Listening(t) && t.sys.watch.pending == [] && t.sys.watch.pos < |t.sys.log|
    ensures ClientInv(Received(t.sys.watch, t.sys.log), t.sys.log, t.attachAt, t.sys.st.foreground)
  {
    forall k | LastSetting(t.sys.log, k) && t.attachAt <= k && Informed(Received(t.sys.watch, t.sys.log), t.sys.log, k)
      ensures Drained(Received(t.sys.watch, t.sys.log)).client == t.sys.st.foreground
    {
      ReceivedNews(t, k);
    }
    ReceivedClient(t.sys.watch, t.sys.log, t.attachAt, t.sys.st.foreground);
  }

  lemma ReceiveLiveKeepsMarks(w: Watch, log: seq<EventGroup>, kernel: nat, attachAt: nat, fallbackEnd: nat, runsBefore: set<RunId>)
    requires OriginInv(w, log, attachAt, kernel) && NotOvertaken(w, log, fallbackEnd, runsBefore)
    requires FallbacksMarked(log, fallbackEnd, kernel) && FallbackOrder(log) && fallbackEnd <= |log|
    requires Seen(log, fallbackEnd, runsBefore)
    requires w.pos < |log|
    ensures OriginInv(Received(w, log), log, attachAt, kernel)
    ensures NotOvertaken(Received(w, log), log, fallbackEnd, runsBefore)
  {
    var h := log[w.pos];
    assert h in log;
    if fallbackEnd > w.pos + 1 {
      assert IsFallback(log, fallbackEnd - 1);
    }
  }

  lemma ReceiveLiveStep(s: System)
    requires Enabled(s, Receive) && s.watch.pos < |s.log|
    ensures Next(s, Receive) == s.(watch := Received(s.watch, s.log))
    ensures s.watch.pending == []
  {
  }

  lemma CursorUnmoved(w: Watch, pos: nat, pending: seq<EventGroup>, st: State, runs: set<RunId>)
    requires CursorBelowTail(w, st, runs)
    ensures CursorBelowTail(w.(pos := pos, pending := pending), st, runs)
  {
  }

  lemma ReceiveLiveKeeps(t: Tracked)
    requires Listening(t) && t.sys.watch.pending == [] && t.sys.watch.pos < |t.sys.log|
    ensures FollowerInv(t.(sys := t.sys.(watch := Received(t.sys.watch, t.sys.log))))
  {
    var s := t.sys;
    ReceiveLiveKeepsClient(t);
    ReceiveLiveKeepsMarks(s.watch, s.log, s.kernel, t.attachAt, t.fallbackEnd, t.runsBefore);
    CursorUnmoved(s.watch, s.watch.pos + 1, [s.log[s.watch.pos]], s.st, t.runs);
    ComposeFollower(t, Received(s.watch, s.log));
  }

  lemma ComposeFollower(t: Tracked, w: Watch)
    requires OriginInv(w, t.sys.log, t.attachAt, t.sys.kernel)
    requires CursorBelowTail(w, t.sys.st, t.runs)
    requires NotOvertaken(w, t.sys.log, t.fallbackEnd, t.runsBefore)
    requires ClientInv(w, t.sys.log, t.attachAt, t.sys.st.foreground)
    ensures FollowerInv(t.(sys := t.sys.(watch := w)))
  {
  }

  /** Recovery is served only to a watcher with no fallback left to receive. */
  lemma NoFallbackLeft(t: Tracked)
    requires NotOvertaken(t.sys.watch, t.sys.log, t.fallbackEnd, t.runsBefore) && t.fallbackEnd <= |t.sys.log|
    requires FreshInv(t.sys.st, t.runs, t.runsBefore) && Recover(t.sys.st, t.sys.watch).Ok?
    ensures t.fallbackEnd <= t.sys.watch.pos
  {
  }

  lemma RecoveredJournal(w: Watch, st: State, log: seq<EventGroup>, admitted: seq<EventGroup>, kernel: nat)
    requires JournalInv(st, log, admitted, kernel) && Recover(st, w).Ok?
    ensures w.next.Some? && Sorted(Recover(st, w).value)
    ensures forall g :: g in Recover(st, w).value ==>
              g.runId.Some? && g in admitted && g in log && g.sequence >= w.next.value
  {
    FromProperties(st.journal.value.groups, w.next.value);
  }

  /** It hands out only groups the watcher never forwarded, so whatever sets a state lies ahead. */
  lemma RecoveredAhead(t: Tracked)
    requires Listening(t) && t.sys.watch.pending == []
    requires JournalInv(t.sys.st, t.sys.log, t.sys.admitted, t.sys.kernel)
    requires CoverageInv(t.sys.watch, t.sys.log, t.sys.admitted)
    requires Recover(t.sys.st, t.sys.watch).Ok?
    ensures t.fallbackEnd <= t.sys.watch.pos
    ensures Fetched(t, Recover(t.sys.st, t.sys.watch).value)
  {
    var s := t.sys;
    NoFallbackLeft(t);
    RecoveredJournal(s.watch, s.st, s.log, s.admitted, s.kernel);
    forall g | g in Recover(s.st, s.watch).value && Sets(g).Some?
      ensures Ahead(s.log, s.watch.pos, g)
    {
      RecoveredIsAhead(s.watch, s.log, s.admitted, s.kernel, g);
    }
  }

  lemma RecoveredIsAhead(w: Watch, log: seq<EventGroup>, admitted: seq<EventGroup>, kernel: nat, g: EventGroup)
    requires CursorInv(w, admitted, kernel) && CoverageInv(w, log, admitted) && TakenIn(log, admitted)
    requires w.pending == [] && w.next.Some? && w.next.value >= w.origin
    requires g in admitted && g in log && g.runId.Some? && g.sequence >= w.next.value && Sets(g).Some?
    ensures Ahead(log, w.pos, g)
  {
    assert g !in w.sent;
    assert !Superseded(g, admitted);
  }

  /** The groups recovery hands out, as far as the client's state needs them. */
  ghost predicate Fetched(t: Tracked, pending: seq<EventGroup>) {
    && t.sys.watch.next.Some? && Sorted(pending)
    && forall g :: g in pending ==>
         && g.runId.Some? && g in t.sys.log && g.sequence >= t.sys.watch.next.value
         && (Sets(g).Some? ==> Ahead(t.sys.log, t.sys.watch.pos, g))
  }

  lemma RecoveredQuiet(w: Watch, log: seq<EventGroup>, kernel: nat, pending: seq<EventGroup>, k: int)
    requires Ordered(log, kernel) && Quiet(log, k)
    requires forall g :: g in pending ==> g.runId.Some? && (Sets(g).Some? ==> Ahead(log, w.pos, g))
    requires k <= w.pos || (0 < k <= |log| && log[k - 1].runId.Some? &&
                            forall g :: g in pending ==> log[k - 1].sequence < g.sequence)
    ensures Quiet(pending, 0)
  {
    forall m | 0 <= m < |pending|
      ensures Sets(pending[m]).None?
    {
      var g := pending[m];
      assert g in pending;
      if Sets(g).Some? {
        var i :| w.pos <= i < |log| && log[i] == g;
        if k > w.pos {
          GroupedIndex(log, kernel, k - 1, i);
        }
      }
    }
  }

  lemma RecoveredNews(w: Watch, log: seq<EventGroup>, kernel: nat, k: int)
    requires Ordered(log, kernel) && LastSetting(log, k) && log[k].runId.Some?
    requires Sorted(w.pending) && log[k] in w.pending
    requires forall g :: g in w.pending ==> !Duplicate(w, g) && g in log && g.runId.Some?
    ensures Drained(w).client == Sets(log[k]).value
  {
    var m :| 0 <= m < |w.pending| && w.pending[m] == log[k];
    forall i | m + 1 <= i < |w.pending|
      ensures Sets(w.pending[i]).None?
    {
      var g := w.pending[i];
      assert g in w.pending;
      var x :| 0 <= x < |log| && log[x] == g;
      GroupedIndex(log, kernel, k, x);
    }
    assert LastSetting(w.pending, m);
    DrainedClient(w, m);
  }

  lemma LaggedNews(t: Tracked, pending: seq<EventGroup>, pos: nat, k: int)
    requires Listening(t) && Fetched(t, pending) && t.sys.watch.pending == []
    requires LastSetting(t.sys.log, k) && t.attachAt <= k
    requires Informed(t.sys.watch, t.sys.log, k) || (t.sys.log[k].runId.Some? && t.sys.log[k] in pending)
    ensures Drained(t.sys.watch.(pos := pos, pending := pending)).client == t.sys.st.foreground
  {
    var s := t.sys;
    var w := s.watch.(pos := pos, pending := pending);
    if Informed(s.watch, s.log, k) {
      RecoveredQuiet(s.watch, s.log, s.kernel, pending, k + 1);
      QuietDrain(w);
    } else {
      RecoveredNews(w, s.log, s.kernel, k);
    }
  }

  /** A state update the watcher missed is among what recovery hands out. */
  lemma MissedIsPending(w: Watch, log: seq<EventGroup>, admitted: seq<EventGroup>, kernel: nat, k: int)
    requires CoverageInv(w, log, admitted) && Ordered(log, kernel) && TakenIn(log, admitted)
    requires 0 <= k < |log| && log[k].runId.Some? && Sets(log[k]).Some? && log[k].sequence >= w.origin
    requires log[k] !in w.sent && k < w.pos
    ensures log[k] in w.pending
  {
    assert log[k] in log && log[k] in admitted && !Superseded(log[k], admitted);
    NotAhead(log, kernel, k, w.pos);
  }

  lemma LaggedCoverage(s: System, reported: nat)
    requires Inv(s) && Enabled(s, Lagged(reported)) && Recover(s.st, s.watch).Ok?
    ensures CoverageInv(Next(s, Lagged(reported)).watch, s.log, s.admitted)
  {
    LaggedKeepsInv(s, reported);
    var n := Next(s, Lagged(reported));
    assert n.log == s.log && n.admitted == s.admitted;
  }

  lemma LaggedIsRecovered(w: Watch, v: Watch, log: seq<EventGroup>, admitted: seq<EventGroup>, kernel: nat, attachAt: nat, k: int)
    requires CoverageInv(v, log, admitted) && Ordered(log, kernel) && TakenIn(log, admitted)
    requires OriginInv(w, log, attachAt, kernel) && v.sent == w.sent && v.origin == w.origin
    requires LastSetting(log, k) && attachAt <= k && log[k].runId.Some?
    requires Informed(v, log, k) && !Informed(w, log, k)
    ensures log[k] in v.pending
  {
    if k < v.pos {
      MissedIsPending(v, log, admitted, kernel, k);
    }
  }

  lemma RecoveredStep(s: System, reported: nat)
    requires Enabled(s, Lagged(reported)) && Recover(s.st, s.watch).Ok?
    ensures Next(s, Lagged(reported)) == s.(watch := s.watch.(pos := reported, pending := Recover(s.st, s.watch).value))
    ensures s.watch.pending == []
  {
  }

  lemma NotAhead(log: seq<EventGroup>, kernel: nat, k: int, pos: nat)
    requires Ordered(log, kernel) && 0 <= k < |log| && log[k].runId.Some? && k < pos
    ensures !Ahead(log, pos, log[k])
  {
  }

  lemma LaggedKeepsMarks(t: Tracked, pending: seq<EventGroup>, pos: nat)
    requires Listening(t) && Fetched(t, pending) && t.fallbackEnd <= t.sys.watch.pos <= pos
    ensures var w := t.sys.watch.(pos := pos, pending := pending);
            && OriginInv(w, t.sys.log, t.attachAt, t.sys.kernel)
            && CursorBelowTail(w, t.sys.st, t.runs)
            && NotOvertaken(w, t.sys.log, t.fallbackEnd, t.runsBefore)
  {
  }

  lemma RecoveredKeeps(t: Tracked, reported: nat)
    requires ConvergenceInv(t) && Enabled(t.sys, Lagged(reported)) && Following(t.sys.watch)
    requires Recover(t.sys.st, t.sys.watch).Ok?
    ensures FollowerInv(t.(sys := Next(t.sys, Lagged(reported))))
  {
    var s := t.sys;
    RecoveredStep(s, reported);
    IsListening(t);
    LaggedCoverage(s, reported);
    RecoveredAhead(t);
    FetchedKeeps(t, Recover(s.st, s.watch).value, reported);
  }

  lemma FetchedKeeps(t: Tracked, pending: seq<EventGroup>, pos: nat)
    requires Listening(t) && Fetched(t, pending) && t.sys.watch.pending == []
    requires t.fallbackEnd <= t.sys.watch.pos <= pos
    requires CoverageInv(t.sys.watch.(pos := pos, pending := pending), t.sys.log, t.sys.admitted)
    ensures FollowerInv(t.(sys := t.sys.(watch := t.sys.watch.(pos := pos, pending := pending))))
  {
    var s := t.sys;
    var w := s.watch.(pos := pos, pending := pending);
    LaggedKeepsMarks(t, pending, pos);
    forall k | LastSetting(s.log, k) && t.attachAt <= k && Informed(w, s.log, k)
      ensures Informed(s.watch, s.log, k) || (s.log[k].runId.Some? && s.log[k] in pending)
    {
      if !Informed(s.watch, s.log, k) {
        assert s.log[k] in s.log && !IsFallback(s.log, k);
        LaggedIsRecovered(s.watch, w, s.log, s.admitted, s.kernel, t.attachAt, k);
      }
    }
    LaggedKeepsClient(t, pending, pos);
    ComposeFollower(t, w);
  }

  lemma LaggedKeepsClient(t: Tracked, pending: seq<EventGroup>, pos: nat)
    requires Listening(t) && Fetched(t, pending) && t.sys.watch.pending == []
    requires var w := t.sys.watch.(pos := pos, pending := pending);
             forall k :: LastSetting(t.sys.log, k) && t.attachAt <= k && Informed(w, t.sys.log, k)
                         ==> Informed(t.sys.watch, t.sys.log, k) || (t.sys.log[k].runId.Some? && t.sys.log[k] in pending)
    ensures ClientInv(t.sys.watch.(pos := pos, pending := pending), t.sys.log, t.attachAt, t.sys.st.foreground)
  {
    var s := t.sys;
    var w := s.watch.(pos := pos, pending := pending);
    if Quiet(s.log, t.attachAt) {
      RecoveredQuiet(s.watch, s.log, s.kernel, pending, t.attachAt);
      QuietDrain(w);
    }
    forall k | LastSetting(s.log, k) && t.attachAt <= k && Informed(w, s.log, k)
      ensures Drained(w).client == s.st.foreground
    {
      LaggedNews(t, pending, pos, k);
    }
  }

  // ---------------------------------------------------------------- forwarding

  lemma ForwardKeepsClient(w: Watch, log: seq<EventGroup>, attachAt: nat, foreground: Foreground)
    requires w.pending != [] && ClientInv(w, log, attachAt, foreground)
    ensures ClientInv(ForwardStep(w), log, attachAt, foreground)
  {
    var v := ForwardStep(w);
    assert w.pending[0] in w.pending;
    assert forall g :: g in v.pending ==> g in w.pending;
    assert forall g :: g in v.sent ==> g in w.sent || g == w.pending[0];
    assert Drained(v) == Drained(w);
    forall k | Informed(v, log, k)
      ensures Informed(w, log, k)
    {
    }
  }

  lemma ForwardKeepsOrigin(w: Watch, log: seq<EventGroup>, attachAt: nat, kernel: nat)
    requires OriginInv(w, log, attachAt, kernel) && w.pending != []
    ensures OriginInv(ForwardStep(w), log, attachAt, kernel)
  {
    assert w.pending[0] in w.pending;
    assert forall g :: g in ForwardStep(w).pending ==> g in w.pending;
  }

  lemma ForwardKeepsTail(w: Watch, st: State, log: seq<EventGroup>, runs: set<RunId>)
    requires CursorBelowTail(w, st, runs) && TailInv(st, log) && w.pending != [] && w.pending[0] in log
    requires Seen(log, |log|, runs)
    ensures CursorBelowTail(ForwardStep(w), st, runs)
  {
  }

  lemma ForwardKeepsPast(w: Watch, log: seq<EventGroup>, fallbackEnd: nat, runsBefore: set<RunId>)
    requires NotOvertaken(w, log, fallbackEnd, runsBefore) && w.pending != []
    ensures NotOvertaken(ForwardStep(w), log, fallbackEnd, runsBefore)
  {
    assert w.pending[0] in w.pending;
    assert forall g :: g in ForwardStep(w).pending ==> g in w.pending;
  }

  lemma ForwardKeepsCursor(t: Tracked)
    requires ConvergenceInv(t) && Enabled(t.sys, Forward) && Following(t.sys.watch)
    ensures var w := ForwardStep(t.sys.watch);
            && OriginInv(w, t.sys.log, t.attachAt, t.sys.kernel)
            && CursorBelowTail(w, t.sys.st, t.runs)
            && NotOvertaken(w, t.sys.log, t.fallbackEnd, t.runsBefore)
  {
    var s := t.sys;
    ForwardKeepsOrigin(s.watch, s.log, t.attachAt, s.kernel);
    ForwardKeepsTail(s.watch, s.st, s.log, t.runs);
    ForwardKeepsPast(s.watch, s.log, t.fallbackEnd, t.runsBefore);
  }

  lemma ForwardKeeps(t: Tracked)
    requires ConvergenceInv(t) && Enabled(t.sys, Forward)
    ensures ConvergenceInv(TrackedNext(t, Forward))
  {
    var s := t.sys;
    var w := ForwardStep(s.watch);
    StepKeepsInv(s, Forward);
    assert forall g :: g in s.watch.sent ==> g in w.sent;
    if Following(w) {
      assert Following(s.watch);
      ForwardKeepsCursor(t);
      ForwardKeepsClient(s.watch, s.log, t.attachAt, s.st.foreground);
    }
  }

  // ---------------------------------------------------------------- every disciplined run

  lemma ReceiveKeeps(t: Tracked)
    requires ConvergenceInv(t) && Enabled(t.sys, Receive)
    ensures ConvergenceInv(TrackedNext(t, Receive))
  {
    StepKeepsInv(t.sys, Receive);
    var w := Next(t.sys, Receive).watch;
    assert w.sent == t.sys.watch.sent;
    assert TrackedNext(t, Receive) == t.(sys := t.sys.(watch := w));
    StreamIgnoresWatch(t, w, t.attachAt);
    if Following(w) {
      if t.sys.watch.pos < |t.sys.log| {
        IsListening(t);
        ReceiveLiveStep(t.sys);
        ReceiveLiveKeeps(t);
      }
    }
  }

  lemma LaggedKeeps(t: Tracked, reported: nat)
    requires ConvergenceInv(t) && Enabled(t.sys, Lagged(reported))
    ensures ConvergenceInv(TrackedNext(t, Lagged(reported)))
  {
    StepKeepsInv(t.sys, Lagged(reported));
    var w := Next(t.sys, Lagged(reported)).watch;
    assert w.sent == t.sys.watch.sent;
    assert TrackedNext(t, Lagged(reported)) == t.(sys := t.sys.(watch := w));
    StreamIgnoresWatch(t, w, t.attachAt);
    if Following(w) {
      RecoveredKeeps(t, reported);
    }
  }

  lemma StopKeeps(t: Tracked)
    requires ConvergenceInv(t)
    ensures ConvergenceInv(TrackedNext(t, Stop))
  {
    var w := t.sys.watch.(live := false);
    StepKeepsInv(t.sys, Stop);
    StreamIgnoresWatch(t, w, t.attachAt);
    assert TrackedNext(t, Stop) == t.(sys := t.sys.(watch := w));
  }

  lemma StepKeepsConvergence(t: Tracked, step: Step)
    requires ConvergenceInv(t) && Enabled(t.sys, step) && Disciplined(t, step)
    ensures ConvergenceInv(TrackedNext(t, step))
  {
    match step
    case Emit(group, baseline) => EmitKeeps(t, group, baseline);
    case TerminalFallback => FallbackKeeps(t);
    case Attach(how) => AttachKeeps(t, how);
    case Receive => ReceiveKeeps(t);
    case Lagged(reported) => LaggedKeeps(t, reported);
    case Forward => ForwardKeeps(t);
    case Stop => StopKeeps(t);
  }

  predicate PossibleRun(t: Tracked, run: seq<Step>)
    decreases |run|
  {
    run == [] || (Enabled(t.sys, run[0]) && Disciplined(t, run[0]) && PossibleRun(TrackedNext(t, run[0]), run[1..]))
  }

  function AfterRun(t: Tracked, run: seq<Step>): Tracked
    requires PossibleRun(t, run)
    decreases |run|
  {
    if run == [] then t else AfterRun(TrackedNext(t, run[0]), run[1..])
  }

  lemma {:induction false} RunKeepsConvergence(t: Tracked, run: seq<Step>)
    requires ConvergenceInv(t) && PossibleRun(t, run)
    ensures ConvergenceInv(AfterRun(t, run))
    decreases |run|
  {
    if run != [] {
      StepKeepsConvergence(t, run[0]);
      RunKeepsConvergence(TrackedNext(t, run[0]), run[1..]);
    }
  }

  function Begin(capacity: nat): Tracked {
    Tracked(Initial(capacity), 0, 0, {}, {})
  }

  /** In every disciplined run, a client that has caught up shows the foreground state of a client
      connected throughout: the one the projection recorded over everything it ever broadcast. */
  lemma ForegroundConverges(capacity: nat, run: seq<Step>)
    requires PossibleRun(Begin(capacity), run)
    requires var s := AfterRun(Begin(capacity), run).sys;
             && s.watch.live && s.watch.pending == [] && s.watch.pos == |s.log|
             && (forall g :: g in s.watch.sent && g.runId.Some? ==> g.sequence < MAX_SAFE_INTEGER)
    ensures var s := AfterRun(Begin(capacity), run).sys;
            s.watch.client == s.st.foreground == Throughout(Idle, s.log)
  {
    RunKeepsConvergence(Begin(capacity), run);
    ConvergedNow(AfterRun(Begin(capacity), run));
  }

  lemma ConvergedNow(t: Tracked)
    requires ConvergenceInv(t) && t.sys.watch.live && t.sys.watch.pending == [] && t.sys.watch.pos == |t.sys.log|
    requires forall g :: g in t.sys.watch.sent && g.runId.Some? ==> g.sequence < MAX_SAFE_INTEGER
    ensures t.sys.watch.client == t.sys.st.foreground == Throughout(Idle, t.sys.log)
  {
    assert !Exhausted(t.sys.watch);
    ConvergedView(t.sys.log, t.sys.watch, t.attachAt, t.sys.st.foreground);
  }

  lemma ConvergedView(log: seq<EventGroup>, w: Watch, attachAt: nat, foreground: Foreground)
    requires ClientInv(w, log, attachAt, foreground) && ForegroundInv(foreground, log)
    requires w.pending == [] && w.pos == |log| && attachAt <= |log|
    ensures w.client == foreground == Throughout(Idle, log)
  {
    ThroughoutIsLast(Idle, log);
    if !Quiet(log, attachAt) {
      var k := HasLastSetting(log, attachAt);
    }
    if !Quiet(log, 0) {
      var k := HasLastSetting(log, 0);
    }
  }

  /** The state of a client that receives every broadcast group. */
  function Throughout(state: Foreground, log: seq<EventGroup>): Foreground {
    if log == [] then state
    else ApplyUpdates(Throughout(state, log[..|log| - 1]), log[|log| - 1].updates)
  }

  lemma {:induction false} ThroughoutIsLast(state: Foreground, log: seq<EventGroup>)
    ensures Quiet(log, 0) ==> Throughout(state, log) == state
    ensures forall k :: LastSetting(log, k) ==> Throughout(state, log) == Sets(log[k]).value
  {
    if log != [] {
      var front, last := log[..|log| - 1], log[|log| - 1];
      ThroughoutIsLast(state, front);
      ApplyReported(Throughout(state, front), last.updates);
      assert forall i :: 0 <= i < |front| ==> front[i] == log[i];
      if Quiet(log, 0) {
        assert Quiet(front, 0) && Sets(log[|log| - 1]).None?;
      }
      forall k | LastSetting(log, k)
        ensures Throughout(state, log) == Sets(log[k]).value
      {
        if k < |front| {
          assert Quiet(front, k + 1);
          assert LastSetting(front, k);
          assert Sets(log[|log| - 1]).None?;
        }
      }
    }
  }

  // ---------------------------------------------------------------- a fallback at a caught-up watcher

  predicate CaughtUp(s: System) {
    s.watch.live && s.watch.pending == [] && s.watch.pos == |s.log|
  }

  /** A caught-up client ends in the fallback's Idle state exactly when it already showed Idle or its
      cursor has not moved past the fallback's sequence. */
  lemma FallbackConvergesExactly(s: System)
    requires CaughtUp(s) && s.capacity > 0 && Fallback(s.st).1.Some?
    ensures Enabled(Next(s, TerminalFallback), Receive)
    ensures Enabled(Next(Next(s, TerminalFallback), Receive), Forward)
    ensures var n := Next(Next(Next(s, TerminalFallback), Receive), Forward);
            && CaughtUp(n)
            && (n.watch.client == n.st.foreground <==>
                  s.watch.client == Idle || s.watch.next.None? || s.watch.next.value <= FallbackSequence(s.st))
  {
    var terminal := Fallback(s.st).1.value;
    FallbackSets(terminal.sequence);
    ApplyReported(s.st.foreground, terminal.updates);
    ApplyReported(s.watch.client, terminal.updates);
    var f := Next(s, TerminalFallback);
    assert f.log == s.log + [terminal] && f.log[s.watch.pos] == terminal;
    var r := Next(f, Receive);
    assert r.watch.pending == [terminal];
  }
}
