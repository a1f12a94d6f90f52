/** session/set_config_option answers racing one connection's watcher (crates/acp/src/server.rs,
    `SessionConfigUpdate::run`): settings changes, their broadcast updates, any number of handlers,
    and the lock that the send permit and the watcher share. */
module ConfigResponses {
  import opened Wrappers

  /** What enters the connection's outbound queue; a version counts settings changes. */
  datatype Item = Update(version: nat) | Answer(handler: nat, version: nat)

  datatype Phase = Applying | Waiting(barrier: nat) | Confirmed | Permitted | HasRead(version: nat) | Answered

  /** `events` are the broadcast settings updates; `confirmed` is the watcher's progress. */
  datatype Connection = Connection(
    settings: nat,
    unpublished: bool,
    events: seq<nat>,
    confirmed: nat,
    holder: Option<nat>,
    handlers: map<nat, Phase>,
    queue: seq<Item>)

  datatype Step =
    | Replace                    // a change becomes the current settings
    | Publish                    // and its update is broadcast before the next change
    | QueueUpdate(index: nat)    // the watcher queues one broadcast update it had not passed yet
    | Skip(index: nat)           // it lagged, and a later event of another kind moved its progress past updates
    | Begin(handler: nat)
    | ReadBarrier(handler: nat)
    | WaitDone(handler: nat)
    | TakePermit(handler: nat)
    | ReadSettings(handler: nat)
    | Respond(handler: nat)

  const INITIAL := Connection(0, false, [], 0, None, map[], [])

  predicate At(c: Connection, handler: nat, phase: Phase) {
    handler in c.handlers && c.handlers[handler] == phase
  }

  predicate Enabled(c: Connection, step: Step) {
    match step
    case Replace => !c.unpublished
    case Publish => c.unpublished
    case QueueUpdate(index) => c.confirmed <= index < |c.events| && c.holder.None?
    case Skip(index) => c.confirmed < index <= |c.events| && c.holder.None?
    case Begin(h) => h !in c.handlers
    case ReadBarrier(h) => At(c, h, Applying)
    case WaitDone(h) => h in c.handlers && c.handlers[h].Waiting? && c.confirmed >= c.handlers[h].barrier
    case TakePermit(h) => At(c, h, Confirmed) && c.holder.None?
    case ReadSettings(h) => At(c, h, Permitted)
    case Respond(h) => h in c.handlers && c.handlers[h].HasRead?
  }

  function Enter(c: Connection, handler: nat, phase: Phase): Connection {
    c.(handlers := c.handlers[handler := phase])
  }

  function Next(c: Connection, step: Step): Connection
    requires Enabled(c, step)
  {
    match step
    case Replace => c.(settings := c.settings + 1, unpublished := true)
    case Publish => c.(events := c.events + [c.settings], unpublished := false)
    case QueueUpdate(index) =>
      c.(queue := c.queue + [Update(c.events[index])], confirmed := index + 1)
    case Skip(index) => c.(confirmed := index)
    case Begin(h) => Enter(c, h, Applying)
    case ReadBarrier(h) => Enter(c, h, Waiting(|c.events|))
    case WaitDone(h) => Enter(c, h, Confirmed)
    case TakePermit(h) => Enter(c, h, Permitted).(holder := Some(h))
    case ReadSettings(h) => Enter(c, h, HasRead(c.settings))
    case Respond(h) =>
      Enter(c, h, Answered).(queue := c.queue + [Answer(h, c.handlers[h].version)], holder := None)
  }

  predicate Possible(c: Connection, run: seq<Step>)
    decreases |run|
  {
    run == [] || (Enabled(c, run[0]) && Possible(Next(c, run[0]), run[1..]))
  }

  function After(c: Connection, run: seq<Step>): Connection
    requires Possible(c, run)
    decreases |run|
  {
    if run == [] then c else After(Next(c, run[0]), run[1..])
  }

  // ---------------------------------------------------------------- the invariant

  /** A handler between taking the permit and answering holds it alone. */
  predicate Exclusive(c: Connection) {
    forall h :: h in c.handlers && (c.handlers[h].Permitted? || c.handlers[h].HasRead?) ==> c.holder == Some(h)
  }

  /** No answer is older than an item queued before it. */
  ghost predicate AnswersCurrent(queue: seq<Item>) {
    forall i, k :: 0 <= i < k < |queue| && queue[k].Answer? ==> queue[i].version <= queue[k].version
  }

  ghost predicate Inv(c: Connection) {
    && Exclusive(c)
    && (forall i :: 0 <= i < |c.events| ==> c.events[i] <= c.settings)
    && (forall i, k :: 0 <= i < k < |c.events| ==> c.events[i] < c.events[k])
    && (c.unpublished ==> forall i :: 0 <= i < |c.events| ==> c.events[i] < c.settings)
    && (forall i :: 0 <= i < |c.queue| ==> c.queue[i].version <= c.settings)
    && (forall h, i :: h in c.handlers && c.handlers[h].HasRead? && 0 <= i < |c.queue|
                       ==> c.queue[i].version <= c.handlers[h].version)
    && (forall h :: h in c.handlers && c.handlers[h].HasRead? ==> c.handlers[h].version <= c.settings)
    && AnswersCurrent(c.queue)
  }

  lemma RespondKeepsInv(c: Connection, h: nat)
    requires Inv(c) && Enabled(c, Respond(h))
    ensures Inv(Next(c, Respond(h)))
  {
    assert Next(c, Respond(h)).queue == c.queue + [Answer(h, c.handlers[h].version)];
  }

  lemma QueueUpdateKeepsInv(c: Connection, index: nat)
    requires Inv(c) && Enabled(c, QueueUpdate(index))
    ensures Inv(Next(c, QueueUpdate(index)))
  {
    assert Next(c, QueueUpdate(index)).queue == c.queue + [Update(c.events[index])];
  }

  lemma ChangeKeepsInv(c: Connection, step: Step)
    requires Inv(c) && Enabled(c, step) && (step.Replace? || step.Publish?)
    ensures Inv(Next(c, step))
  {
  }

  lemma HandlerKeepsInv(c: Connection, handler: nat, phase: Phase, holder: Option<nat>)
    requires Inv(c) && (phase.Permitted? || phase.HasRead? ==> holder == Some(handler))
    requires holder == c.holder || (c.holder.None? && holder == Some(handler))
    requires phase.HasRead? ==> phase.version == c.settings
    ensures Inv(Enter(c, handler, phase).(holder := holder))
  {
  }

  lemma StepKeepsInv(c: Connection, step: Step)
    requires Inv(c) && Enabled(c, step)
    ensures Inv(Next(c, step))
  {
    match step
    case Respond(h) => RespondKeepsInv(c, h);
    case QueueUpdate(index) => QueueUpdateKeepsInv(c, index);
    case Skip(_) =>
    case Replace => ChangeKeepsInv(c, step);
    case Publish => ChangeKeepsInv(c, step);
    case Begin(h) => HandlerKeepsInv(c, h, Applying, c.holder);
    case ReadBarrier(h) => HandlerKeepsInv(c, h, Waiting(|c.events|), c.holder);
    case WaitDone(h) => HandlerKeepsInv(c, h, Confirmed, c.holder);
    case TakePermit(h) => HandlerKeepsInv(c, h, Permitted, Some(h));
    case ReadSettings(h) => HandlerKeepsInv(c, h, HasRead(c.settings), c.holder);
  }

  lemma {:induction false} RunKeepsInv(c: Connection, run: seq<Step>)
    requires Inv(c) && Possible(c, run)
    ensures Inv(After(c, run))
    decreases |run|
  {
    if run != [] {
      StepKeepsInv(c, run[0]);
      RunKeepsInv(Next(c, run[0]), run[1..]);
    }
  }

  predicate Reaches(run: seq<Step>, c: Connection) {
    Possible(INITIAL, run) && After(INITIAL, run) == c
  }

  ghost predicate Reachable(c: Connection) {
    exists run :: Reaches(run, c)
  }

  lemma {:induction false} RunSnoc(c: Connection, run: seq<Step>, step: Step)
    requires Possible(c, run) && Enabled(After(c, run), step)
    ensures Possible(c, run + [step]) && After(c, run + [step]) == Next(After(c, run), step)
    decreases |run|
  {
    if run == [] {
      assert [step][1..] == [];
    } else {
      assert (run + [step])[1..] == run[1..] + [step];
      RunSnoc(Next(c, run[0]), run[1..], step);
    }
  }

  lemma Take(c: Connection, step: Step) returns (n: Connection)
    requires Reachable(c) && Enabled(c, step)
    ensures n == Next(c, step) && Reachable(n)
  {
    n := Next(c, step);
    var run :| Reaches(run, c);
    RunSnoc(INITIAL, run, step);
    assert Reaches(run + [step], n);
  }

  /** In every run, with any number of handlers, an answer carries settings at least as new as every
      update and every answer already queued on its connection. */
  lemma AnswerNoOlderThanQueued(c: Connection, i: nat, k: nat)
    requires Reachable(c)
    requires i < k < |c.queue| && c.queue[k].Answer?
    ensures c.queue[i].version <= c.queue[k].version
  {
    var run :| Reaches(run, c);
    RunKeepsInv(INITIAL, run);
  }

  /** While a handler holds the permit nothing but its own answer enters the queue. */
  lemma PermitFreezesQueue(c: Connection, step: Step, handler: nat)
    requires Reachable(c) && Enabled(c, step) && c.holder == Some(handler)
    requires step != Respond(handler)
    ensures Next(c, step).queue == c.queue
  {
    var run :| Reaches(run, c);
    RunKeepsInv(INITIAL, run);
  }

  /** A handler whose own change added no update is done waiting; of two changes since, one was broadcast. */
  lemma ChangedTwice() returns (c: Connection)
    ensures Reachable(c) && c == Connection(2, true, [1], 0, None, map[0 := Confirmed], [])
  {
    assert Reaches([], INITIAL);
    c := Take(INITIAL, Begin(0));
    c := Take(c, ReadBarrier(0));
    c := Take(c, WaitDone(0));
    c := Take(c, Replace);
    c := Take(c, Publish);
    c := Take(c, Replace);
  }

  /** The guarantee stops there: an older update that was broadcast but not queued when the answer
      was built can still follow it. */
  lemma OlderUpdateMayFollow()
    ensures exists c :: Reachable(c) && c.queue == [Answer(0, 2), Update(1)]
  {
    var c := ChangedTwice();
    c := Take(c, TakePermit(0));
    c := Take(c, ReadSettings(0));
    c := Take(c, Respond(0));
    c := Take(c, QueueUpdate(0));
    assert c.queue == [Answer(0, 2), Update(1)];
  }

  /** Updates broadcast after an answer was built are at least as new as it. */
  lemma LaterUpdatesAreNewer(c: Connection, handler: nat, later: seq<Step>)
    requires Reachable(c) && Enabled(c, Respond(handler)) && Possible(c, [Respond(handler)] + later)
    ensures var n := After(c, [Respond(handler)] + later);
            && c.events <= n.events
            && forall i :: |c.events| <= i < |n.events| ==> n.events[i] >= c.handlers[handler].version
  {
    var run :| Reaches(run, c);
    RunKeepsInv(INITIAL, run);
    assert ([Respond(handler)] + later)[1..] == later;
    EventsGrow(Next(c, Respond(handler)), later);
  }

  lemma {:induction false} EventsGrow(c: Connection, run: seq<Step>)
    requires Possible(c, run)
    ensures c.settings <= After(c, run).settings
    ensures c.events <= After(c, run).events
    ensures forall i :: |c.events| <= i < |After(c, run).events| ==> After(c, run).events[i] >= c.settings
    decreases |run|
  {
    if run != [] {
      EventsGrow(Next(c, run[0]), run[1..]);
    }
  }

  // ---------------------------------------------------------------- what follows an answer

  /** An answer, or a broadcast update the watcher had not passed. */
  ghost predicate NotPassed(item: Item, confirmed: nat, events: seq<nat>) {
    item.Answer? || exists i :: confirmed <= i < |events| && item == Update(events[i])
  }

  lemma {:induction false} QueueGrows(c: Connection, run: seq<Step>)
    requires Possible(c, run)
    ensures var n := After(c, run);
            && c.queue <= n.queue
            && forall j :: |c.queue| <= j < |n.queue| ==> NotPassed(n.queue[j], c.confirmed, n.events)
    decreases |run|
  {
    if run != [] {
      var m, n := Next(c, run[0]), After(c, run);
      QueueGrows(m, run[1..]);
      EventsGrow(m, run[1..]);
      if run[0].QueueUpdate? {
        assert n.queue[|c.queue|] == m.queue[|c.queue|] == Update(n.events[run[0].index]);
      } else if run[0].Respond? {
        assert n.queue[|c.queue|] == m.queue[|c.queue|];
      }
    }
  }

  /** `later` puts an item behind the answer of `handler` that is older than it. */
  predicate OlderFollows(c: Connection, handler: nat, later: seq<Step>)
    requires Enabled(c, Respond(handler))
  {
    && Possible(c, [Respond(handler)] + later)
    && exists j :: |c.queue| < j < |After(c, [Respond(handler)] + later).queue|
                   && After(c, [Respond(handler)] + later).queue[j].version < c.handlers[handler].version
  }

  lemma OlderWasBroadcast(c: Connection, handler: nat, later: seq<Step>)
    requires Reachable(c) && Enabled(c, Respond(handler)) && OlderFollows(c, handler, later)
    ensures exists i :: c.confirmed <= i < |c.events| && c.events[i] < c.handlers[handler].version
  {
    var run :| Reaches(run, c);
    RunKeepsInv(INITIAL, run);
    var steps := [Respond(handler)] + later;
    var n, version := After(c, steps), c.handlers[handler].version;
    RunKeepsInv(c, steps);
    QueueGrows(c, steps);
    LaterUpdatesAreNewer(c, handler, later);
    assert steps[1..] == later;
    QueueGrows(Next(c, Respond(handler)), later);
    var j :| |c.queue| < j < |n.queue| && n.queue[j].version < version;
    assert n.queue[|c.queue|] == Answer(handler, version);
    assert n.queue[j].Update?;
    var i :| c.confirmed <= i < |n.events| && n.queue[j] == Update(n.events[i]);
    assert i < |c.events| && c.events[i] == n.events[i];
  }

  /** An older item can follow an answer exactly when, at the moment it is sent, an older update was
      broadcast that the watcher has not passed yet. */
  lemma OlderFollowsExactly(c: Connection, handler: nat)
    requires Reachable(c) && Enabled(c, Respond(handler))
    ensures (exists later :: OlderFollows(c, handler, later)) <==>
            (exists i :: c.confirmed <= i < |c.events| && c.events[i] < c.handlers[handler].version)
  {
    if later :| OlderFollows(c, handler, later) {
      OlderWasBroadcast(c, handler, later);
    }
    if i: nat :| c.confirmed <= i < |c.events| && c.events[i] < c.handlers[handler].version {
      QueuedNext(c, handler, i);
    }
  }

  lemma QueuedNext(c: Connection, handler: nat, i: nat)
    requires Reachable(c) && Enabled(c, Respond(handler))
    requires c.confirmed <= i < |c.events| && c.events[i] < c.handlers[handler].version
    ensures OlderFollows(c, handler, [QueueUpdate(i)])
  {
    var steps := [Respond(handler)] + [QueueUpdate(i)];
    var m := Next(c, Respond(handler));
    var n := Next(m, QueueUpdate(i));
    assert steps[1..] == [QueueUpdate(i)] && [QueueUpdate(i)][1..] == [];
    assert Possible(n, []) && After(n, []) == n;
    assert Possible(m, [QueueUpdate(i)]) && After(m, [QueueUpdate(i)]) == n;
    assert Possible(c, steps) && After(c, steps) == n;
    assert n.queue[|c.queue| + 1] == Update(c.events[i]);
  }

  // ---------------------------------------------------------------- what precedes an answer

  /** A handler still waits for a barrier, or the watcher has passed it. */
  ghost predicate Passed(c: Connection, handler: nat, barrier: nat) {
    handler in c.handlers &&
    match c.handlers[handler]
    case Applying => false
    case Waiting(b) => b == barrier
    case _ => c.confirmed >= barrier
  }

  lemma StepKeepsPassed(c: Connection, step: Step, handler: nat, barrier: nat)
    requires Enabled(c, step) && Passed(c, handler, barrier)
    ensures Passed(Next(c, step), handler, barrier)
  {
  }

  lemma {:induction false} RunKeepsPassed(c: Connection, run: seq<Step>, handler: nat, barrier: nat)
    requires Possible(c, run) && Passed(c, handler, barrier)
    ensures Passed(After(c, run), handler, barrier)
    decreases |run|
  {
    if run != [] {
      StepKeepsPassed(c, run[0], handler, barrier);
      RunKeepsPassed(Next(c, run[0]), run[1..], handler, barrier);
    }
  }

  /** An answer waits for every update that was broadcast when its handler, having applied its own change,
      read the barrier: when it is sent the watcher has passed them all. */
  lemma AnswerWaitsForItsChange(c: Connection, handler: nat, run: seq<Step>)
    requires Enabled(c, ReadBarrier(handler)) && Possible(Next(c, ReadBarrier(handler)), run)
    requires Enabled(After(Next(c, ReadBarrier(handler)), run), Respond(handler))
    ensures After(Next(c, ReadBarrier(handler)), run).confirmed >= |c.events|
  {
    RunKeepsPassed(Next(c, ReadBarrier(handler)), run, handler, |c.events|);
  }
}
