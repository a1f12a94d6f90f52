/** The mutable watcher of crates/acp/src/server.rs and the delivery progress of
    crates/acp/src/delivery.rs, proved against the step functions of the protocol. */
module ConnectionWatcher {
  import opened Wrappers
  import opened Projection
  import opened WatchProtocol
  import opened WatchGuarantees
  import opened Convergence

  /** The notifications replayed history produces, group by group. */
  function ReplayedAll(groups: seq<EventGroup>): seq<EventGroup> {
    if groups == [] then []
    else
      ReplayedAll(groups[..|groups| - 1]) +
      (match Replayed(groups[|groups| - 1]) case Some(group) => [group] case None => [])
  }

  /** Replay never reports a past state as current activity. */
  lemma {:induction false} ReplayReportsNoState(groups: seq<EventGroup>)
    ensures forall g :: g in ReplayedAll(groups) ==> Sets(g).None? && g.elicitation.None? && g.planApproval.None?
    ensures forall g :: g in ReplayedAll(groups) ==> g.updates != []
  {
    if groups != [] {
      ReplayReportsNoState(groups[..|groups| - 1]);
      ReplayCarriesNoState(groups[|groups| - 1].updates);
    }
  }

  /** Replay keeps the order of what it keeps: it can be cut anywhere, and of one update it keeps all but a
      state or a notice. */
  lemma {:induction false} ReplayKeepsOrder(a: seq<Update>, b: seq<Update>, u: Update)
    ensures ReplayedUpdates(a + b) == ReplayedUpdates(a) + ReplayedUpdates(b)
    ensures ReplayedUpdates([u]) == if u.StateUpdate? || u.Notice? then [] else [u]
  {
    assert [u][..0] == [];
    if b == [] {
      assert a + b == a;
    } else {
      assert (a + b)[..|a + b| - 1] == a + b[..|b| - 1];
      ReplayKeepsOrder(a, b[..|b| - 1], u);
    }
  }

  class ProjectionWatch {
    var runId: Option<RunId>
    var nextSequence: Option<Sequence>
    var position: nat
    var groups: seq<EventGroup>
    var progress: Option<Sequence>
    var running: bool
    /** The connection's outbound queue, as the groups whose notifications entered it. */
    var outbox: seq<EventGroup>
    var sent: seq<EventGroup>
    var client: Foreground
    const origin: nat

    function View(): Watch
      reads this
    {
      Watch(runId, nextSequence, position, groups, progress, running, sent, client, origin)
    }

    /** A live watcher (`From<LiveFeed>`), whose progress starts at the subscription boundary. */
    constructor Live(s: System)
      ensures Some(View()) == AttachStep(s, AtLive)
      ensures outbox == []
    {
      runId, nextSequence, position, groups := None, None, |s.log|, [];
      progress, running, outbox, sent, client := s.st.lastSequence, true, [], [], s.st.foreground;
      origin := s.kernel + 1;
    }

    /** A recovery watcher (`From<ProjectionFeed>`): the backlog is replayed as history. */
    constructor Recovering(s: System, feed: Feed)
      ensures View() == Attached(s, feed)
      ensures outbox == ReplayedAll(feed.backlog)
    {
      runId, nextSequence, position, groups := Some(feed.runId), Some(feed.nextSequence), |s.log|, [];
      progress, running, outbox, sent, client := feed.delivered, true, [], [], feed.state;
      origin := feed.nextSequence;
      new;
      ghost var start := View();
      for i := 0 to |feed.backlog|
        invariant View() == RecordBacklog(start, feed.backlog[..i])
        invariant outbox == ReplayedAll(feed.backlog[..i])
      {
        assert feed.backlog[..i + 1][..i] == feed.backlog[..i];
        match Replayed(feed.backlog[i]) {
          case Some(group) => outbox := outbox + [group];
          case None =>
        }
        RecordSentOf(feed.backlog[i]);
        sent := sent + [feed.backlog[i]];
      }
      assert feed.backlog[..|feed.backlog|] == feed.backlog;
    }

    method RecordSentOf(group: EventGroup)
      modifies this`runId, this`nextSequence
      ensures View() == RecordSent(old(View()), group)
    {
      if group.runId.None? {
        return;
      }
      runId := group.runId;
      nextSequence := SequenceOf(group.sequence + 1);
    }

    /** `sent_through`: progress only ever grows. */
    method SentThrough(sequence: Sequence)
      modifies this`progress
      ensures progress == Later(old(progress), sequence)
      ensures progress.Some? && progress.value >= sequence
      ensures old(progress).Some? ==> progress.value >= old(progress).value
    {
      if progress.Some? && progress.value >= sequence {
        return;
      }
      progress := Some(sequence);
    }

    /** A `recv` that yields the next group. */
    method ReceiveLive(log: seq<EventGroup>)
      requires position <= |log|
      modifies this`position, this`groups
      ensures View() == ReceiveStep(old(View()), log)
    {
      if position < |log| {
        groups := [log[position]];
        position := position + 1;
      }
    }

    /** A `recv` that reported lag: a recovered backlog from the journal of a later moment, or the end of
        the watcher. */
    method RecoverLagged(st: State, reported: nat)
      modifies this`position, this`groups, this`running
      ensures View() == LaggedStep(old(View()), st, reported)
    {
      position := reported;
      if runId.None? || nextSequence.None? {
        running := false;
        return;
      }
      match SnapshotFrom(st, runId.value, nextSequence.value) {
        case Ok(recovered) => groups := recovered;
        case Err(_) => running := false;
      }
    }

    /** One received group: a duplicate is skipped, anything else is queued before the cursor and the
        progress follow it. */
    method ForwardNext()
      requires groups != []
      modifies this`runId, this`nextSequence, this`groups, this`progress, this`outbox, this`sent, this`client
      ensures View() == ForwardStep(old(View()))
      ensures exists more :: sent == old(sent) + more && outbox == old(outbox) + more
    {
      var group := groups[0];
      groups := groups[1..];
      if nextSequence.Some? && group.sequence < nextSequence.value {
        assert sent == old(sent) + [] && outbox == old(outbox) + [];
        return;
      }
      outbox := outbox + [group];
      sent := sent + [group];
      client := ApplyUpdates(client, group.updates);
      RecordSentOf(group);
      SentThrough(group.sequence);
      assert sent == old(sent) + [group];
    }

    /** The loop over received groups: duplicates are skipped, the rest is queued in order, and the
        cursor and the progress follow every group. */
    method ForwardGroups()
      modifies this`runId, this`nextSequence, this`groups, this`progress, this`outbox, this`sent, this`client
      ensures View() == Drained(old(View()))
      ensures old(sent) <= sent && outbox == old(outbox) + sent[|old(sent)|..]
    {
      while groups != []
        invariant Drained(View()) == Drained(old(View()))
        invariant old(sent) <= sent && outbox == old(outbox) + sent[|old(sent)|..]
        decreases |groups|
      {
        ForwardNext();
      }
    }
  }
}
