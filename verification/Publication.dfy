/** Concurrent publication of the aggregate MCP catalog, crates/mcp/src/session.rs: one watcher per
    server and a shutdown publish under the revision mutex while servers replace their own views. */
module Publication {
  import opened Wrappers
  import opened Aggregate

  const U64_MAX: nat := 0xFFFF_FFFF_FFFF_FFFF

  datatype Publisher = Bootstrap | Watcher(server: nat) | Shutdown

  /** The servers of one session and every view each of them will ever hold, in order. */
  datatype World = World(ids: seq<ServerId>, view: (nat, nat) -> View)

  /** A server's current view and its watcher: `unsent` views were stored but not announced yet, `base`
      is the view current when the watcher subscribed, `queue` holds the announcements it can receive. */
  datatype Server = Server(version: nat, unsent: nat, subscribed: bool, base: nat, queue: nat, waiting: bool, exited: bool)

  /** A stored snapshot, the version of each server it read, and the version each server contributes. */
  datatype Published = Published(publisher: Publisher, snapshot: Snapshot, read: seq<nat>, contributed: seq<int>)

  datatype Event = Event(revision: nat, publisher: Publisher)

  datatype State = State(
    servers: seq<Server>,
    revision: nat,
    holder: Option<Publisher>,   // who owns the revision mutex
    reading: seq<nat>,           // the views the owner has loaded so far
    stored: bool,                // the owner has stored its snapshot
    log: seq<Published>,
    events: seq<Event>,
    cancelled: bool,
    closing: bool)

  datatype Step =
    | Change(server: nat)
    | Announce(server: nat)
    | Overflow(server: nat, kept: nat)
    | Subscribe(server: nat)
    | Receive(server: nat)
    | Acquire(publisher: Publisher)
    | Read
    | Store
    | Notify
    | Cancel
    | Exit(server: nat)
    | Close

  function Saturating(n: nat): nat { if n < U64_MAX then n else U64_MAX }

  ghost predicate Sane(w: World) {
    && (forall i, k :: 0 <= i < k < |w.ids| ==> w.ids[i] != w.ids[k])
    && (forall v: nat, k: nat :: v < |w.ids| ==> w.view(v, k).status.serverId == w.ids[v] && WellFormed(w.view(v, k)))
  }

  function Views(w: World, read: seq<nat>): (views: seq<View>) {
    seq(|read|, v requires 0 <= v < |read| => w.view(v, read[v]))
  }

  function StoredSnapshot(log: seq<Published>): Option<Snapshot> {
    if log == [] then None else Some(log[|log| - 1].snapshot)
  }

  function Contributions(w: World, log: seq<Published>): seq<int> {
    if log == [] then seq(|w.ids|, _ => -1) else log[|log| - 1].contributed
  }

  // ---------------------------------------------------------------- transitions

  ghost predicate Enabled(w: World, s: State, step: Step) {
    match step
    case Change(v) => v < |s.servers|
    case Announce(v) => v < |s.servers| && s.servers[v].unsent > 0
    case Overflow(v, kept) => v < |s.servers| && 1 <= kept <= s.servers[v].queue
    case Subscribe(v) => v < |s.servers| && s.log != [] && !s.servers[v].subscribed
    case Receive(v) => v < |s.servers| && s.servers[v].queue > 0 && !s.servers[v].waiting && !s.servers[v].exited
                       && s.holder != Some(Watcher(v))
    case Acquire(Bootstrap) => false
    case Acquire(Watcher(v)) => s.holder == None && v < |s.servers| && s.servers[v].waiting
    case Acquire(Shutdown) => s.holder == None && s.closing
                              && (forall v :: 0 <= v < |s.servers| ==> s.servers[v].exited)
                              && (forall i :: 0 <= i < |s.log| ==> s.log[i].publisher != Shutdown)
    case Read => s.holder.Some? && !s.stored && |s.reading| < |s.servers|
    case Store => s.holder.Some? && !s.stored && |s.reading| == |s.servers| && Sane(w) && Publishable(w, s)
    case Notify => s.holder.Some? && s.stored
    case Cancel => true
    case Exit(v) => v < |s.servers| && s.cancelled && !s.servers[v].waiting && s.holder != Some(Watcher(v))
    case Close => forall v :: 0 <= v < |s.servers| ==> s.servers[v].subscribed
  }

  /** What `aggregate` needs to store a snapshot; every reachable state meets it. */
  ghost predicate Publishable(w: World, s: State) {
    && WellFormedViews(Views(w, s.reading))
    && Distinct(Previous(StoredSnapshot(s.log)).tools)
    && |Contributions(w, s.log)| == |s.reading|
  }

  /** The version each server contributes: the one just read, or its earlier one when rejected. */
  ghost function NextContributions(w: World, s: State): seq<int>
    requires Publishable(w, s)
  {
    var views := Views(w, s.reading);
    var rejected := Rejections(views, StoredSnapshot(s.log), {});
    seq(|s.reading|, v requires 0 <= v < |s.reading| =>
      if views[v].status.serverId in rejected then Contributions(w, s.log)[v] else s.reading[v])
  }

  /** A watcher that owns the mutex no longer waits for it. */
  function Called(servers: seq<Server>, publisher: Publisher): (r: seq<Server>)
    ensures |r| == |servers|
    ensures forall v :: 0 <= v < |servers| ==> r[v] == servers[v].(waiting := r[v].waiting)
    ensures forall v :: 0 <= v < |servers| && r[v].waiting ==> servers[v].waiting
  {
    if publisher.Watcher? && publisher.server < |servers|
    then servers[publisher.server := servers[publisher.server].(waiting := false)] else servers
  }

  ghost function Stored(w: World, s: State): Published
    requires s.holder.Some? && Publishable(w, s)
  {
    Published(s.holder.value, Aggregated(s.revision, Views(w, s.reading), StoredSnapshot(s.log)),
              s.reading, NextContributions(w, s))
  }

  ghost function Next(w: World, s: State, step: Step): State
    requires Enabled(w, s, step)
  {
    match step
    case Change(v) => s.(servers := s.servers[v := s.servers[v].(version := s.servers[v].version + 1, unsent := s.servers[v].unsent + 1)])
    case Announce(v) =>
      var server := s.servers[v];
      s.(servers := s.servers[v := server.(unsent := server.unsent - 1,
                                           queue := if server.subscribed then server.queue + 1 else server.queue)])
    case Overflow(v, kept) => s.(servers := s.servers[v := s.servers[v].(queue := kept)])
    case Subscribe(v) => s.(servers := s.servers[v := s.servers[v].(subscribed := true, base := s.servers[v].version)])
    case Receive(v) => s.(servers := s.servers[v := s.servers[v].(queue := s.servers[v].queue - 1, waiting := true)])
    case Acquire(publisher) =>
      s.(servers := Called(s.servers, publisher), holder := Some(publisher), reading := [], stored := false, revision := Saturating(s.revision + 1))
    case Read => s.(reading := s.reading + [s.servers[|s.reading|].version])
    case Store =>
      if s.holder.value == Bootstrap
      then s.(log := s.log + [Stored(w, s)], holder := None)
      else s.(log := s.log + [Stored(w, s)], stored := true)
    case Notify => s.(events := s.events + [Event(s.revision, s.holder.value)], holder := None, stored := false)
    case Cancel => s.(cancelled := true)
    case Exit(v) => s.(servers := s.servers[v := s.servers[v].(exited := true)])
    case Close => s.(cancelled := true, closing := true)
  }

  ghost predicate Init(w: World, s: State) {
    && |s.servers| == |w.ids|
    && (forall v :: 0 <= v < |s.servers| ==> !s.servers[v].subscribed && s.servers[v].queue == 0
                                             && !s.servers[v].waiting && !s.servers[v].exited && s.servers[v].base == 0)
    && s.revision == 1 && s.holder == Some(Bootstrap) && s.reading == [] && !s.stored
    && s.log == [] && s.events == [] && !s.cancelled && !s.closing
  }

  // ---------------------------------------------------------------- invariants

  ghost predicate Counted(log: seq<Published>, events: seq<Event>, holder: Option<Publisher>, stored: bool, revision: nat) {
    && (log == [] <==> holder == Some(Bootstrap))
    && (stored ==> holder.Some? && log != [] && log[|log| - 1].publisher == holder.value)
    && revision == Saturating(|log| + if holder.Some? && !stored then 1 else 0)
    && (forall i :: 0 <= i < |log| ==> log[i].snapshot.revision == Saturating(i + 1))
    && |events| == (if log == [] then 0 else if stored then |log| - 2 else |log| - 1)
    && (forall i :: 0 <= i < |events| && i + 1 < |log| ==> Announces(events[i], log[i + 1]))
  }

  predicate Announces(event: Event, published: Published) {
    event == Event(published.snapshot.revision, published.publisher)
  }

  ghost predicate Contributing(w: World, published: Published) {
    && |published.contributed| == |w.ids| == |published.read|
    && Distinct(published.snapshot.catalog.tools)
    && (forall v :: 0 <= v < |w.ids| ==> -1 <= published.contributed[v] <= published.read[v])
    && (forall v :: 0 <= v < |w.ids| ==>
          Own(published.snapshot.catalog.tools, w.ids[v]) == ToolsAt(w, v, published.contributed[v]))
  }

  /** The tools a server had at a version; none before its first contribution. */
  ghost function ToolsAt(w: World, v: nat, version: int): seq<Item> {
    if version < 0 then [] else w.view(v, version).catalog.tools
  }

  ghost predicate NoOlder(earlier: Published, later: Published) {
    && |earlier.contributed| == |later.contributed| && |earlier.read| == |later.read|
    && (forall v :: 0 <= v < |earlier.contributed| ==> earlier.contributed[v] <= later.contributed[v])
    && (forall v :: 0 <= v < |earlier.read| ==> earlier.read[v] <= later.read[v])
  }

  ghost predicate Ordered(w: World, log: seq<Published>) {
    && (forall i :: 0 <= i < |log| ==> Contributing(w, log[i]))
    && (forall i, k :: 0 <= i <= k < |log| ==> NoOlder(log[i], log[k]))
  }

  function LastRead(log: seq<Published>): seq<nat> {
    if log == [] then [] else log[|log| - 1].read
  }

  ghost predicate AtMostCurrent(read: seq<nat>, servers: seq<Server>) {
    |read| <= |servers| && forall v :: 0 <= v < |read| ==> read[v] <= servers[v].version
  }

  ghost predicate AtMost(earlier: seq<nat>, later: seq<nat>) {
    forall v :: 0 <= v < |earlier| && v < |later| ==> earlier[v] <= later[v]
  }

  /** The latest publication against the servers and the views loaded since. */
  ghost predicate Reads(w: World, servers: seq<Server>, reading: seq<nat>, log: seq<Published>, holder: Option<Publisher>) {
    && |servers| == |w.ids| && (log != [] ==> |LastRead(log)| == |w.ids|)
    && AtMostCurrent(reading, servers)
    && AtMostCurrent(LastRead(log), servers)
    && (holder.Some? ==> AtMost(LastRead(log), reading))
  }

  /** Why one server's newest view may be missing from the latest publication. */
  ghost predicate Accounted(server: Server, read: nat, owned: bool, reading: seq<nat>, v: nat) {
    || server.version == read
    || server.unsent > 0 || server.queue > 0 || server.waiting
    || (owned && (|reading| <= v || reading[v] == server.version))
    || !server.subscribed || server.version <= server.base
  }

  ghost predicate Fresh(servers: seq<Server>, read: seq<nat>, owned: bool, reading: seq<nat>) {
    && (forall v :: 0 <= v < |servers| ==> servers[v].base <= servers[v].version)
    && (read == [] ==> forall v :: 0 <= v < |servers| ==> !servers[v].subscribed)
    && (forall v :: 0 <= v < |servers| && v < |read| ==> Accounted(servers[v], read[v], owned, reading, v))
  }

  ghost predicate AllExited(servers: seq<Server>) {
    forall v :: 0 <= v < |servers| ==> servers[v].exited
  }

  ghost predicate NoShutdown(log: seq<Published>) {
    forall i :: 0 <= i < |log| ==> log[i].publisher != Shutdown
  }

  ghost predicate ShutdownLast(servers: seq<Server>, holder: Option<Publisher>, stored: bool, log: seq<Published>) {
    && (forall v :: 0 <= v < |servers| && servers[v].exited ==> !servers[v].waiting && holder != Some(Watcher(v)))
    && (holder.Some? && holder.value.Watcher? ==> holder.value.server < |servers|)
    && (holder == Some(Shutdown) ==> AllExited(servers) && (stored || NoShutdown(log)))
    && (NoShutdown(log) || (NoShutdown(log[..|log| - 1]) && AllExited(servers)
                            && (holder.Some? ==> stored && holder == Some(Shutdown))))
  }

  ghost predicate Inv(w: World, s: State) {
    && Counted(s.log, s.events, s.holder, s.stored, s.revision)
    && Ordered(w, s.log)
    && Reads(w, s.servers, s.reading, s.log, s.holder)
    && Fresh(s.servers, LastRead(s.log), s.holder.Some? && !s.stored, s.reading)
    && ShutdownLast(s.servers, s.holder, s.stored, s.log)
  }

  lemma InitKeepsInv(w: World, s: State)
    requires Init(w, s)
    ensures Inv(w, s)
  {
  }

  // ---------------------------------------------------------------- steps of the servers

  /** What one step may do to a server outside a publication. */
  ghost predicate ServerStep(before: Server, after: Server, held: bool) {
    || after == before
    || after == before.(version := before.version + 1, unsent := before.unsent + 1)
    || (before.unsent > 0 && after == before.(unsent := before.unsent - 1, queue := if before.subscribed then before.queue + 1 else before.queue))
    || (after.queue > 0 && after == before.(queue := after.queue))
    || after == before.(subscribed := true, base := before.version)
    || (before.queue > 0 && !before.exited && after == before.(queue := before.queue - 1, waiting := true))
    || (!before.waiting && !held && after == before.(exited := true))
  }

  predicate Publishes(step: Step) {
    step.Acquire? || step.Read? || step.Store? || step.Notify?
  }

  ghost predicate ServersStep(servers: seq<Server>, after: seq<Server>, holder: Option<Publisher>) {
    |after| == |servers|
    && forall v :: 0 <= v < |servers| ==> ServerStep(servers[v], after[v], holder == Some(Watcher(v)))
  }

  lemma QuietShape(w: World, s: State, step: Step)
    requires Enabled(w, s, step) && !Publishes(step)
    ensures var n := Next(w, s, step);
            n == s.(servers := n.servers, cancelled := n.cancelled, closing := n.closing) && |n.servers| == |s.servers|
    ensures s.log == [] ==> !step.Subscribe?
  {
  }

  lemma QuietServer(w: World, s: State, step: Step, v: nat)
    requires Enabled(w, s, step) && !Publishes(step) && v < |s.servers| && |Next(w, s, step).servers| == |s.servers|
    ensures ServerStep(s.servers[v], Next(w, s, step).servers[v], s.holder == Some(Watcher(v)))
    ensures !step.Subscribe? ==> Next(w, s, step).servers[v].subscribed == s.servers[v].subscribed
  {
  }

  lemma QuietEffect(w: World, s: State, step: Step)
    requires Enabled(w, s, step) && !Publishes(step)
    ensures var n := Next(w, s, step);
            && n == s.(servers := n.servers, cancelled := n.cancelled, closing := n.closing)
            && ServersStep(s.servers, n.servers, s.holder)
            && (s.log == [] ==> forall v :: 0 <= v < |s.servers| ==> n.servers[v].subscribed == s.servers[v].subscribed)
  {
    QuietShape(w, s, step);
    forall v | 0 <= v < |s.servers|
      ensures ServerStep(s.servers[v], Next(w, s, step).servers[v], s.holder == Some(Watcher(v)))
      ensures s.log == [] ==> Next(w, s, step).servers[v].subscribed == s.servers[v].subscribed
    {
      QuietServer(w, s, step, v);
    }
  }

  lemma QuietKeepsReads(w: World, servers: seq<Server>, after: seq<Server>, reading: seq<nat>, log: seq<Published>, holder: Option<Publisher>)
    requires Reads(w, servers, reading, log, holder) && ServersStep(servers, after, holder)
    ensures Reads(w, after, reading, log, holder)
  {
  }

  lemma QuietKeepsFresh(servers: seq<Server>, after: seq<Server>, holder: Option<Publisher>, read: seq<nat>, owned: bool, reading: seq<nat>)
    requires Fresh(servers, read, owned, reading) && ServersStep(servers, after, holder)
    requires read == [] ==> forall v :: 0 <= v < |servers| ==> after[v].subscribed == servers[v].subscribed
    requires AtMostCurrent(read, servers)
    ensures Fresh(after, read, owned, reading)
  {
    forall v | 0 <= v < |servers|
      ensures after[v].base <= after[v].version
      ensures v < |read| ==> Accounted(after[v], read[v], owned, reading, v)
    {
      assert ServerStep(servers[v], after[v], holder == Some(Watcher(v)));
    }
  }

  lemma QuietKeepsShutdown(servers: seq<Server>, after: seq<Server>, holder: Option<Publisher>, stored: bool, log: seq<Published>)
    requires ShutdownLast(servers, holder, stored, log) && ServersStep(servers, after, holder)
    ensures ShutdownLast(after, holder, stored, log)
  {
    forall v | 0 <= v < |servers|
      ensures servers[v].exited ==> after[v].exited
      ensures after[v].exited ==> !after[v].waiting && holder != Some(Watcher(v))
    {
      assert ServerStep(servers[v], after[v], holder == Some(Watcher(v)));
    }
  }

  lemma QuietKeepsInv(w: World, s: State, step: Step)
    requires Inv(w, s) && Enabled(w, s, step) && !Publishes(step)
    ensures Inv(w, Next(w, s, step))
  {
    var n := Next(w, s, step);
    QuietEffect(w, s, step);
    QuietKeepsReads(w, s.servers, n.servers, s.reading, s.log, s.holder);
    QuietKeepsFresh(s.servers, n.servers, s.holder, LastRead(s.log), s.holder.Some? && !s.stored, s.reading);
    QuietKeepsShutdown(s.servers, n.servers, s.holder, s.stored, s.log);
  }

  // ---------------------------------------------------------------- steps of a publication

  lemma AcquireEffect(w: World, s: State, publisher: Publisher)
    requires Enabled(w, s, Acquire(publisher))
    ensures s.holder == None && publisher != Bootstrap
    ensures publisher.Watcher? ==> publisher.server < |s.servers| && s.servers[publisher.server].waiting
    ensures publisher == Shutdown ==> AllExited(s.servers) && NoShutdown(s.log)
    ensures Next(w, s, Acquire(publisher)) ==
            s.(servers := Called(s.servers, publisher), holder := Some(publisher), reading := [], stored := false,
               revision := Saturating(s.revision + 1))
  {
  }

  lemma AcquireKeepsCounted(log: seq<Published>, events: seq<Event>, stored: bool, revision: nat, publisher: Publisher)
    requires Counted(log, events, None, stored, revision) && publisher != Bootstrap
    ensures Counted(log, events, Some(publisher), false, Saturating(revision + 1))
  {
  }

  lemma AcquireKeepsFresh(servers: seq<Server>, publisher: Publisher, read: seq<nat>, owned: bool, reading: seq<nat>)
    requires Fresh(servers, read, owned, reading)
    ensures Fresh(Called(servers, publisher), read, true, [])
  {
  }

  lemma AcquireKeepsShutdown(servers: seq<Server>, stored: bool, log: seq<Published>, publisher: Publisher)
    requires ShutdownLast(servers, None, stored, log) && publisher != Bootstrap
    requires publisher.Watcher? ==> publisher.server < |servers| && servers[publisher.server].waiting
    requires publisher == Shutdown ==> AllExited(servers) && NoShutdown(log)
    ensures ShutdownLast(Called(servers, publisher), Some(publisher), false, log)
  {
    assert AllExited(servers) ==> AllExited(Called(servers, publisher));
    if publisher.Watcher? {
      assert !servers[publisher.server].exited;
      assert !AllExited(servers);
    }
  }

  lemma AcquireKeepsInv(w: World, s: State, publisher: Publisher)
    requires Inv(w, s) && Enabled(w, s, Acquire(publisher)) && publisher != Bootstrap
    requires s.holder == None
    ensures Inv(w, Next(w, s, Acquire(publisher)))
  {
    AcquireEffect(w, s, publisher);
    AcquireKeepsCounted(s.log, s.events, s.stored, s.revision, publisher);
    AcquireKeepsFresh(s.servers, publisher, LastRead(s.log), s.holder.Some? && !s.stored, s.reading);
    AcquireKeepsShutdown(s.servers, s.stored, s.log, publisher);
  }

  lemma ReadKeepsInv(w: World, s: State)
    requires Inv(w, s) && Enabled(w, s, Read)
    ensures Inv(w, Next(w, s, Read))
  {
    var n := Next(w, s, Read);
    var reading := s.reading + [s.servers[|s.reading|].version];
    assert n == s.(reading := reading);
    ReadKeepsReads(w, s.servers, s.reading, s.log, s.holder);
    ReadKeepsFresh(s.servers, LastRead(s.log), s.reading);
  }

  lemma ReadKeepsReads(w: World, servers: seq<Server>, reading: seq<nat>, log: seq<Published>, holder: Option<Publisher>)
    requires Reads(w, servers, reading, log, holder) && |reading| < |servers|
    ensures Reads(w, servers, reading + [servers[|reading|].version], log, holder)
  {
  }

  lemma ReadKeepsFresh(servers: seq<Server>, read: seq<nat>, reading: seq<nat>)
    requires Fresh(servers, read, true, reading) && |reading| < |servers|
    ensures Fresh(servers, read, true, reading + [servers[|reading|].version])
  {
  }

  lemma NotifyKeepsInv(w: World, s: State)
    requires Inv(w, s) && Enabled(w, s, Notify)
    ensures Inv(w, Next(w, s, Notify))
  {
    var n := Next(w, s, Notify);
    var event := Event(s.revision, s.holder.value);
    assert n == s.(events := s.events + [event], holder := None, stored := false);
    NotifyKeepsCounted(s.log, s.events, s.holder.value, s.revision);
  }

  lemma NotifyKeepsCounted(log: seq<Published>, events: seq<Event>, publisher: Publisher, revision: nat)
    requires Counted(log, events, Some(publisher), true, revision)
    ensures Counted(log, events + [Event(revision, publisher)], None, false, revision)
  {
    assert Announces(Event(revision, publisher), log[|log| - 1]);
  }

  /** The snapshot a publication stores holds, for every server, exactly the tools of the version it
      contributes. */
  lemma StoreContributes(w: World, s: State, v: nat)
    requires Enabled(w, s, Store) && |s.reading| == |w.ids| && Ordered(w, s.log) && v < |w.ids|
    ensures var snapshot := Aggregated(s.revision, Views(w, s.reading), StoredSnapshot(s.log));
            && Own(snapshot.catalog.tools, w.ids[v]) == ToolsAt(w, v, NextContributions(w, s)[v])
            && Distinct(snapshot.catalog.tools)
  {
    var views, previous := Views(w, s.reading), StoredSnapshot(s.log);
    var rejected := Rejections(views, previous, {});
    PublicationIsSound(s.revision, views, previous);
    MergeIsCombined(views, rejected, previous);
    SliceOfCombined(views, rejected, previous, v);
    CandidateProperties(views[v], rejected, previous);
    if s.log != [] {
      assert Contributing(w, s.log[|s.log| - 1]);
    } else {
      OwnNone([], w.ids[v]);
    }
  }

  /** The versions a publication contributes are ones it read or ones contributed before. */
  lemma ContributionsAdvance(w: World, s: State)
    requires Enabled(w, s, Store) && Reads(w, s.servers, s.reading, s.log, s.holder) && Ordered(w, s.log)
    ensures var next := NextContributions(w, s);
            && |next| == |w.ids|
            && (forall v :: 0 <= v < |next| ==> Contributions(w, s.log)[v] <= next[v] <= s.reading[v])
            && (forall v :: 0 <= v < |next| ==> -1 <= next[v])
  {
    if s.log != [] {
      assert Contributing(w, s.log[|s.log| - 1]);
    }
  }

  /** What the publisher stores. */
  lemma StoredPublication(w: World, s: State) returns (published: Published)
    requires Enabled(w, s, Store) && Reads(w, s.servers, s.reading, s.log, s.holder) && Ordered(w, s.log)
    ensures published == Stored(w, s)
    ensures Contributing(w, published) && (s.log != [] ==> NoOlder(s.log[|s.log| - 1], published))
    ensures published.snapshot.revision == s.revision && published.read == s.reading && published.publisher == s.holder.value
  {
    published := Stored(w, s);
    PublicationIsSound(s.revision, Views(w, s.reading), StoredSnapshot(s.log));
    ContributionsAdvance(w, s);
    forall v | 0 <= v < |w.ids|
      ensures Own(published.snapshot.catalog.tools, w.ids[v]) == ToolsAt(w, v, published.contributed[v])
    {
      StoreContributes(w, s, v);
    }
  }

  lemma AppendKeepsOrdered(w: World, log: seq<Published>, published: Published)
    requires Ordered(w, log) && Contributing(w, published)
    requires log != [] ==> NoOlder(log[|log| - 1], published)
    ensures Ordered(w, log + [published])
  {
    var more := log + [published];
    forall i, k | 0 <= i <= k < |more|
      ensures NoOlder(more[i], more[k])
    {
      if i < |log| {
        assert NoOlder(log[i], log[|log| - 1]);
        assert k < |log| ==> NoOlder(log[i], log[k]);
      }
    }
  }

  lemma StoreKeepsCounted(log: seq<Published>, events: seq<Event>, holder: Option<Publisher>, revision: nat, published: Published)
    requires Counted(log, events, holder, false, revision) && holder.Some?
    requires published.snapshot.revision == revision && published.publisher == holder.value
    ensures holder.value == Bootstrap ==> Counted(log + [published], events, None, false, revision)
    ensures holder.value != Bootstrap ==> Counted(log + [published], events, holder, true, revision)
  {
  }

  lemma StoreKeepsFresh(servers: seq<Server>, read: seq<nat>, reading: seq<nat>)
    requires Fresh(servers, read, true, reading) && |reading| == |servers| && (read != [] ==> |read| == |servers|)
    requires AtMost(read, reading) && AtMostCurrent(reading, servers)
    ensures Fresh(servers, reading, false, reading)
  {
    forall v | 0 <= v < |servers|
      ensures Accounted(servers[v], reading[v], false, reading, v)
    {
      assert read != [] ==> Accounted(servers[v], read[v], true, reading, v);
    }
  }

  lemma StoreKeepsShutdown(servers: seq<Server>, holder: Option<Publisher>, log: seq<Published>, published: Published)
    requires ShutdownLast(servers, holder, false, log) && holder.Some? && published.publisher == holder.value
    ensures holder.value == Bootstrap ==> ShutdownLast(servers, None, false, log + [published])
    ensures holder.value != Bootstrap ==> ShutdownLast(servers, holder, true, log + [published])
  {
    assert (log + [published])[..|log|] == log;
  }

  lemma StoreKeepsInv(w: World, s: State)
    requires Inv(w, s) && Enabled(w, s, Store)
    ensures Inv(w, Next(w, s, Store))
  {
    var published := StoredPublication(w, s);
    var n := Next(w, s, Store);
    assert n == if s.holder.value == Bootstrap then s.(log := s.log + [published], holder := None)
                else s.(log := s.log + [published], stored := true);
    assert LastRead(n.log) == s.reading;
    StoreKeepsCounted(s.log, s.events, s.holder, s.revision, published);
    AppendKeepsOrdered(w, s.log, published);
    StoreKeepsFresh(s.servers, LastRead(s.log), s.reading);
    StoreKeepsShutdown(s.servers, s.holder, s.log, published);
  }

  lemma StepKeepsInv(w: World, s: State, step: Step)
    requires Inv(w, s) && Enabled(w, s, step)
    ensures Inv(w, Next(w, s, step))
  {
    match step
    case Acquire(publisher) =>
      AcquireEffect(w, s, publisher);
      AcquireKeepsInv(w, s, publisher);
    case Read => ReadKeepsInv(w, s);
    case Store => StoreKeepsInv(w, s);
    case Notify => NotifyKeepsInv(w, s);
    case _ => QuietKeepsInv(w, s, step);
  }

  // ---------------------------------------------------------------- runs

  ghost predicate Runs(w: World, s: State, steps: seq<Step>)
    decreases |steps|
  {
    steps == [] || (Enabled(w, s, steps[0]) && Runs(w, Next(w, s, steps[0]), steps[1..]))
  }

  ghost function Run(w: World, s: State, steps: seq<Step>): State
    requires Runs(w, s, steps)
    decreases |steps|
  {
    if steps == [] then s else Run(w, Next(w, s, steps[0]), steps[1..])
  }

  lemma {:induction false} RunKeepsInv(w: World, s: State, steps: seq<Step>)
    requires Inv(w, s) && Runs(w, s, steps)
    ensures Inv(w, Run(w, s, steps))
    decreases |steps|
  {
    if steps != [] {
      StepKeepsInv(w, s, steps[0]);
      RunKeepsInv(w, Next(w, s, steps[0]), steps[1..]);
    }
  }

  ghost predicate Reachable(w: World, s: State) {
    exists start, steps :: Init(w, start) && Runs(w, start, steps) && s == Run(w, start, steps)
  }

  lemma ReachableInv(w: World, s: State)
    requires Reachable(w, s)
    ensures Inv(w, s)
  {
    var start, steps :| Init(w, start) && Runs(w, start, steps) && s == Run(w, start, steps);
    InitKeepsInv(w, start);
    RunKeepsInv(w, start, steps);
  }

  /** Whenever a publisher has loaded every view, `aggregate` may run: the previous snapshot is
      collision-free and the views are well formed, so its assertion cannot fire. */
  lemma StoreNeverBlocks(w: World, s: State)
    requires Reachable(w, s) && Sane(w)
    requires s.holder.Some? && !s.stored && |s.reading| == |s.servers|
    ensures Enabled(w, s, Store)
  {
    ReachableInv(w, s);
    if s.log != [] {
      assert Contributing(w, s.log[|s.log| - 1]);
    }
  }

  /** Publication `i` has revision `i + 1`, capped at the largest u64, so two publications share a
      revision exactly when both reached the cap; and the j-th event announces the revision and the
      publisher of the snapshot stored with it. */
  lemma RevisionsIncrease(w: World, s: State)
    requires Reachable(w, s)
    ensures forall i, k :: 0 <= i < k < |s.log| ==>
              && s.log[i].snapshot.revision <= s.log[k].snapshot.revision
              && (s.log[i].snapshot.revision == s.log[k].snapshot.revision <==> U64_MAX <= i + 1)
    ensures forall j :: 0 <= j < |s.events| ==>
              j + 1 < |s.log| && s.events[j] == Event(s.log[j + 1].snapshot.revision, s.log[j + 1].publisher)
  {
    ReachableInv(w, s);
  }

  /** The event a publisher sends names the revision of the snapshot readers load at that moment. */
  lemma EventMatchesStored(w: World, s: State)
    requires Reachable(w, s) && Enabled(w, s, Notify)
    ensures var event := Next(w, s, Notify).events[|s.events|];
            s.log != [] && event == Event(s.log[|s.log| - 1].snapshot.revision, s.log[|s.log| - 1].publisher)
  {
    ReachableInv(w, s);
  }

  /** No race makes a published catalog go back: every publication is collision-free, holds for every
      server exactly the tools of one of that server's own views, and that view is never older than the
      one it contributed to any earlier publication. */
  lemma NoServerGoesBack(w: World, s: State, i: nat, k: nat, v: nat)
    requires Reachable(w, s) && i <= k < |s.log| && v < |w.ids|
    ensures |s.log[i].contributed| == |s.log[k].contributed| == |w.ids|
    ensures s.log[i].contributed[v] <= s.log[k].contributed[v]
    ensures Distinct(s.log[k].snapshot.catalog.tools)
    ensures Own(s.log[k].snapshot.catalog.tools, w.ids[v]) == ToolsAt(w, v, s.log[k].contributed[v])
  {
    ReachableInv(w, s);
    assert Contributing(w, s.log[i]) && Contributing(w, s.log[k]) && NoOlder(s.log[i], s.log[k]);
  }

  /** Every announcement has been handled and nobody is publishing. */
  ghost predicate Settled(s: State) {
    && s.holder == None
    && forall v :: 0 <= v < |s.servers| ==>
         var server := s.servers[v];
         server.subscribed && server.unsent == 0 && server.queue == 0 && !server.waiting
  }

  /** Once everything settled, the latest publication read a server's newest view exactly when it read
      at least the view that was current as its watcher subscribed: no later change is ever lost. */
  lemma SettledIsCurrent(w: World, s: State, v: nat)
    requires Reachable(w, s) && Settled(s) && v < |w.ids|
    ensures s.log != [] && |LastRead(s.log)| == |w.ids| == |s.servers|
    ensures LastRead(s.log)[v] == s.servers[v].version <==> s.servers[v].base <= LastRead(s.log)[v]
  {
    ReachableInv(w, s);
    assert Contributing(w, s.log[|s.log| - 1]);
    assert Accounted(s.servers[v], LastRead(s.log)[v], false, s.reading, v);
  }

  lemma ReachableNext(w: World, s: State, step: Step)
    requires Reachable(w, s) && Enabled(w, s, step)
    ensures Reachable(w, Next(w, s, step))
  {
    var start, steps :| Init(w, start) && Runs(w, start, steps) && s == Run(w, start, steps);
    RunConcat(w, start, steps, step);
    assert Runs(w, start, steps + [step]);
  }

  lemma {:induction false} RunConcat(w: World, s: State, steps: seq<Step>, step: Step)
    requires Runs(w, s, steps) && Enabled(w, Run(w, s, steps), step)
    ensures Runs(w, s, steps + [step]) && Run(w, s, steps + [step]) == Next(w, Run(w, s, steps), step)
    decreases |steps|
  {
    if steps == [] {
      var t := Next(w, s, step);
      assert ([] + [step])[0] == step && ([] + [step])[1..] == [];
      assert Runs(w, t, []);
    } else {
      assert (steps + [step])[0] == steps[0] && (steps + [step])[1..] == steps[1..] + [step];
      RunConcat(w, Next(w, s, steps[0]), steps[1..], step);
    }
  }

  const SEARCH := Item("a", "search", "a__search", "v1")

  /** A server that starts without tools and has one from its second view on. */
  function GrowingView(version: nat): View {
    View(Status("a", Ready, version, Counts(0, 0, 0, 0), None), EMPTY.(tools := if version == 0 then [] else [SEARCH]))
  }

  const GROWING := World(["a"], (v: nat, k: nat) => GrowingView(k))
  const FRESH := Server(0, 0, false, 0, 0, false, false)
  const BOOTING := State([FRESH], 1, Some(Bootstrap), [], false, [], [], false, false)

  lemma GrowingIsSane()
    ensures Sane(GROWING) && Reachable(GROWING, BOOTING.(reading := [0]))
  {
    assert Init(GROWING, BOOTING);
    assert Runs(GROWING, BOOTING, []) && BOOTING == Run(GROWING, BOOTING, []);
    ReachableNext(GROWING, BOOTING, Read);
    assert Next(GROWING, BOOTING, Read) == BOOTING.(reading := [0]);
  }

  lemma GrowingBoots() returns (s: State)
    ensures Reachable(GROWING, s) && s.servers == [FRESH] && s.log != [] && LastRead(s.log) == [0] && s.holder == None
  {
    GrowingIsSane();
    var read := BOOTING.(reading := [0]);
    StoreNeverBlocks(GROWING, read);
    ReachableNext(GROWING, read, Store);
    s := Next(GROWING, read, Store);
  }

  lemma GrowingAnnounced() returns (s: State)
    ensures Reachable(GROWING, s) && s.servers == [FRESH.(version := 1)]
    ensures s.log != [] && LastRead(s.log) == [0] && s.holder == None
  {
    var booted := GrowingBoots();
    ReachableNext(GROWING, booted, Change(0));
    var changed := Next(GROWING, booted, Change(0));
    ReachableNext(GROWING, changed, Announce(0));
    s := Next(GROWING, changed, Announce(0));
    assert s == booted.(servers := [FRESH.(version := 1)]);
  }

  /** The condition of `SettledIsCurrent` is needed: a tool that a server gains after the bootstrap read
      and announces before its watcher subscribes is in no publication although everything settled. */
  lemma EarlyAnnouncementIsLost() returns (s: State)
    ensures Reachable(GROWING, s) && Settled(s) && |s.servers| == 1 && s.log != []
    ensures GROWING.view(0, s.servers[0].version).catalog.tools == [SEARCH]
    ensures Own(s.log[|s.log| - 1].snapshot.catalog.tools, "a") == []
  {
    var announced := GrowingAnnounced();
    ReachableNext(GROWING, announced, Subscribe(0));
    s := Next(GROWING, announced, Subscribe(0));
    FirstPublicationIsEmpty(s);
  }

  lemma FirstPublicationIsEmpty(s: State)
    requires Reachable(GROWING, s) && s.log != [] && LastRead(s.log) == [0]
    ensures Own(s.log[|s.log| - 1].snapshot.catalog.tools, "a") == []
  {
    NoServerGoesBack(GROWING, s, |s.log| - 1, |s.log| - 1, 0);
    ReachableInv(GROWING, s);
    assert Contributing(GROWING, s.log[|s.log| - 1]);
  }

  /** The shutdown publication is the last one: once it is in the log no publisher can start again. */
  lemma NothingFollowsShutdown(w: World, s: State, publisher: Publisher, i: nat)
    requires Reachable(w, s) && i < |s.log| && s.log[i].publisher == Shutdown
    ensures i == |s.log| - 1 && !Enabled(w, s, Acquire(publisher)) && !Enabled(w, s, Store)
  {
    ReachableInv(w, s);
    LastByShutdown(s.servers, s.holder, s.stored, s.log, i);
  }

  lemma LastByShutdown(servers: seq<Server>, holder: Option<Publisher>, stored: bool, log: seq<Published>, i: nat)
    requires ShutdownLast(servers, holder, stored, log) && i < |log| && log[i].publisher == Shutdown
    ensures i == |log| - 1 && (holder.Some? ==> stored)
    ensures forall v :: 0 <= v < |servers| ==> servers[v].exited && !servers[v].waiting
  {
    assert forall k :: 0 <= k < |log| - 1 ==> log[..|log| - 1][k] == log[k];
  }

  // ---------------------------------------------------------------- every announcement is published

  /** How often a watcher received an announcement in a run. */
  function Receptions(steps: seq<Step>, v: nat): nat {
    if steps == [] then 0
    else Receptions(steps[..|steps| - 1], v) + if steps[|steps| - 1] == Receive(v) then 1 else 0
  }

  /** How many publications a watcher made. */
  function PublishedBy(log: seq<Published>, publisher: Publisher): nat {
    if log == [] then 0
    else PublishedBy(log[..|log| - 1], publisher) + if log[|log| - 1].publisher == publisher then 1 else 0
  }

  /** Whether a watcher waits for the mutex, and whether it holds it with its snapshot still to be stored. */
  ghost function Underway(s: State, v: nat): nat {
    (if v < |s.servers| && s.servers[v].waiting then 1 else 0) + (if s.holder == Some(Watcher(v)) && !s.stored then 1 else 0)
  }

  lemma QuietConserves(w: World, s: State, step: Step, v: nat)
    requires Enabled(w, s, step) && !Publishes(step) && v < |s.servers|
    ensures var n := Next(w, s, step);
            && |n.servers| == |s.servers| && n.log == s.log && n.holder == s.holder && n.stored == s.stored
            && (step == Receive(v) ==> !s.servers[v].waiting && n.servers[v].waiting)
            && (step != Receive(v) ==> n.servers[v].waiting == s.servers[v].waiting)
  {
  }

  lemma AcquireConserves(w: World, s: State, publisher: Publisher, v: nat)
    requires Enabled(w, s, Acquire(publisher)) && v < |s.servers|
    ensures var n := Next(w, s, Acquire(publisher));
            && |n.servers| == |s.servers| && n.log == s.log && Underway(n, v) == Underway(s, v)
  {
    AcquireEffect(w, s, publisher);
    CalledExactly(s.servers, publisher, v);
  }

  lemma PublishedByLast(log: seq<Published>, published: Published, publisher: Publisher)
    ensures PublishedBy(log + [published], publisher) == PublishedBy(log, publisher) + if published.publisher == publisher then 1 else 0
  {
    assert (log + [published])[..|log|] == log;
  }

  lemma StoreConserves(w: World, s: State, v: nat)
    requires Enabled(w, s, Store) && v < |s.servers|
    ensures var n := Next(w, s, Store);
            && n.servers == s.servers
            && PublishedBy(n.log, Watcher(v)) + Underway(n, v) == PublishedBy(s.log, Watcher(v)) + Underway(s, v)
  {
    PublishedByLast(s.log, Stored(w, s), Watcher(v));
  }

  lemma StepConserves(w: World, s: State, step: Step, v: nat)
    requires Enabled(w, s, step) && v < |s.servers|
    ensures var n := Next(w, s, step);
            && |n.servers| == |s.servers|
            && PublishedBy(n.log, Watcher(v)) + Underway(n, v)
               == PublishedBy(s.log, Watcher(v)) + Underway(s, v) + if step == Receive(v) then 1 else 0
  {
    match step
    case Store => StoreConserves(w, s, v);
    case Acquire(publisher) => AcquireConserves(w, s, publisher, v);
    case Read =>
    case Notify =>
    case _ => QuietConserves(w, s, step, v);
  }

  lemma CalledExactly(servers: seq<Server>, publisher: Publisher, v: nat)
    requires v < |servers|
    ensures Called(servers, publisher)[v].waiting <==> servers[v].waiting && publisher != Watcher(v)
  {
  }

  lemma {:induction false} RunConserves(w: World, s: State, steps: seq<Step>, v: nat)
    requires Runs(w, s, steps) && v < |s.servers|
    ensures var n := Run(w, s, steps);
            && |n.servers| == |s.servers|
            && PublishedBy(n.log, Watcher(v)) + Underway(n, v) == PublishedBy(s.log, Watcher(v)) + Underway(s, v) + Receptions(steps, v)
    decreases |steps|
  {
    if steps != [] {
      StepConserves(w, s, steps[0], v);
      RunConserves(w, Next(w, s, steps[0]), steps[1..], v);
      ReceptionsFirst(steps, v);
    }
  }

  lemma {:induction false} ReceptionsFirst(steps: seq<Step>, v: nat)
    requires steps != []
    ensures Receptions(steps, v) == Receptions(steps[1..], v) + if steps[0] == Receive(v) then 1 else 0
  {
    if |steps| > 1 {
      ReceptionsFirst(steps[..|steps| - 1], v);
      assert steps[..|steps| - 1][1..] == steps[1..][..|steps| - 2];
    } else {
      assert steps[1..] == [] && steps[..0] == [];
    }
  }

  /** Every announcement a watcher receives is followed by exactly one publication of its own: over any run
      it has published as often as it received, except for the reception it is still working on; and when
      everything settled, exactly as often. */
  lemma EveryReceptionIsPublished(w: World, start: State, steps: seq<Step>, v: nat)
    requires Init(w, start) && Runs(w, start, steps) && v < |w.ids|
    ensures var s := Run(w, start, steps);
            && Receptions(steps, v) == PublishedBy(s.log, Watcher(v)) + Underway(s, v)
            && (Settled(s) ==> Receptions(steps, v) == PublishedBy(s.log, Watcher(v)))
  {
    RunConserves(w, start, steps, v);
  }

  // ---------------------------------------------------------------- nothing gets stuck

  /** The steps one server still has to take part in, when a publication takes `cost` of them. */
  function Work(server: Server, cost: nat): nat {
    (if server.subscribed then 0 else 1) + server.unsent * (cost + 3) + server.queue * (cost + 2) + (if server.waiting then cost + 1 else 0)
  }

  function WorkOf(servers: seq<Server>, cost: nat): nat {
    if servers == [] then 0 else WorkOf(servers[..|servers| - 1], cost) + Work(servers[|servers| - 1], cost)
  }

  function HolderWork(s: State): nat {
    if s.holder.None? then 0
    else if s.stored then 1
    else if |s.reading| <= |s.servers| then |s.servers| - |s.reading| + 2 else 2
  }

  function Left(s: State): nat {
    WorkOf(s.servers, |s.servers| + 2) + HolderWork(s)
  }

  lemma {:induction false} LessWork(servers: seq<Server>, v: nat, server: Server, cost: nat)
    requires v < |servers|
    ensures WorkOf(servers[v := server], cost) + Work(servers[v], cost) == WorkOf(servers, cost) + Work(server, cost)
  {
    var front, last := servers[..|servers| - 1], servers[|servers| - 1];
    var updated := servers[v := server];
    if v < |front| {
      LessWork(front, v, server, cost);
      assert updated[..|updated| - 1] == front[v := server];
    } else {
      assert updated[..|updated| - 1] == front;
    }
  }

  lemma OneLess(a: nat, b: nat, cost: nat)
    requires a == b + 1
    ensures a * cost == b * cost + cost
  {
  }

  predicate Busy(server: Server) {
    !server.subscribed || server.unsent > 0 || server.queue > 0 || server.waiting
  }

  lemma SubscribeLeaves(w: World, s: State, v: nat)
    requires Enabled(w, s, Subscribe(v))
    ensures Left(Next(w, s, Subscribe(v))) < Left(s)
  {
    var server, cost := s.servers[v], |s.servers| + 2;
    LessWork(s.servers, v, server.(subscribed := true, base := server.version), cost);
  }

  lemma AcquireLeaves(w: World, s: State, v: nat)
    requires Enabled(w, s, Acquire(Watcher(v)))
    ensures Left(Next(w, s, Acquire(Watcher(v)))) < Left(s)
  {
    var server, cost := s.servers[v], |s.servers| + 2;
    LessWork(s.servers, v, server.(waiting := false), cost);
    assert Called(s.servers, Watcher(v)) == s.servers[v := server.(waiting := false)];
  }

  lemma AnnounceLeaves(w: World, s: State, v: nat)
    requires Enabled(w, s, Announce(v)) && s.servers[v].subscribed
    ensures Left(Next(w, s, Announce(v))) < Left(s)
  {
    var server, cost := s.servers[v], |s.servers| + 2;
    OneLess(server.unsent, server.unsent - 1, cost + 3);
    OneLess(server.queue + 1, server.queue, cost + 2);
    LessWork(s.servers, v, server.(unsent := server.unsent - 1, queue := server.queue + 1), cost);
  }

  lemma ReceiveLeaves(w: World, s: State, v: nat)
    requires Enabled(w, s, Receive(v))
    ensures Left(Next(w, s, Receive(v))) < Left(s)
  {
    var server, cost := s.servers[v], |s.servers| + 2;
    OneLess(server.queue, server.queue - 1, cost + 2);
    LessWork(s.servers, v, server.(queue := server.queue - 1, waiting := true), cost);
  }

  /** A server that has something to do can do it, and less is left. */
  lemma ServerAdvances(w: World, s: State, v: nat) returns (step: Step)
    requires s.holder == None && s.log != [] && v < |s.servers| && !s.servers[v].exited && Busy(s.servers[v])
    ensures step in {Subscribe(v), Announce(v), Receive(v), Acquire(Watcher(v))}
    ensures Enabled(w, s, step) && Left(Next(w, s, step)) < Left(s)
  {
    if !s.servers[v].subscribed {
      step := Subscribe(v);
      SubscribeLeaves(w, s, v);
    } else if s.servers[v].waiting {
      step := Acquire(Watcher(v));
      AcquireLeaves(w, s, v);
    } else if s.servers[v].unsent > 0 {
      step := Announce(v);
      AnnounceLeaves(w, s, v);
    } else {
      step := Receive(v);
      ReceiveLeaves(w, s, v);
    }
  }

  lemma ReadLeaves(w: World, s: State)
    requires Enabled(w, s, Read)
    ensures Left(Next(w, s, Read)) < Left(s) && Next(w, s, Read).servers == s.servers
  {
  }

  lemma StoreLeaves(w: World, s: State)
    requires Enabled(w, s, Store)
    ensures Left(Next(w, s, Store)) < Left(s) && Next(w, s, Store).servers == s.servers
  {
    var n := Next(w, s, Store);
    assert n.servers == s.servers && (n.holder.None? || n.stored);
  }

  lemma NotifyLeaves(w: World, s: State)
    requires Enabled(w, s, Notify)
    ensures Left(Next(w, s, Notify)) < Left(s) && Next(w, s, Notify).servers == s.servers
  {
  }

  lemma ReadAtMostAll(w: World, s: State)
    requires Reachable(w, s)
    ensures |s.reading| <= |s.servers| && (s.log == [] ==> s.holder.Some?)
  {
    ReachableInv(w, s);
  }

  /** So can a publisher that holds the mutex. */
  lemma HolderAdvances(w: World, s: State) returns (step: Step)
    requires Reachable(w, s) && Sane(w) && s.holder.Some?
    ensures step in {Read, Store, Notify}
    ensures Enabled(w, s, step) && Left(Next(w, s, step)) < Left(s) && Next(w, s, step).servers == s.servers
  {
    ReadAtMostAll(w, s);
    if s.stored {
      step := Notify;
      NotifyLeaves(w, s);
    } else if |s.reading| < |s.servers| {
      step := Read;
      ReadLeaves(w, s);
    } else {
      step := Store;
      StoreNeverBlocks(w, s);
      StoreLeaves(w, s);
    }
  }

  ghost predicate NoneExited(servers: seq<Server>) {
    forall v :: 0 <= v < |servers| ==> !servers[v].exited
  }

  lemma StaysOpen(w: World, s: State, step: Step)
    requires NoneExited(s.servers) && Enabled(w, s, step) && !step.Exit?
    ensures NoneExited(Next(w, s, step).servers)
  {
  }

  lemma BusyServer(s: State) returns (v: nat)
    requires s.holder == None && !Settled(s)
    ensures v < |s.servers| && Busy(s.servers[v])
  {
    v :| v < |s.servers| && Busy(s.servers[v]);
  }

  /** Until everything settled, some step of a watcher leaves less to do. */
  lemma SomeoneAdvances(w: World, s: State) returns (step: Step)
    requires Reachable(w, s) && Sane(w) && NoneExited(s.servers) && !Settled(s)
    ensures Enabled(w, s, step) && Left(Next(w, s, step)) < Left(s) && NoneExited(Next(w, s, step).servers)
  {
    ReadAtMostAll(w, s);
    if s.holder.Some? {
      step := HolderAdvances(w, s);
    } else {
      var v := BusyServer(s);
      step := ServerAdvances(w, s, v);
    }
    StaysOpen(w, s, step);
  }

  /** While the Session is open, whatever was announced so far, everything can still be handled: from every
      reachable state some steps of the watchers lead to a settled one. */
  lemma {:induction false} SettledIsReachable(w: World, s: State) returns (steps: seq<Step>)
    requires Reachable(w, s) && Sane(w) && NoneExited(s.servers)
    ensures Runs(w, s, steps) && Settled(Run(w, s, steps))
    decreases Left(s)
  {
    if Settled(s) {
      steps := [];
    } else {
      var step := SomeoneAdvances(w, s);
      ReachableNext(w, s, step);
      var rest := SettledIsReachable(w, Next(w, s, step));
      steps := [step] + rest;
      assert steps[1..] == rest;
    }
  }
}
