/** The aggregate MCP catalog of crates/mcp/src/session.rs: public names that collide across servers
    are rejected until none is left, and a rejected server keeps its previous partition. */
module Aggregate {
  import opened Wrappers

  type ServerId = string

  /** A tool, prompt, resource or resource template, routed by its server. Only the public names of
      tools must be unique across servers. */
  datatype Item = Item(serverId: ServerId, remoteName: string, publicName: string, definition: string)

  datatype Catalog = Catalog(tools: seq<Item>, prompts: seq<Item>, resources: seq<Item>, templates: seq<Item>)

  datatype ServerState = Connecting | Ready | Degraded | Failed | Stopped

  datatype Counts = Counts(tools: nat, prompts: nat, resources: nat, templates: nat)

  datatype Status = Status(serverId: ServerId, state: ServerState, revisions: nat, counts: Counts, failure: Option<string>)

  /** One server's status and catalog, loaded together. */
  datatype View = View(status: Status, catalog: Catalog)

  datatype Snapshot = Snapshot(revision: nat, servers: seq<Status>, catalog: Catalog)

  const EMPTY := Catalog([], [], [], [])
  const COLLISION := "tool public names collide across MCP servers"

  function CountsOf(catalog: Catalog): Counts {
    Counts(|catalog.tools|, |catalog.prompts|, |catalog.resources|, |catalog.templates|)
  }

  // ---------------------------------------------------------------- partitions

  /** The items one server contributes to a list. */
  function Own(tools: seq<Item>, id: ServerId): seq<Item> {
    if tools == [] then []
    else
      var front := Own(tools[..|tools| - 1], id);
      var last := tools[|tools| - 1];
      if last.serverId == id then front + [last] else front
  }

  function Previous(previous: Option<Snapshot>): Catalog {
    if previous.Some? then previous.value.catalog else EMPTY
  }

  function Slice(catalog: Catalog, id: ServerId): Catalog {
    Catalog(Own(catalog.tools, id), Own(catalog.prompts, id),
            Own(catalog.resources, id), Own(catalog.templates, id))
  }

  /** The tools a server would contribute with the given servers rejected. */
  function Candidate(view: View, rejected: set<ServerId>, previous: Option<Snapshot>): seq<Item> {
    Own(if view.status.serverId in rejected then Previous(previous).tools else view.catalog.tools,
             view.status.serverId)
  }

  function Combined(views: seq<View>, rejected: set<ServerId>, previous: Option<Snapshot>): seq<Item> {
    if views == [] then []
    else Combined(views[..|views| - 1], rejected, previous) + Candidate(views[|views| - 1], rejected, previous)
  }

  predicate Changed(view: View, previous: Option<Snapshot>) {
    previous.None? || Own(previous.value.catalog.tools, view.status.serverId) != view.catalog.tools
  }

  function ChangedServers(views: seq<View>, previous: Option<Snapshot>): set<ServerId> {
    set i | 0 <= i < |views| && Changed(views[i], previous) :: views[i].status.serverId
  }

  // ---------------------------------------------------------------- collisions

  ghost predicate Distinct(tools: seq<Item>) {
    forall i, k :: 0 <= i < k < |tools| ==> tools[i].publicName != tools[k].publicName
  }

  ghost predicate Shared(tools: seq<Item>, i: int) {
    0 <= i < |tools| && exists k :: 0 <= k < |tools| && k != i && tools[k].publicName == tools[i].publicName
  }

  /** The servers owning a tool whose public name occurs more than once. */
  ghost function Clashing(tools: seq<Item>): set<ServerId> {
    set i | 0 <= i < |tools| && Shared(tools, i) :: tools[i].serverId
  }

  /** The newest owner of every public name. */
  ghost predicate Owners(tools: seq<Item>, owners: map<string, ServerId>) {
    && (forall i :: 0 <= i < |tools| ==> tools[i].publicName in owners)
    && (forall name :: name in owners ==>
          exists i :: 0 <= i < |tools| && tools[i].publicName == name && tools[i].serverId == owners[name]
                      && forall k :: i < k < |tools| ==> tools[k].publicName != name)
  }

  lemma OwnersStep(tools: seq<Item>, owners: map<string, ServerId>, tool: Item)
    requires Owners(tools, owners)
    ensures Owners(tools + [tool], owners[tool.publicName := tool.serverId])
  {
    var more := tools + [tool];
    var next := owners[tool.publicName := tool.serverId];
    forall name | name in next
      ensures exists i :: 0 <= i < |more| && more[i].publicName == name && more[i].serverId == next[name]
                          && forall k :: i < k < |more| ==> more[k].publicName != name
    {
      if name == tool.publicName {
        assert more[|tools|] == tool;
      } else {
        var i :| 0 <= i < |tools| && tools[i].publicName == name && tools[i].serverId == owners[name]
                 && forall k :: i < k < |tools| ==> tools[k].publicName != name;
        assert more[i] == tools[i];
      }
    }
  }

  lemma SharedGrows(tools: seq<Item>, tool: Item, i: int)
    requires 0 <= i < |tools|
    ensures Shared(tools + [tool], i) <==> Shared(tools, i) || tools[i].publicName == tool.publicName
  {
    var more := tools + [tool];
    assert more[|tools|] == tool && more[i] == tools[i];
    if Shared(tools, i) {
      var k :| 0 <= k < |tools| && k != i && tools[k].publicName == tools[i].publicName;
      assert more[k].publicName == more[i].publicName;
    }
  }

  lemma ClashingStep(tools: seq<Item>, owners: map<string, ServerId>, tool: Item)
    requires Owners(tools, owners)
    ensures Clashing(tools + [tool]) ==
            Clashing(tools) +
            (if tool.publicName in owners then {owners[tool.publicName], tool.serverId} else {})
  {
    var more := tools + [tool];
    var found := if tool.publicName in owners then {owners[tool.publicName], tool.serverId} else {};
    assert more[|tools|] == tool;
    forall i | 0 <= i < |tools|
      ensures Shared(more, i) <==> Shared(tools, i) || tools[i].publicName == tool.publicName
    {
      SharedGrows(tools, tool, i);
    }
    assert Shared(more, |tools|) <==> tool.publicName in owners by {
      if Shared(more, |tools|) {
        var k :| 0 <= k < |more| && k != |tools| && more[k].publicName == tool.publicName;
        assert tools[k].publicName in owners;
      }
      if tool.publicName in owners {
        var i :| 0 <= i < |tools| && tools[i].publicName == tool.publicName;
        assert more[i].publicName == tool.publicName;
      }
    }
    forall id | id in Clashing(more)
      ensures id in Clashing(tools) + found
    {
      var i :| 0 <= i < |more| && Shared(more, i) && more[i].serverId == id;
      if i < |tools| && !Shared(tools, i) {
        var last :| 0 <= last < |tools| && tools[last].publicName == tool.publicName
                    && tools[last].serverId == owners[tool.publicName];
        assert last == i;
      }
    }
    forall id | id in Clashing(tools) + found
      ensures id in Clashing(more)
    {
      if id in Clashing(tools) {
        var i :| 0 <= i < |tools| && Shared(tools, i) && tools[i].serverId == id;
        assert Shared(more, i) && more[i].serverId == id;
      } else if id == tool.serverId {
        assert Shared(more, |tools|);
      } else {
        var i :| 0 <= i < |tools| && tools[i].publicName == tool.publicName && tools[i].serverId == id;
        assert Shared(more, i) && more[i].serverId == id;
      }
    }
  }

  lemma NoClashIsDistinct(tools: seq<Item>)
    ensures Clashing(tools) == {} <==> Distinct(tools)
  {
    forall i, k | 0 <= i < k < |tools| && tools[i].publicName == tools[k].publicName
      ensures tools[i].serverId in Clashing(tools)
    {
      assert Shared(tools, i);
    }
  }

  // ---------------------------------------------------------------- well-formed inputs

  /** What `prepare_catalog` guarantees of one server's catalog. */
  ghost predicate WellFormed(view: View) {
    && (forall t :: t in view.catalog.tools ==> t.serverId == view.status.serverId)
    && Distinct(view.catalog.tools)
  }

  ghost predicate WellFormedViews(views: seq<View>) {
    && (forall i :: 0 <= i < |views| ==> WellFormed(views[i]))
    && (forall i, k :: 0 <= i < k < |views| ==> views[i].status.serverId != views[k].status.serverId)
  }

  lemma {:induction false} OwnMembers(tools: seq<Item>, id: ServerId)
    ensures forall t :: t in Own(tools, id) <==> t in tools && t.serverId == id
  {
    if tools != [] {
      OwnMembers(tools[..|tools| - 1], id);
      assert tools == tools[..|tools| - 1] + [tools[|tools| - 1]];
    }
  }

  lemma {:induction false} OwnDistinct(tools: seq<Item>, id: ServerId)
    requires Distinct(tools)
    ensures Distinct(Own(tools, id))
  {
    if tools != [] {
      var front, last := tools[..|tools| - 1], tools[|tools| - 1];
      OwnDistinct(front, id);
      OwnMembers(front, id);
      var own := Own(front, id);
      forall i | 0 <= i < |own|
        ensures own[i].publicName != last.publicName
      {
        assert own[i] in front;
      }
    }
  }

  lemma {:induction false} OwnAll(tools: seq<Item>, id: ServerId)
    requires forall t :: t in tools ==> t.serverId == id
    ensures Own(tools, id) == tools
  {
    if tools != [] {
      assert tools == tools[..|tools| - 1] + [tools[|tools| - 1]];
      OwnAll(tools[..|tools| - 1], id);
    }
  }

  lemma CandidateProperties(view: View, rejected: set<ServerId>, previous: Option<Snapshot>)
    requires WellFormed(view) && Distinct(Previous(previous).tools)
    ensures Distinct(Candidate(view, rejected, previous))
    ensures forall t :: t in Candidate(view, rejected, previous) ==> t.serverId == view.status.serverId
    ensures view.status.serverId in rejected || !Changed(view, previous) ==>
              forall t :: t in Candidate(view, rejected, previous) ==> t in Previous(previous).tools
    ensures view.status.serverId !in rejected ==> Candidate(view, rejected, previous) == view.catalog.tools
    ensures view.status.serverId in rejected ==>
              Candidate(view, rejected, previous) == Own(Previous(previous).tools, view.status.serverId)
  {
    OwnAll(view.catalog.tools, view.status.serverId);
    OwnMembers(Previous(previous).tools, view.status.serverId);
    OwnDistinct(Previous(previous).tools, view.status.serverId);
  }

  /** Where a tool of the combined catalog comes from. */
  ghost predicate Contributes(views: seq<View>, rejected: set<ServerId>, previous: Option<Snapshot>, v: int, tool: Item) {
    0 <= v < |views| && tool in Candidate(views[v], rejected, previous)
  }

  lemma {:induction false} CombinedMembers(views: seq<View>, rejected: set<ServerId>, previous: Option<Snapshot>)
    ensures forall t :: t in Combined(views, rejected, previous) <==>
                        exists v :: Contributes(views, rejected, previous, v, t)
  {
    if views != [] {
      var front := views[..|views| - 1];
      CombinedMembers(front, rejected, previous);
      forall t
        ensures t in Combined(views, rejected, previous) <==> exists v :: Contributes(views, rejected, previous, v, t)
      {
        if t in Combined(front, rejected, previous) {
          var v :| Contributes(front, rejected, previous, v, t);
          assert Contributes(views, rejected, previous, v, t);
        }
        if t in Candidate(views[|views| - 1], rejected, previous) {
          assert Contributes(views, rejected, previous, |views| - 1, t);
        }
        if exists v :: Contributes(views, rejected, previous, v, t) {
          var v :| Contributes(views, rejected, previous, v, t);
          if v < |front| {
            assert Contributes(front, rejected, previous, v, t);
          }
        }
      }
    }
  }

  ghost predicate CrossServer(views: seq<View>, rejected: set<ServerId>, previous: Option<Snapshot>,
                              v: int, w: int, t: Item, u: Item) {
    && v < w && Contributes(views, rejected, previous, v, t) && Contributes(views, rejected, previous, w, u)
    && t.publicName == u.publicName
  }

  lemma SameNameSameItem(tools: seq<Item>)
    requires Distinct(tools)
    ensures forall t, u :: t in tools && u in tools && t.publicName == u.publicName ==> t == u
  {
  }

  /** Joining two collision-free lists collides only across the join. */
  lemma JoinCollides(a: seq<Item>, b: seq<Item>) returns (t: Item, u: Item)
    requires Distinct(a) && Distinct(b) && !Distinct(a + b)
    ensures t in a && u in b && t.publicName == u.publicName
  {
    var i, k :| 0 <= i < k < |a + b| && (a + b)[i].publicName == (a + b)[k].publicName;
    t, u := a[i], b[k - |a|];
  }

  /** With well-formed servers a collision always involves two different servers. */
  lemma {:induction false} CollisionCrossesServers(views: seq<View>, rejected: set<ServerId>, previous: Option<Snapshot>)
    returns (v: int, w: int, t: Item, u: Item)
    requires WellFormedViews(views) && Distinct(Previous(previous).tools)
    requires !Distinct(Combined(views, rejected, previous))
    ensures CrossServer(views, rejected, previous, v, w, t, u)
  {
    var front, last := views[..|views| - 1], |views| - 1;
    var a, b := Combined(front, rejected, previous), Candidate(views[last], rejected, previous);
    CandidateProperties(views[last], rejected, previous);
    if !Distinct(a) {
      v, w, t, u := CollisionCrossesServers(front, rejected, previous);
      assert Contributes(views, rejected, previous, v, t) && Contributes(views, rejected, previous, w, u);
    } else {
      t, u := JoinCollides(a, b);
      CombinedMembers(front, rejected, previous);
      v :| Contributes(front, rejected, previous, v, t);
      w := last;
      assert Contributes(views, rejected, previous, v, t) && Contributes(views, rejected, previous, w, u);
    }
  }

  /** The servers one round newly rejects: changed, colliding, and not rejected before. */
  ghost function Additional(views: seq<View>, rejected: set<ServerId>, previous: Option<Snapshot>): set<ServerId> {
    Clashing(Combined(views, rejected, previous)) * ChangedServers(views, previous) - rejected
  }

  lemma BothClash(all: seq<Item>, t: Item, u: Item)
    requires t in all && u in all && t != u && t.publicName == u.publicName
    ensures t.serverId in Clashing(all) && u.serverId in Clashing(all)
  {
    var i :| 0 <= i < |all| && all[i] == t;
    var k :| 0 <= k < |all| && all[k] == u;
    assert Shared(all, i) && Shared(all, k);
  }

  /** The source's assertion: whenever names collide, some changed server is not rejected yet. */
  lemma SomeChangedServerClashes(views: seq<View>, rejected: set<ServerId>, previous: Option<Snapshot>)
    requires WellFormedViews(views) && Distinct(Previous(previous).tools)
    requires Clashing(Combined(views, rejected, previous)) != {}
    ensures Additional(views, rejected, previous) != {}
  {
    NoClashIsDistinct(Combined(views, rejected, previous));
    var v, w, t, u := CollisionCrossesServers(views, rejected, previous);
    CandidateProperties(views[v], rejected, previous);
    CandidateProperties(views[w], rejected, previous);
    CombinedMembers(views, rejected, previous);
    assert Contributes(views, rejected, previous, v, t) && Contributes(views, rejected, previous, w, u);
    BothClash(Combined(views, rejected, previous), t, u);
    SameNameSameItem(Previous(previous).tools);
    if (Changed(views[v], previous) && t.serverId !in rejected) {
      assert t.serverId in Additional(views, rejected, previous);
    } else if (Changed(views[w], previous) && u.serverId !in rejected) {
      assert u.serverId in Additional(views, rejected, previous);
    } else {
      assert false;
    }
  }

  // ---------------------------------------------------------------- the rejection loop

  /** The rejections the loop settles on. */
  ghost function Rejections(views: seq<View>, previous: Option<Snapshot>, rejected: set<ServerId>): set<ServerId>
    requires WellFormedViews(views) && Distinct(Previous(previous).tools)
    decreases |ChangedServers(views, previous) - rejected|
  {
    var clashing := Clashing(Combined(views, rejected, previous));
    if clashing == {} then rejected
    else
      SomeChangedServerClashes(views, rejected, previous);
      var additional := Additional(views, rejected, previous);
      SmallerSet(ChangedServers(views, previous), rejected, additional);
      Rejections(views, previous, rejected + additional)
  }

  lemma SmallerSet(all: set<ServerId>, rejected: set<ServerId>, additional: set<ServerId>)
    requires additional != {} && additional <= all && additional !! rejected
    ensures |all - (rejected + additional)| < |all - rejected|
  {
    assert all - rejected == (all - (rejected + additional)) + additional;
  }

  function Partition(view: View, rejected: set<ServerId>, previous: Option<Snapshot>): Catalog {
    if view.status.serverId in rejected then Slice(Previous(previous), view.status.serverId) else view.catalog
  }

  function PriorStatus(servers: seq<Status>, id: ServerId): Option<Status> {
    if servers == [] then None
    else if servers[0].serverId == id then Some(servers[0])
    else PriorStatus(servers[1..], id)
  }

  function StatusOf(view: View, rejected: set<ServerId>, previous: Option<Snapshot>): Status {
    var counts := CountsOf(Partition(view, rejected, previous));
    if view.status.serverId !in rejected then view.status.(counts := counts)
    else
      var prior := if previous.Some? then PriorStatus(previous.value.servers, view.status.serverId) else None;
      view.status.(
        state := if prior.Some? && (prior.value.state == Ready || prior.value.state == Degraded) then Degraded else Failed,
        revisions := if prior.Some? then prior.value.revisions else 0,
        failure := Some(COLLISION),
        counts := counts)
  }

  function Extend(catalog: Catalog, more: Catalog): Catalog {
    Catalog(catalog.tools + more.tools, catalog.prompts + more.prompts,
            catalog.resources + more.resources, catalog.templates + more.templates)
  }

  function Merge(views: seq<View>, rejected: set<ServerId>, previous: Option<Snapshot>): Catalog {
    if views == [] then EMPTY
    else Extend(Merge(views[..|views| - 1], rejected, previous), Partition(views[|views| - 1], rejected, previous))
  }

  function Statuses(views: seq<View>, rejected: set<ServerId>, previous: Option<Snapshot>): seq<Status> {
    if views == [] then []
    else Statuses(views[..|views| - 1], rejected, previous) + [StatusOf(views[|views| - 1], rejected, previous)]
  }

  /** The published snapshot. */
  ghost function Aggregated(revision: nat, views: seq<View>, previous: Option<Snapshot>): Snapshot
    requires WellFormedViews(views) && Distinct(Previous(previous).tools)
  {
    var rejected := Rejections(views, previous, {});
    Snapshot(revision, Statuses(views, rejected, previous), Merge(views, rejected, previous))
  }

  method OwnOf(tools: seq<Item>, id: ServerId) returns (own: seq<Item>)
    ensures own == Own(tools, id)
  {
    own := [];
    for i := 0 to |tools|
      invariant own == Own(tools[..i], id)
    {
      assert tools[..i + 1][..i] == tools[..i];
      if tools[i].serverId == id {
        own := own + [tools[i]];
      }
    }
    assert tools[..|tools|] == tools;
  }

  /** Records one server's candidate tools as owners, collecting every collision. */
  method AddCandidate(ghost before: seq<Item>, candidate: seq<Item>, known: map<string, ServerId>, found: set<ServerId>)
    returns (owners: map<string, ServerId>, conflicts: set<ServerId>)
    requires Owners(before, known) && found == Clashing(before)
    ensures Owners(before + candidate, owners) && conflicts == Clashing(before + candidate)
  {
    owners, conflicts := known, found;
    assert before + candidate[..0] == before;
    for i := 0 to |candidate|
      invariant Owners(before + candidate[..i], owners)
      invariant conflicts == Clashing(before + candidate[..i])
    {
      var tool := candidate[i];
      ghost var seen := before + candidate[..i];
      assert before + candidate[..i + 1] == seen + [tool];
      OwnersStep(seen, owners, tool);
      ClashingStep(seen, owners, tool);
      if tool.publicName in owners {
        conflicts := conflicts + {owners[tool.publicName], tool.serverId};
      }
      owners := owners[tool.publicName := tool.serverId];
    }
    assert candidate[..|candidate|] == candidate;
  }

  /** One round: the owners and conflicts over every server's candidate tools. */
  method FindConflicts(views: seq<View>, rejected: set<ServerId>, previous: Option<Snapshot>)
    returns (conflicts: set<ServerId>)
    ensures conflicts == Clashing(Combined(views, rejected, previous))
  {
    var owners: map<string, ServerId> := map[];
    conflicts := {};
    for v := 0 to |views|
      invariant Owners(Combined(views[..v], rejected, previous), owners)
      invariant conflicts == Clashing(Combined(views[..v], rejected, previous))
    {
      var id := views[v].status.serverId;
      var candidate := OwnOf(if id in rejected then Previous(previous).tools else views[v].catalog.tools, id);
      assert views[..v + 1][..v] == views[..v];
      assert Combined(views[..v + 1], rejected, previous) == Combined(views[..v], rejected, previous) + candidate;
      owners, conflicts := AddCandidate(Combined(views[..v], rejected, previous), candidate, owners, conflicts);
    }
    assert views[..|views|] == views;
  }

  method ChangedServersOf(views: seq<View>, previous: Option<Snapshot>) returns (changed: set<ServerId>)
    ensures changed == ChangedServers(views, previous)
  {
    changed := {};
    for i := 0 to |views|
      invariant changed == ChangedServers(views[..i], previous)
    {
      var own := OwnOf(Previous(previous).tools, views[i].status.serverId);
      assert forall k :: 0 <= k < i ==> views[..i + 1][k] == views[..i][k];
      assert views[..i + 1][i] == views[i];
      assert ChangedServers(views[..i + 1], previous) ==
             ChangedServers(views[..i], previous) + (if Changed(views[i], previous) then {views[i].status.serverId} else {}) by {
        forall id | id in ChangedServers(views[..i], previous)
          ensures id in ChangedServers(views[..i + 1], previous)
        {
          var k :| 0 <= k < i && Changed(views[..i][k], previous) && views[..i][k].status.serverId == id;
          assert Changed(views[..i + 1][k], previous);
        }
      }
      if previous.None? || own != views[i].catalog.tools {
        changed := changed + {views[i].status.serverId};
      }
    }
    assert views[..|views|] == views;
  }

  /** The conflict loop: its assertion holds in every round, and every round rejects another server. */
  method Reject(views: seq<View>, previous: Option<Snapshot>) returns (rejected: set<ServerId>)
    requires WellFormedViews(views) && Distinct(Previous(previous).tools)
    ensures rejected == Rejections(views, previous, {})
  {
    var changed := ChangedServersOf(views, previous);
    rejected := {};
    var conflicts := FindConflicts(views, rejected, previous);
    while conflicts != {}
      invariant conflicts == Clashing(Combined(views, rejected, previous))
      invariant Rejections(views, previous, rejected) == Rejections(views, previous, {})
      decreases |changed - rejected|
    {
      SomeChangedServerClashes(views, rejected, previous);
      var additional := conflicts * changed - rejected;
      assert additional != {};
      SmallerSet(changed, rejected, additional);
      rejected := rejected + additional;
      conflicts := FindConflicts(views, rejected, previous);
    }
  }

  /** `McpSession::aggregate`: for well-formed servers and a collision-free previous snapshot it
      terminates and publishes `Aggregated`. */
  method Publish(revision: nat, views: seq<View>, previous: Option<Snapshot>) returns (snapshot: Snapshot)
    requires WellFormedViews(views) && Distinct(Previous(previous).tools)
    ensures snapshot == Aggregated(revision, views, previous)
  {
    var rejected := Reject(views, previous);
    var catalog := EMPTY;
    var servers: seq<Status> := [];
    for v := 0 to |views|
      invariant catalog == Merge(views[..v], rejected, previous)
      invariant servers == Statuses(views[..v], rejected, previous)
    {
      assert views[..v + 1][..v] == views[..v];
      var partition := Partition(views[v], rejected, previous);
      catalog := Extend(catalog, partition);
      servers := servers + [StatusOf(views[v], rejected, previous)];
    }
    assert views[..|views|] == views;
    snapshot := Snapshot(revision, servers, catalog);
  }

  // ---------------------------------------------------------------- what a publication guarantees

  lemma {:induction false} RejectionsSettle(views: seq<View>, previous: Option<Snapshot>, rejected: set<ServerId>)
    requires WellFormedViews(views) && Distinct(Previous(previous).tools)
    requires rejected <= ChangedServers(views, previous)
    ensures var r := Rejections(views, previous, rejected);
            && rejected <= r <= ChangedServers(views, previous)
            && Distinct(Combined(views, r, previous))
    decreases |ChangedServers(views, previous) - rejected|
  {
    var clashing := Clashing(Combined(views, rejected, previous));
    NoClashIsDistinct(Combined(views, rejected, previous));
    if clashing != {} {
      SomeChangedServerClashes(views, rejected, previous);
      var additional := Additional(views, rejected, previous);
      SmallerSet(ChangedServers(views, previous), rejected, additional);
      RejectionsSettle(views, previous, rejected + additional);
    }
  }

  lemma {:induction false} MergeIsCombined(views: seq<View>, rejected: set<ServerId>, previous: Option<Snapshot>)
    requires WellFormedViews(views)
    ensures Merge(views, rejected, previous).tools == Combined(views, rejected, previous)
  {
    if views != [] {
      var last := views[|views| - 1];
      MergeIsCombined(views[..|views| - 1], rejected, previous);
      OwnAll(last.catalog.tools, last.status.serverId);
    }
  }

  lemma {:induction false} OwnConcat(a: seq<Item>, b: seq<Item>, id: ServerId)
    ensures Own(a + b, id) == Own(a, id) + Own(b, id)
  {
    if b == [] {
      assert a + b == a;
    } else {
      assert (a + b)[..|a + b| - 1] == a + b[..|b| - 1];
      OwnConcat(a, b[..|b| - 1], id);
    }
  }

  lemma {:induction false} OwnNone(tools: seq<Item>, id: ServerId)
    requires forall t :: t in tools ==> t.serverId != id
    ensures Own(tools, id) == []
  {
    if tools != [] {
      assert tools == tools[..|tools| - 1] + [tools[|tools| - 1]];
      OwnNone(tools[..|tools| - 1], id);
    }
  }

  lemma OwnOwn(items: seq<Item>, id: ServerId, other: ServerId)
    ensures Own(Own(items, other), id) == if id == other then Own(items, id) else []
  {
    OwnMembers(items, other);
    if id == other {
      OwnAll(Own(items, other), id);
    } else {
      OwnNone(Own(items, other), id);
    }
  }

  ghost predicate DistinctIds(views: seq<View>) {
    forall i, k :: 0 <= i < k < |views| ==> views[i].status.serverId != views[k].status.serverId
  }

  /** A server that is not among the views contributes nothing. */
  lemma {:induction false} NothingElsewhere(views: seq<View>, rejected: set<ServerId>, previous: Option<Snapshot>, id: ServerId)
    requires forall v :: 0 <= v < |views| ==> views[v].status.serverId != id
    ensures Own(Combined(views, rejected, previous), id) == []
  {
    if views != [] {
      var front, last := views[..|views| - 1], views[|views| - 1];
      NothingElsewhere(front, rejected, previous, id);
      OwnConcat(Combined(front, rejected, previous), Candidate(last, rejected, previous), id);
      CandidateSlice(last, rejected, previous, id);
    }
  }

  lemma CandidateSlice(view: View, rejected: set<ServerId>, previous: Option<Snapshot>, id: ServerId)
    ensures Own(Candidate(view, rejected, previous), id) ==
            if id == view.status.serverId then Candidate(view, rejected, previous) else []
  {
    OwnOwn(if view.status.serverId in rejected then Previous(previous).tools else view.catalog.tools, id, view.status.serverId);
  }

  lemma SliceLast(front: seq<View>, view: View, rejected: set<ServerId>, previous: Option<Snapshot>, id: ServerId)
    requires view.status.serverId == id && forall v :: 0 <= v < |front| ==> front[v].status.serverId != id
    ensures Own(Combined(front + [view], rejected, previous), id) == Candidate(view, rejected, previous)
  {
    assert (front + [view])[..|front|] == front;
    OwnConcat(Combined(front, rejected, previous), Candidate(view, rejected, previous), id);
    CandidateSlice(view, rejected, previous, id);
    NothingElsewhere(front, rejected, previous, id);
  }

  lemma SliceFront(front: seq<View>, view: View, rejected: set<ServerId>, previous: Option<Snapshot>, id: ServerId)
    requires view.status.serverId != id
    ensures Own(Combined(front + [view], rejected, previous), id) == Own(Combined(front, rejected, previous), id)
  {
    assert (front + [view])[..|front|] == front;
    OwnConcat(Combined(front, rejected, previous), Candidate(view, rejected, previous), id);
    CandidateSlice(view, rejected, previous, id);
  }

  /** A server's slice of the combined catalog is exactly its own candidate. */
  lemma SliceOfCombined(views: seq<View>, rejected: set<ServerId>, previous: Option<Snapshot>, v: nat)
    requires DistinctIds(views) && v < |views|
    ensures Own(Combined(views, rejected, previous), views[v].status.serverId) == Candidate(views[v], rejected, previous)
  {
    SliceOfOnly(views, rejected, previous, v, views[v].status.serverId);
  }

  lemma {:induction false} SliceOfOnly(views: seq<View>, rejected: set<ServerId>, previous: Option<Snapshot>, v: nat, id: ServerId)
    requires v < |views| && views[v].status.serverId == id
    requires forall k :: 0 <= k < |views| && k != v ==> views[k].status.serverId != id
    ensures Own(Combined(views, rejected, previous), id) == Candidate(views[v], rejected, previous)
  {
    var n := |views| - 1;
    var front, last := views[..n], views[n];
    assert front + [last] == views;
    assert forall k :: 0 <= k < n ==> front[k] == views[k];
    if v == n {
      SliceLast(front, last, rejected, previous, id);
    } else {
      SliceFront(front, last, rejected, previous, id);
      SliceOfOnly(front, rejected, previous, v, id);
    }
  }

  ghost predicate KeepsOrAdvances(view: View, published: Snapshot, previous: Option<Snapshot>) {
    var slice := Own(published.catalog.tools, view.status.serverId);
    slice == view.catalog.tools ||
    (Changed(view, previous) && slice == Own(Previous(previous).tools, view.status.serverId))
  }

  /** A server whose tools did not change is published as it is. */
  ghost predicate Admitted(view: View, status: Status, published: Snapshot) {
    && Own(published.catalog.tools, view.status.serverId) == view.catalog.tools
    && status == view.status.(counts := CountsOf(view.catalog))
  }

  lemma PublishedServer(revision: nat, views: seq<View>, previous: Option<Snapshot>, v: nat)
    requires WellFormedViews(views) && Distinct(Previous(previous).tools) && v < |views|
    ensures var s := Aggregated(revision, views, previous);
            && |s.servers| == |views|
            && KeepsOrAdvances(views[v], s, previous)
            && (views[v].status.serverId !in Rejections(views, previous, {}) ==> Admitted(views[v], s.servers[v], s))
  {
    var rejected := Rejections(views, previous, {});
    RejectionsSettle(views, previous, {});
    MergeIsCombined(views, rejected, previous);
    StatusesByServer(views, rejected, previous);
    SliceOfCombined(views, rejected, previous, v);
    CandidateProperties(views[v], rejected, previous);
    if views[v].status.serverId in rejected {
      ChangedByServer(views, previous, v);
    }
  }

  lemma ChangedByServer(views: seq<View>, previous: Option<Snapshot>, v: nat)
    requires WellFormedViews(views) && v < |views|
    ensures views[v].status.serverId in ChangedServers(views, previous) <==> Changed(views[v], previous)
  {
  }

  /** Every published snapshot has pairwise distinct tool names; a server either publishes its new
      tools or keeps exactly its previous ones; and a server whose tools did not change is never
      rejected, so no peer can evict it. */
  lemma PublicationIsSound(revision: nat, views: seq<View>, previous: Option<Snapshot>)
    requires WellFormedViews(views) && Distinct(Previous(previous).tools)
    ensures var s := Aggregated(revision, views, previous);
            && s.revision == revision && |s.servers| == |views|
            && Distinct(s.catalog.tools)
            && (forall v :: 0 <= v < |views| ==> KeepsOrAdvances(views[v], s, previous))
            && (forall v :: 0 <= v < |views| && previous.Some?
                            && Own(previous.value.catalog.tools, views[v].status.serverId) == views[v].catalog.tools
                            ==> Admitted(views[v], s.servers[v], s))
  {
    RejectionsSettle(views, previous, {});
    var rejected := Rejections(views, previous, {});
    MergeIsCombined(views, rejected, previous);
    StatusesByServer(views, rejected, previous);
    forall v | 0 <= v < |views|
      ensures KeepsOrAdvances(views[v], Aggregated(revision, views, previous), previous)
      ensures !Changed(views[v], previous) ==>
                Admitted(views[v], Aggregated(revision, views, previous).servers[v], Aggregated(revision, views, previous))
    {
      PublishedServer(revision, views, previous, v);
      ChangedByServer(views, previous, v);
    }
  }

  lemma {:induction false} StatusesByServer(views: seq<View>, rejected: set<ServerId>, previous: Option<Snapshot>)
    ensures |Statuses(views, rejected, previous)| == |views|
    ensures forall v :: 0 <= v < |views| ==> Statuses(views, rejected, previous)[v] == StatusOf(views[v], rejected, previous)
  {
    if views != [] {
      StatusesByServer(views[..|views| - 1], rejected, previous);
    }
  }

  /** Every list of a well-formed server's catalog holds only its own items. */
  ghost predicate OwnsItems(view: View) {
    && (forall t :: t in view.catalog.tools ==> t.serverId == view.status.serverId)
    && (forall t :: t in view.catalog.prompts ==> t.serverId == view.status.serverId)
    && (forall t :: t in view.catalog.resources ==> t.serverId == view.status.serverId)
    && (forall t :: t in view.catalog.templates ==> t.serverId == view.status.serverId)
  }

  lemma SliceOfExtend(a: Catalog, b: Catalog, id: ServerId)
    ensures Slice(Extend(a, b), id) == Extend(Slice(a, id), Slice(b, id))
  {
    OwnConcat(a.tools, b.tools, id);
    OwnConcat(a.prompts, b.prompts, id);
    OwnConcat(a.resources, b.resources, id);
    OwnConcat(a.templates, b.templates, id);
  }

  lemma SliceOfPartition(view: View, rejected: set<ServerId>, previous: Option<Snapshot>, id: ServerId)
    requires OwnsItems(view)
    ensures Slice(Partition(view, rejected, previous), id) ==
            if id == view.status.serverId then Partition(view, rejected, previous) else EMPTY
  {
    var own := view.status.serverId;
    if own in rejected {
      var p := Previous(previous);
      OwnOwn(p.tools, id, own);
      OwnOwn(p.prompts, id, own);
      OwnOwn(p.resources, id, own);
      OwnOwn(p.templates, id, own);
    } else if id == own {
      OwnAll(view.catalog.tools, id);
      OwnAll(view.catalog.prompts, id);
      OwnAll(view.catalog.resources, id);
      OwnAll(view.catalog.templates, id);
    } else {
      OwnNone(view.catalog.tools, id);
      OwnNone(view.catalog.prompts, id);
      OwnNone(view.catalog.resources, id);
      OwnNone(view.catalog.templates, id);
    }
  }

  lemma {:induction false} MergeWithout(views: seq<View>, rejected: set<ServerId>, previous: Option<Snapshot>, id: ServerId)
    requires forall v :: 0 <= v < |views| ==> OwnsItems(views[v]) && views[v].status.serverId != id
    ensures Slice(Merge(views, rejected, previous), id) == EMPTY
  {
    if views != [] {
      var front, last := views[..|views| - 1], views[|views| - 1];
      MergeWithout(front, rejected, previous, id);
      SliceOfExtend(Merge(front, rejected, previous), Partition(last, rejected, previous), id);
      SliceOfPartition(last, rejected, previous, id);
    }
  }

  lemma {:induction false} SliceOfMerge(views: seq<View>, rejected: set<ServerId>, previous: Option<Snapshot>, v: nat)
    requires DistinctIds(views) && v < |views|
    requires forall i :: 0 <= i < |views| ==> OwnsItems(views[i])
    ensures Slice(Merge(views, rejected, previous), views[v].status.serverId) == Partition(views[v], rejected, previous)
  {
    var last := |views| - 1;
    var front, id := views[..last], views[v].status.serverId;
    SliceOfExtend(Merge(front, rejected, previous), Partition(views[last], rejected, previous), id);
    SliceOfPartition(views[last], rejected, previous, id);
    if v == last {
      MergeWithout(front, rejected, previous, id);
      ExtendEmpty(Partition(views[v], rejected, previous));
    } else {
      SliceOfMerge(front, rejected, previous, v);
      ExtendEmpty(Partition(views[v], rejected, previous));
    }
  }

  lemma ExtendEmpty(catalog: Catalog)
    ensures Extend(EMPTY, catalog) == catalog == Extend(catalog, EMPTY)
  {
  }

  /** The status a snapshot first lists for a server. */
  ghost predicate ListedAt(servers: seq<Status>, id: ServerId, i: int) {
    0 <= i < |servers| && servers[i].serverId == id && forall k :: 0 <= k < i ==> servers[k].serverId != id
  }

  lemma {:induction false} PriorIsListed(servers: seq<Status>, id: ServerId)
    ensures PriorStatus(servers, id).Some? ==> exists i :: ListedAt(servers, id, i) && servers[i] == PriorStatus(servers, id).value
    ensures forall i :: ListedAt(servers, id, i) ==> PriorStatus(servers, id) == Some(servers[i])
    ensures PriorStatus(servers, id).None? ==> forall i :: 0 <= i < |servers| ==> servers[i].serverId != id
  {
    if servers != [] {
      var rest := servers[1..];
      PriorIsListed(rest, id);
      assert forall i :: 0 <= i < |rest| ==> rest[i] == servers[i + 1];
      if servers[0].serverId == id {
        assert ListedAt(servers, id, 0);
      } else {
        if PriorStatus(rest, id).Some? {
          var i :| ListedAt(rest, id, i) && rest[i] == PriorStatus(rest, id).value;
          assert ListedAt(servers, id, i + 1);
        }
        forall i | ListedAt(servers, id, i)
          ensures PriorStatus(servers, id) == Some(servers[i])
        {
          assert ListedAt(rest, id, i - 1);
        }
      }
    }
  }

  /** What is published for a rejected server, by what the previous snapshot listed for it: it is Degraded
      exactly when it was Ready or Degraded, and Failed otherwise; it keeps the revisions listed there and
      has revision zero when nothing was; and it says why. */
  ghost predicate RejectedStatus(status: Status, listed: seq<Status>) {
    var id := status.serverId;
    && status.failure == Some("tool public names collide across MCP servers")
    && (status.state == Degraded <==> exists i :: ListedAt(listed, id, i) && listed[i].state in {Ready, Degraded})
    && (status.state != Degraded ==> status.state == Failed)
    && (forall i :: ListedAt(listed, id, i) ==> status.revisions == listed[i].revisions)
    && ((forall i :: 0 <= i < |listed| ==> listed[i].serverId != id) ==> status.revisions == 0)
  }

  lemma RejectedStatusOf(view: View, rejected: set<ServerId>, previous: Option<Snapshot>)
    requires view.status.serverId in rejected
    ensures RejectedStatus(StatusOf(view, rejected, previous), if previous.Some? then previous.value.servers else [])
  {
    var listed := if previous.Some? then previous.value.servers else [];
    PriorIsListed(listed, view.status.serverId);
  }

  /** A published status always describes the partition published with it: its counts are those of the
      server's own items in the merged catalog. A rejected server keeps its previous items and is listed as
      `RejectedStatus` says; every other one is listed with its own status. */
  lemma StatusesDescribeTheCatalog(revision: nat, views: seq<View>, previous: Option<Snapshot>, v: nat)
    requires WellFormedViews(views) && Distinct(Previous(previous).tools) && v < |views|
    requires forall i :: 0 <= i < |views| ==> OwnsItems(views[i])
    ensures var s := Aggregated(revision, views, previous);
            var id := views[v].status.serverId;
            && |s.servers| == |views| && s.servers[v].serverId == id && s.revision == revision
            && s.servers[v].counts == Counts(|Own(s.catalog.tools, id)|, |Own(s.catalog.prompts, id)|,
                                             |Own(s.catalog.resources, id)|, |Own(s.catalog.templates, id)|)
            && (if id in Rejections(views, previous, {}) then
                  && Slice(s.catalog, id) == Slice(Previous(previous), id)
                  && RejectedStatus(s.servers[v], if previous.Some? then previous.value.servers else [])
                else
                  Slice(s.catalog, id) == views[v].catalog
                  && s.servers[v] == views[v].status.(counts := s.servers[v].counts))
  {
    var rejected := Rejections(views, previous, {});
    SliceOfMerge(views, rejected, previous, v);
    StatusesByServer(views, rejected, previous);
    if views[v].status.serverId in rejected {
      RejectedStatusOf(views[v], rejected, previous);
    }
  }

  /** Nothing is rejected exactly when the new catalogs do not collide at all. */
  lemma RejectsOnlyCollisions(views: seq<View>, previous: Option<Snapshot>)
    requires WellFormedViews(views) && Distinct(Previous(previous).tools)
    ensures Rejections(views, previous, {}) == {} <==> Distinct(Combined(views, {}, previous))
  {
    NoClashIsDistinct(Combined(views, {}, previous));
    RejectionsSettle(views, previous, {});
  }

  /** With some servers rejected, one of the given server's candidate tools has the public name of another
      candidate tool. */
  ghost predicate NameTaken(views: seq<View>, rejected: set<ServerId>, previous: Option<Snapshot>, id: ServerId) {
    var all := Combined(views, rejected, previous);
    exists i, k :: 0 <= i < |all| && 0 <= k < |all| && i != k && all[i].serverId == id && all[i].publicName == all[k].publicName
  }

  lemma ClashingIsTaken(views: seq<View>, rejected: set<ServerId>, previous: Option<Snapshot>, id: ServerId)
    ensures id in Clashing(Combined(views, rejected, previous)) <==> NameTaken(views, rejected, previous, id)
  {
    var all := Combined(views, rejected, previous);
    if id in Clashing(all) {
      var i :| 0 <= i < |all| && Shared(all, i) && all[i].serverId == id;
      var k :| 0 <= k < |all| && k != i && all[k].publicName == all[i].publicName;
    }
    if NameTaken(views, rejected, previous, id) {
      var i, k :| 0 <= i < |all| && 0 <= k < |all| && i != k && all[i].serverId == id && all[i].publicName == all[k].publicName;
      assert Shared(all, i);
    }
  }

  /** One round of the loop. */
  lemma NextRound(views: seq<View>, previous: Option<Snapshot>, rejected: set<ServerId>) returns (additional: set<ServerId>)
    requires WellFormedViews(views) && Distinct(Previous(previous).tools) && rejected <= ChangedServers(views, previous)
    requires Rejections(views, previous, rejected) != rejected
    ensures additional == Additional(views, rejected, previous) && rejected + additional <= ChangedServers(views, previous)
    ensures Rejections(views, previous, rejected) == Rejections(views, previous, rejected + additional)
    ensures rejected + additional <= Rejections(views, previous, rejected)
    ensures |ChangedServers(views, previous) - (rejected + additional)| < |ChangedServers(views, previous) - rejected|
  {
    SomeChangedServerClashes(views, rejected, previous);
    additional := Additional(views, rejected, previous);
    SmallerSet(ChangedServers(views, previous), rejected, additional);
    RejectionsSettle(views, previous, rejected + additional);
  }

  /** No server is rejected without a cause: at the round it was rejected in, when only servers that stay
      rejected were, one of its tools had the public name of another candidate tool. */
  lemma {:induction false} RejectedForACollision(views: seq<View>, previous: Option<Snapshot>, rejected: set<ServerId>, id: ServerId)
    returns (earlier: set<ServerId>)
    requires WellFormedViews(views) && Distinct(Previous(previous).tools) && rejected <= ChangedServers(views, previous)
    requires id in Rejections(views, previous, rejected) && id !in rejected
    ensures rejected <= earlier <= Rejections(views, previous, rejected) && id !in earlier
    ensures NameTaken(views, earlier, previous, id)
    decreases |ChangedServers(views, previous) - rejected|
  {
    var additional := NextRound(views, previous, rejected);
    if id in additional {
      earlier := rejected;
      ClashingIsTaken(views, rejected, previous, id);
    } else {
      earlier := RejectedForACollision(views, previous, rejected + additional, id);
    }
  }

  /** And a server whose new tools collide outright, while its tools changed, is always rejected. */
  lemma OutrightCollisionIsRejected(views: seq<View>, previous: Option<Snapshot>, v: nat)
    requires WellFormedViews(views) && Distinct(Previous(previous).tools) && v < |views|
    requires previous.None? || Own(previous.value.catalog.tools, views[v].status.serverId) != views[v].catalog.tools
    requires NameTaken(views, {}, previous, views[v].status.serverId)
    ensures views[v].status.serverId in Rejections(views, previous, {})
  {
    var id := views[v].status.serverId;
    ClashingIsTaken(views, {}, previous, id);
    ChangedByServer(views, previous, v);
    FirstRound(views, previous, id);
  }

  lemma FirstRound(views: seq<View>, previous: Option<Snapshot>, id: ServerId)
    requires WellFormedViews(views) && Distinct(Previous(previous).tools)
    requires id in Clashing(Combined(views, {}, previous)) && id in ChangedServers(views, previous)
    ensures id in Rejections(views, previous, {})
  {
    RejectionsSettle(views, previous, {});
    NoClashIsDistinct(Combined(views, {}, previous));
    assert Rejections(views, previous, {}) != {};
    var additional := NextRound(views, previous, {});
    assert id in additional;
  }
}
