/** Plans instead of tool cards for `todo_write`, crates/acp/src/plan.rs, on the events that the mapper
    of crates/acp/src/mapping.rs turns into tool cards and plans, live and in replay. */
module TodoCards {
  import opened Wrappers

  const TODO_WRITE_TOOL := "todo_write"

  datatype TodoStatus = Pending | InProgress | Completed

  datatype Todo = Todo(content: string, activeForm: string, status: TodoStatus)

  datatype Details = PlanApproval(approved: bool, plan: Option<string>) | TodoList(todos: seq<Todo>) | Bash(output: string) | OtherDetails

  datatype Call = Call(id: string, name: string)

  /** The event payloads that concern tool calls; `Unrelated` carries any update that is neither a tool
      card nor a plan. */
  datatype Event =
    | AssistantEnd(text: string, calls: seq<Call>)
    | ResultEnd(callId: string, details: Option<Details>)
    | BashMessageEnd(messageId: string)
    | ToolStart(call: Call)
    | ToolUpdate(callId: string, details: Option<Details>)
    | ToolEnd(callId: string, details: Option<Details>)
    | UserBashStarted(messageId: string)
    | UserBashFinished(messageId: string, resultEmitted: bool)
    | Unrelated(messageEnd: bool, text: string)

  datatype Entry = Entry(text: string, status: TodoStatus)

  datatype PlanContent = Markdown(id: string, text: string) | Items(id: string, entries: seq<Entry>)

  datatype Update = Card(id: string) | Plan(content: PlanContent) | Terminal(id: string) | Plain(text: string)

  // ---------------------------------------------------------------- the mapper

  function EntryOf(todo: Todo): Entry {
    Entry(if todo.status == InProgress then todo.activeForm else todo.content, todo.status)
  }

  function Entries(todos: seq<Todo>): seq<Entry> {
    seq(|todos|, i requires 0 <= i < |todos| => EntryOf(todos[i]))
  }

  /** `PlanUpdateOf::update`. */
  function PlanOf(details: Option<Details>): seq<Update> {
    match details
    case Some(PlanApproval(true, Some(plan))) => [Plan(Markdown("plan-mode", plan))]
    case Some(TodoList(todos)) => [Plan(Items("todos", Entries(todos)))]
    case _ => []
  }

  predicate IsTodoList(details: Option<Details>) {
    details.Some? && details.value.TodoList?
  }

  predicate IsBash(details: Option<Details>) {
    details.Some? && details.value.Bash?
  }

  function Cards(calls: seq<Call>): (r: seq<Update>)
    ensures |r| == |calls| && forall i :: 0 <= i < |r| ==> r[i] == Card(calls[i].id)
  {
    seq(|calls|, i requires 0 <= i < |calls| => Card(calls[i].id))
  }

  function Updates(event: Event): seq<Update> {
    match event
    case AssistantEnd(text, calls) => [Plain(text)] + Cards(calls)
    case ResultEnd(id, details) =>
      if IsTodoList(details) then PlanOf(details)
      else if IsBash(details) then [Card(id), Terminal(id)]
      else [Card(id)] + PlanOf(details)
    case BashMessageEnd(id) => [Plain("user bash"), Card(id), Terminal(id)]
    case ToolStart(call) => if call.name == "bash" then [Card(call.id), Terminal(call.id)] else [Card(call.id)]
    case ToolUpdate(id, details) => if IsBash(details) then [Terminal(id)] else [Card(id)]
    case ToolEnd(id, details) =>
      if IsBash(details) then [Card(id), Terminal(id)] else if IsTodoList(details) then [] else [Card(id)]
    case UserBashStarted(id) => [Plain("running"), Card(id), Terminal(id)]
    case UserBashFinished(id, emitted) => if emitted then [Plain("idle")] else [Terminal(id), Card(id), Plain("idle")]
    case Unrelated(_, text) => [Plain(text)]
  }

  // ---------------------------------------------------------------- hiding

  /** The `todo_write` calls an event announces. */
  function Announced(event: Event): set<string> {
    match event
    case ToolStart(call) => if call.name == TODO_WRITE_TOOL then {call.id} else {}
    case AssistantEnd(_, calls) => set c | c in calls && c.name == TODO_WRITE_TOOL :: c.id
    case _ => {}
  }

  function Forgotten(event: Event): set<string> {
    if event.ResultEnd? then {event.callId} else {}
  }

  function Without(updates: seq<Update>, hidden: set<string>): seq<Update> {
    if updates == [] then []
    else
      var front := Without(updates[..|updates| - 1], hidden);
      var last := updates[|updates| - 1];
      if last.Card? && last.id in hidden then front else front + [last]
  }

  /** Tool calls kept off the tool cards. */
  class HiddenToolCalls {
    var ids: set<string>

    constructor ()
      ensures ids == {}
    {
      ids := {};
    }

    /** `apply`: announced calls are hidden before this event's updates, and forgotten after a result. */
    method Apply(event: Event, updates: seq<Update>) returns (kept: seq<Update>)
      modifies this
      ensures kept == Without(updates, old(ids) + Announced(event))
      ensures ids == old(ids) + Announced(event) - Forgotten(event)
    {
      if event.ToolStart? && event.call.name == TODO_WRITE_TOOL {
        ids := ids + {event.call.id};
      } else if event.AssistantEnd? {
        ids := ids + (set c | c in event.calls && c.name == TODO_WRITE_TOOL :: c.id);
      }
      assert ids == old(ids) + Announced(event);
      kept := updates;
      if ids != {} {
        kept := [];
        for i := 0 to |updates|
          invariant kept == Without(updates[..i], ids)
        {
          assert updates[..i + 1][..i] == updates[..i];
          if !(updates[i].Card? && updates[i].id in ids) {
            kept := kept + [updates[i]];
          }
        }
        assert updates[..|updates|] == updates;
      } else {
        WithoutNothing(updates);
      }
      if event.ResultEnd? {
        ids := ids - {event.callId};
      }
    }
  }

  lemma {:induction false} WithoutNothing(updates: seq<Update>)
    ensures Without(updates, {}) == updates
  {
    if updates != [] {
      WithoutNothing(updates[..|updates| - 1]);
      assert updates == updates[..|updates| - 1] + [updates[|updates| - 1]];
    }
  }

  function HiddenAfter(events: seq<Event>): set<string> {
    if events == [] then {}
    else
      var last := events[|events| - 1];
      HiddenAfter(events[..|events| - 1]) + Announced(last) - Forgotten(last)
  }

  /** What a client receives for the i-th event of a run. */
  function Delivered(events: seq<Event>, i: nat): seq<Update>
    requires i < |events|
  {
    Without(Updates(events[i]), HiddenAfter(events[..i]) + Announced(events[i]))
  }

  /** The live and replay loops: every event is mapped and filtered by one filter. */
  method Publish(events: seq<Event>) returns (sent: seq<seq<Update>>)
    ensures |sent| == |events| && forall i :: 0 <= i < |events| ==> sent[i] == Delivered(events, i)
  {
    var hidden := new HiddenToolCalls();
    sent := [];
    for i := 0 to |events|
      invariant |sent| == i && hidden.ids == HiddenAfter(events[..i])
      invariant forall k :: 0 <= k < i ==> sent[k] == Delivered(events, k)
    {
      assert events[..i + 1][..i] == events[..i];
      var updates := Updates(events[i]);
      var kept := hidden.Apply(events[i], updates);
      assert kept == Delivered(events, i);
      sent := sent + [kept];
    }
  }

  // ---------------------------------------------------------------- which cards escape

  /** The call was announced as `todo_write` by event j, and no result arrived since. */
  ghost predicate OpenSince(events: seq<Event>, id: string, j: int, end: nat) {
    0 <= j < end <= |events| && id in Announced(events[j]) && forall k :: j <= k < end ==> id !in Forgotten(events[k])
  }

  lemma AnnouncingNeverForgets(event: Event)
    ensures Announced(event) !! Forgotten(event)
  {
  }

  /** A call is hidden exactly while it is announced and its result message has not come. */
  lemma {:induction false} HiddenExactly(events: seq<Event>, id: string)
    ensures id in HiddenAfter(events) <==> exists j :: OpenSince(events, id, j, |events|)
  {
    if events != [] {
      var n := |events| - 1;
      var front := events[..n];
      HiddenExactly(front, id);
      AnnouncingNeverForgets(events[n]);
      if id in HiddenAfter(events) {
        if id in Announced(events[n]) {
          assert OpenSince(events, id, n, |events|);
        } else {
          var j :| OpenSince(front, id, j, |front|);
          assert OpenSince(events, id, j, |events|);
        }
      }
      if exists j :: OpenSince(events, id, j, |events|) {
        var j :| OpenSince(events, id, j, |events|);
        assert id !in Forgotten(events[n]);
        if j < n {
          assert OpenSince(front, id, j, |front|);
        }
      }
    }
  }

  lemma {:induction false} WithoutKeeps(updates: seq<Update>, hidden: set<string>, update: Update)
    ensures update in Without(updates, hidden) <==> update in updates && !(update.Card? && update.id in hidden)
  {
    if updates != [] {
      WithoutKeeps(updates[..|updates| - 1], hidden, update);
      assert updates == updates[..|updates| - 1] + [updates[|updates| - 1]];
    }
  }

  /** A tool card reaches the client exactly when its event has one and its call is not an open
      `todo_write`; every other update always reaches it. */
  lemma CardEscapesExactly(events: seq<Event>, i: nat, update: Update)
    requires i < |events|
    ensures update in Delivered(events, i) <==>
            update in Updates(events[i])
            && (update.Card? ==> update.id !in Announced(events[i]) && forall j :: !OpenSince(events, update.id, j, i))
  {
    WithoutKeeps(Updates(events[i]), HiddenAfter(events[..i]) + Announced(events[i]), update);
    if update.Card? {
      HiddenExactly(events[..i], update.id);
      forall j
        ensures OpenSince(events[..i], update.id, j, i) <==> OpenSince(events, update.id, j, i)
      {
      }
    }
  }

  ghost predicate HasCard(event: Event, id: string) {
    Card(id) in Updates(event)
  }

  /** A run in which a call is announced as `todo_write` before anything shows it and nothing shows it
      after its result message: no card for it reaches the client. */
  lemma NoTodoCard(events: seq<Event>, id: string, first: nat, i: nat)
    requires first < |events| && i < |events| && id in Announced(events[first])
    requires forall k :: 0 <= k < first ==> !HasCard(events[k], id)
    requires forall r, k :: first <= r < k < |events| && id in Forgotten(events[r]) ==> !HasCard(events[k], id)
    ensures Card(id) !in Delivered(events, i)
  {
    CardEscapesExactly(events, i, Card(id));
    if HasCard(events[i], id) && first < i {
      AnnouncingNeverForgets(events[first]);
      assert OpenSince(events, id, first, i);
    }
  }

  // ---------------------------------------------------------------- plans, live and replayed

  predicate IsMessageEnd(event: Event) {
    event.AssistantEnd? || event.ResultEnd? || event.BashMessageEnd? || (event.Unrelated? && event.messageEnd)
  }

  /** The persisted messages of a run, replayed as message ends. */
  function Replay(events: seq<Event>): seq<Event> {
    if events == [] then []
    else
      var front, last := Replay(events[..|events| - 1]), events[|events| - 1];
      if IsMessageEnd(last) then front + [last] else front
  }

  function PlansIn(updates: seq<Update>): seq<PlanContent> {
    if updates == [] then []
    else
      var front, last := PlansIn(updates[..|updates| - 1]), updates[|updates| - 1];
      if last.Plan? then front + [last.content] else front
  }

  /** Every plan a run publishes, in order. */
  function Plans(events: seq<Event>): seq<PlanContent> {
    if events == [] then []
    else
      var n := |events| - 1;
      Plans(events[..n]) + PlansIn(Delivered(events, n))
  }

  lemma {:induction false} PlansSurvive(updates: seq<Update>, hidden: set<string>)
    ensures PlansIn(Without(updates, hidden)) == PlansIn(updates)
  {
    if updates != [] {
      PlansSurvive(updates[..|updates| - 1], hidden);
      var front := Without(updates[..|updates| - 1], hidden);
      assert (front + [updates[|updates| - 1]])[..|front|] == front;
    }
  }

  lemma {:induction false} NoPlans(updates: seq<Update>)
    requires forall u :: u in updates ==> !u.Plan?
    ensures PlansIn(updates) == []
  {
    if updates != [] {
      NoPlans(updates[..|updates| - 1]);
    }
  }

  lemma OnlyMessagesPlan(event: Event)
    requires !IsMessageEnd(event)
    ensures forall u :: u in Updates(event) ==> !u.Plan?
  {
  }

  lemma DeliveredPlans(events: seq<Event>, i: nat)
    requires i < |events|
    ensures PlansIn(Delivered(events, i)) == PlansIn(Updates(events[i]))
    ensures !IsMessageEnd(events[i]) ==> PlansIn(Updates(events[i])) == []
  {
    PlansSurvive(Updates(events[i]), HiddenAfter(events[..i]) + Announced(events[i]));
    if !IsMessageEnd(events[i]) {
      OnlyMessagesPlan(events[i]);
      NoPlans(Updates(events[i]));
    }
  }

  /** The live run and a replay of its persisted messages publish the same plans in the same order. */
  lemma {:induction false} ReplayPublishesTheSamePlans(events: seq<Event>)
    ensures Plans(Replay(events)) == Plans(events)
  {
    if events != [] {
      var n := |events| - 1;
      var front := events[..n];
      ReplayPublishesTheSamePlans(front);
      DeliveredPlans(events, n);
      if IsMessageEnd(events[n]) {
        var replay := Replay(events);
        assert replay[..|replay| - 1] == Replay(front);
        DeliveredPlans(replay, |replay| - 1);
      }
    }
  }

  /** Every `todo_write` call that starts was announced by its assistant message and is still open. */
  ghost predicate StartsWereAnnounced(events: seq<Event>) {
    forall i :: 0 <= i < |events| && events[i].ToolStart? ==> Announced(events[i]) <= HiddenAfter(events[..i])
  }

  /** Then replay hides exactly the same calls. */
  lemma {:induction false} ReplayHides(events: seq<Event>)
    requires StartsWereAnnounced(events)
    ensures HiddenAfter(Replay(events)) == HiddenAfter(events)
  {
    if events != [] {
      var n := |events| - 1;
      PrefixAnnounced(events, n);
      ReplayHides(events[..n]);
      if IsMessageEnd(events[n]) {
        assert Replay(events)[..|Replay(events)| - 1] == Replay(events[..n]);
      }
    }
  }

  /** So each persisted message shows the same updates as live. */
  lemma ReplayHidesTheSameCalls(events: seq<Event>, i: nat)
    requires StartsWereAnnounced(events) && i < |events| && IsMessageEnd(events[i])
    ensures Shown(events, i)
  {
    PrefixAnnounced(events, i);
    ReplayHides(events[..i]);
    assert events[..i + 1][..i] == events[..i];
    var replay := Replay(events[..i + 1]);
    assert replay == Replay(events[..i]) + [events[i]];
    assert replay[..|replay| - 1] == Replay(events[..i]);
  }

  lemma PrefixAnnounced(events: seq<Event>, n: nat)
    requires n <= |events| && StartsWereAnnounced(events)
    ensures StartsWereAnnounced(events[..n])
  {
    assert forall i :: 0 <= i < n ==> events[..n][i] == events[i] && events[..n][..i] == events[..i];
  }

  /** Live and replay hide the same calls at every point of a run exactly when every `todo_write` call
      that starts was announced by its assistant message and is still open. */
  lemma ReplayHidesExactly(events: seq<Event>)
    ensures StartsWereAnnounced(events) <==> forall n :: 0 <= n <= |events| ==> SameHidden(events, n)
  {
    if StartsWereAnnounced(events) {
      forall n | 0 <= n <= |events|
        ensures SameHidden(events, n)
      {
        PrefixAnnounced(events, n);
        ReplayHides(events[..n]);
      }
    }
    if forall n :: 0 <= n <= |events| ==> SameHidden(events, n) {
      forall i | 0 <= i < |events| && events[i].ToolStart?
        ensures Announced(events[i]) <= HiddenAfter(events[..i])
      {
        assert SameHidden(events, i) && SameHidden(events, i + 1);
        assert events[..i + 1][..i] == events[..i];
      }
    }
  }

  ghost predicate SameHidden(events: seq<Event>, n: nat)
    requires n <= |events|
  {
    HiddenAfter(Replay(events[..n])) == HiddenAfter(events[..n])
  }

  /** The replay of the run up to a message ends with that message and shows it as the live run did. */
  ghost predicate Shown(events: seq<Event>, i: nat)
    requires i < |events|
  {
    var replay := Replay(events[..i + 1]);
    replay != [] && replay[|replay| - 1] == events[i] && Delivered(replay, |replay| - 1) == Delivered(events, i)
  }

  // ---------------------------------------------------------------- what the updates show

  /** Which events have a tool card for a call: its announcement, its start, its updates and end except a
      bash update or the end of a todo list, its result unless that is a todo list, and a user's shell. */
  lemma CardsExactly(event: Event, id: string)
    ensures Card(id) in Updates(event) <==>
            match event
            case AssistantEnd(_, calls) => exists c :: c in calls && c.id == id
            case ToolStart(call) => call.id == id
            case ToolUpdate(callId, details) => callId == id && !(details.Some? && details.value.Bash?)
            case ToolEnd(callId, details) => callId == id && !(details.Some? && details.value.TodoList?)
            case ResultEnd(callId, details) => callId == id && !(details.Some? && details.value.TodoList?)
            case BashMessageEnd(messageId) => messageId == id
            case UserBashStarted(messageId) => messageId == id
            case UserBashFinished(messageId, emitted) => messageId == id && !emitted
            case Unrelated(_, _) => false
  {
    if event.AssistantEnd? {
      var cards := Cards(event.calls);
      if c :| c in event.calls && c.id == id {
        var i :| 0 <= i < |event.calls| && event.calls[i] == c;
        assert cards[i] == Card(id);
      }
    } else if event.ResultEnd? && !IsTodoList(event.details) {
      assert Card(id) !in PlanOf(event.details);
    }
  }

  /** A call is announced by its start or by the assistant message that makes it, when it calls `todo_write`,
      and forgotten with its result message. */
  lemma AnnouncedExactly(event: Event, id: string)
    ensures id in Announced(event) <==>
            || (event.ToolStart? && event.call == Call(id, "todo_write"))
            || (event.AssistantEnd? && Call(id, "todo_write") in event.calls)
    ensures id in Forgotten(event) <==> event.ResultEnd? && event.callId == id
  {
    if event.AssistantEnd? && id in Announced(event) {
      var c :| c in event.calls && c.name == TODO_WRITE_TOOL && c.id == id;
      assert c == Call(id, "todo_write");
    }
    if event.AssistantEnd? && Call(id, "todo_write") in event.calls {
      var c := Call(id, "todo_write");
      assert c in event.calls && c.name == TODO_WRITE_TOOL;
    }
  }

  /** Which events show terminal output: a bash call's start, updates, end and result, and a user's shell. */
  lemma TerminalsExactly(event: Event, id: string)
    ensures Terminal(id) in Updates(event) <==>
            match event
            case ToolStart(call) => call.id == id && call.name == "bash"
            case ToolUpdate(callId, details) => callId == id && details.Some? && details.value.Bash?
            case ToolEnd(callId, details) => callId == id && details.Some? && details.value.Bash?
            case ResultEnd(callId, details) => callId == id && details.Some? && details.value.Bash?
            case BashMessageEnd(messageId) => messageId == id
            case UserBashStarted(messageId) => messageId == id
            case UserBashFinished(messageId, emitted) => messageId == id && !emitted
            case _ => false
  {
    if event.ResultEnd? {
      assert Terminal(id) !in PlanOf(event.details);
    }
  }

  /** What a plan shows for one todo: the active form while it is in progress, its content otherwise. */
  predicate ShowsTodo(entry: Entry, todo: Todo) {
    && entry.status == todo.status
    && (todo.status == InProgress ==> entry.text == todo.activeForm)
    && (todo.status != InProgress ==> entry.text == todo.content)
  }

  /** A run publishes a plan exactly with the result message of an approved plan or a todo list, whatever is
      hidden: the plan's own text, or one entry for each todo in order. */
  lemma PlansExactly(events: seq<Event>, i: nat)
    requires i < |events|
    ensures var plans := PlansIn(Delivered(events, i));
            match events[i]
            case ResultEnd(_, Some(PlanApproval(true, Some(plan)))) => plans == [Markdown("plan-mode", plan)]
            case ResultEnd(_, Some(TodoList(todos))) =>
              |plans| == 1 && plans[0].Items? && plans[0].id == "todos" && |plans[0].entries| == |todos|
              && forall k :: 0 <= k < |todos| ==> ShowsTodo(plans[0].entries[k], todos[k])
            case _ => plans == []
  {
    DeliveredPlans(events, i);
    var updates := Updates(events[i]);
    match events[i]
    case ResultEnd(id, details) =>
      PlansOfResult(id, details);
    case AssistantEnd(_, _) => NoPlans(updates);
    case BashMessageEnd(_) => NoPlans(updates);
    case Unrelated(_, _) => NoPlans(updates);
    case _ =>
  }

  lemma PlansOfResult(id: string, details: Option<Details>)
    ensures var plans := PlansIn(Updates(ResultEnd(id, details)));
            match details
            case Some(PlanApproval(true, Some(plan))) => plans == [Markdown("plan-mode", plan)]
            case Some(TodoList(todos)) => plans == [Items("todos", Entries(todos))]
            case _ => plans == []
  {
    var updates := Updates(ResultEnd(id, details));
    match details
    case Some(PlanApproval(true, Some(plan))) =>
      assert updates[..1] == [Card(id)] && PlansIn(updates[..1]) == PlansIn([Card(id)][..0]);
      assert updates == updates[..1] + [Plan(Markdown("plan-mode", plan))];
    case Some(TodoList(todos)) => assert updates[..0] == [];
    case _ => NoPlans(updates);
  }
}
