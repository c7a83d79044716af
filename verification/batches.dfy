/** The delete statements of a prune, in their order: every reference is closed after each batch. */
module Batches {
  import opened Model
  import opened Scopes
  import opened RemoteWork
  import opened Invariants
  import opened BoardSteps
  import opened Pruning
  import opened Units

  /** The foreign keys of the schema that a prune could break. */
  ghost predicate ForeignKeys(s: Scope) {
    && (forall id :: id in s.messages && s.messages[id].responseTo.Some? ==> s.messages[id].responseTo.value in s.messages)
    && (forall c :: c in s.correlations ==> s.correlations[c].task in s.remoteTasks && c in s.messages)
    && (forall c :: c in s.correlations && s.correlations[c].response.Some? ==> s.correlations[c].response.value in s.messages)
    && (forall id :: id in s.progress ==> id in s.tasks)
  }

  datatype Table = RemoteTaskTable | MessageTable | TaskTable

  /** DELETE FROM table WHERE id IN (...), with the cascades of the schema. */
  function Without(s: Scope, table: Table, ids: set<Id>): Scope {
    match table
    case RemoteTaskTable => s.(remoteTasks := s.remoteTasks - ids, correlations := KeptWork(s.correlations, ids))
    case MessageTable => s.(messages := s.messages - ids)
    case TaskTable => s.(tasks := s.tasks - ids, progress := s.progress - ids)
  }

  function Replies(s: Scope, ids: set<Id>): set<Id> {
    set id | id in ids && id in s.messages && s.messages[id].mode == Response
  }

  /** A point of the sequence of batches: what each of the four lists has lost so far. */
  datatype Point = Point(remoteTasks: set<Id>, replies: set<Id>, requests: set<Id>, tasks: set<Id>)

  /** Batches run in order: remote tasks, replies, the other messages, tasks. */
  ghost predicate InOrder(s: Scope, plan: Plan, at: Point) {
    && at.remoteTasks <= plan.remoteTasks && at.replies <= Replies(s, plan.messages)
    && at.requests <= plan.messages - Replies(s, plan.messages) && at.tasks <= plan.tasks
    && (at.replies + at.requests != {} ==> at.remoteTasks == plan.remoteTasks)
    && (at.requests != {} ==> at.replies == Replies(s, plan.messages))
  }

  function At(s: Scope, at: Point): Scope {
    Remove(s, Plan(at.remoteTasks, at.replies + at.requests, at.tasks))
  }

  lemma RepliesClosed(s: Scope, plan: Plan, at: Point, id: Id)
    requires Threads(s.messages) && WholeThreads(s, plan) && InOrder(s, plan, at)
    requires id in s.messages && s.messages[id].responseTo.Some? && id !in at.replies + at.requests
    ensures s.messages[id].responseTo.value in s.messages && s.messages[id].responseTo.value !in at.replies + at.requests
  {
    var r := s.messages[id].responseTo.value;
    ThreadOf(s.messages, id);
    assert r !in Replies(s, plan.messages);
  }

  lemma WorkClosed(s: Scope, plan: Plan, at: Point, c: Id)
    requires Threads(s.messages) && RemoteRows(s) && WholeThreads(s, plan) && WholeUnits(s, plan) && InOrder(s, plan, at)
    requires c in s.correlations && s.correlations[c].task !in at.remoteTasks
    ensures c in s.messages && c !in at.replies + at.requests && s.correlations[c].task in s.remoteTasks
    ensures s.correlations[c].response.Some? ==> s.correlations[c].response.value in s.messages && s.correlations[c].response.value !in at.replies + at.requests
  {
    assert CorrelationRow(s, c);
    if s.correlations[c].response.Some? {
      assert RepliedWell(s.messages, c);
    }
  }

  /** What a prune does not take refers only to what it does not take. */
  ghost predicate KeptAreWhole(t: Scope, plan: Plan) {
    && (forall id :: id in t.messages && id !in plan.messages ==> RefersInside(t.messages, plan, t.messages[id].responseTo) && RefersInside(t.messages, plan, t.messages[id].response))
    && (forall id, d :: id in t.tasks && id !in plan.tasks && d in t.tasks[id].dependencies ==> d in t.tasks && d !in plan.tasks)
    && (forall c :: c in t.correlations && t.correlations[c].task !in plan.remoteTasks ==>
          t.correlations[c].task in t.remoteTasks && c in t.messages && c !in plan.messages && RefersInside(t.messages, plan, t.correlations[c].response))
  }

  predicate RefersInside(messages: map<Id, Message>, plan: Plan, reference: Option<Id>) {
    reference.Some? ==> reference.value in messages && reference.value !in plan.messages
  }

  lemma KeptMessage(s: Scope, plan: Plan, id: Id)
    requires Threads(s.messages) && WholeThreads(s, plan) && id in s.messages && id !in plan.messages
    ensures RefersInside(s.messages, plan, s.messages[id].responseTo) && RefersInside(s.messages, plan, s.messages[id].response)
  {
    assert RepliesWell(s.messages, id) && RepliedWell(s.messages, id);
    if s.messages[id].response.Some? {
      assert RepliesWell(s.messages, s.messages[id].response.value);
    }
  }

  lemma KeptTask(s: Scope, plan: Plan, id: Id, d: Id)
    requires Board(s.tasks) && WholeBoards(s, plan) && id in s.tasks && id !in plan.tasks && d in s.tasks[id].dependencies
    ensures d in s.tasks && d !in plan.tasks
  {
  }

  lemma KeptCorrelation(s: Scope, plan: Plan, c: Id)
    requires Threads(s.messages) && RemoteRows(s) && WholeThreads(s, plan) && WholeUnits(s, plan)
    requires c in s.correlations && s.correlations[c].task !in plan.remoteTasks
    ensures s.correlations[c].task in s.remoteTasks && c in s.messages && c !in plan.messages && RefersInside(s.messages, plan, s.correlations[c].response)
  {
    assert CorrelationRow(s, c);
    KeptMessage(s, plan, c);
  }

  lemma BoardOfScope(s: Scope)
    requires Inv(s)
    ensures Board(s.tasks)
  {
  }

  /** Wherever the sequence of batches stands, no foreign key dangles, and what the prune keeps, whether or not the
      schema has a key for it, refers only to what it keeps. */
  lemma EveryBatchIsClosed(s: Scope, plan: Plan, at: Point)
    requires Inv(s) && ClosedPlan(s, plan) && InOrder(s, plan, at)
    ensures ForeignKeys(At(s, at)) && KeptAreWhole(At(s, at), plan)
  {
    hide Core, Threads, RemoteRows, WholeThreads, WholeUnits, WholeBoards, InOrder, RefersInside, Board;
    var t := At(s, at);
    forall id | id in t.messages && t.messages[id].responseTo.Some? ensures t.messages[id].responseTo.value in t.messages {
      RepliesClosed(s, plan, at, id);
    }
    forall c | c in t.correlations
      ensures t.correlations[c].task in t.remoteTasks && c in t.messages
      ensures t.correlations[c].response.Some? ==> t.correlations[c].response.value in t.messages
    {
      WorkClosed(s, plan, at, c);
    }
    LogAndProgress(s);
    KeptThroughout(s, plan, at);
  }

  lemma KeptThroughout(s: Scope, plan: Plan, at: Point)
    requires Inv(s) && ClosedPlan(s, plan) && InOrder(s, plan, at)
    ensures KeptAreWhole(At(s, at), plan)
  {
    hide Core, Threads, RemoteRows, WholeThreads, WholeUnits, WholeBoards, RefersInside, Board;
    var t := At(s, at);
    BoardOfScope(s);
    forall id | id in t.messages && id !in plan.messages
      ensures RefersInside(t.messages, plan, t.messages[id].responseTo) && RefersInside(t.messages, plan, t.messages[id].response) {
      KeptMessage(s, plan, id);
      StillThere(s, plan, at, t.messages[id].responseTo);
      StillThere(s, plan, at, t.messages[id].response);
    }
    forall id, d | id in t.tasks && id !in plan.tasks && d in t.tasks[id].dependencies ensures d in t.tasks && d !in plan.tasks {
      KeptTask(s, plan, id, d);
    }
    forall c | c in t.correlations && t.correlations[c].task !in plan.remoteTasks
      ensures t.correlations[c].task in t.remoteTasks && c in t.messages && c !in plan.messages && RefersInside(t.messages, plan, t.correlations[c].response) {
      KeptCorrelation(s, plan, c);
      StillThere(s, plan, at, s.correlations[c].response);
    }
  }

  lemma StillThere(s: Scope, plan: Plan, at: Point, reference: Option<Id>)
    requires InOrder(s, plan, at) && RefersInside(s.messages, plan, reference)
    ensures RefersInside(At(s, at).messages, plan, reference)
  {
    assert Replies(s, plan.messages) <= plan.messages;
  }

  // ---- batches compose -----------------------------------------------------------------------

  lemma WithoutRemote(s: Scope, a: set<Id>, ids: set<Id>)
    ensures Without(At(s, Point(a, {}, {}, {})), RemoteTaskTable, ids) == At(s, Point(a + ids, {}, {}, {}))
  {
    var t, u := Without(At(s, Point(a, {}, {}, {})), RemoteTaskTable, ids), At(s, Point(a + ids, {}, {}, {}));
    assert t.correlations == u.correlations;
    assert t.remoteTasks == u.remoteTasks;
  }

  lemma WithoutReplies(s: Scope, a: set<Id>, b: set<Id>, ids: set<Id>)
    ensures Without(At(s, Point(a, b, {}, {})), MessageTable, ids) == At(s, Point(a, b + ids, {}, {}))
  {
    assert s.messages - (b + {}) - ids == s.messages - (b + ids + {});
  }

  lemma WithoutRequests(s: Scope, a: set<Id>, b: set<Id>, c: set<Id>, ids: set<Id>)
    ensures Without(At(s, Point(a, b, c, {})), MessageTable, ids) == At(s, Point(a, b, c + ids, {}))
  {
    assert s.messages - (b + c) - ids == s.messages - (b + (c + ids));
  }

  lemma WithoutTasks(s: Scope, a: set<Id>, b: set<Id>, c: set<Id>, d: set<Id>, ids: set<Id>)
    ensures Without(At(s, Point(a, b, c, d)), TaskTable, ids) == At(s, Point(a, b, c, d + ids))
  {
    assert s.tasks - d - ids == s.tasks - (d + ids);
    assert s.progress - d - ids == s.progress - (d + ids);
  }

  lemma NothingYet(s: Scope)
    ensures At(s, Point({}, {}, {}, {})) == s
  {
    assert KeptWork(s.correlations, {}) == s.correlations;
    assert s.messages - ({} + {}) == s.messages;
  }

  /** After the last batch exactly the plan has been removed. */
  lemma AllBatches(s: Scope, plan: Plan)
    requires plan.messages <= s.messages.Keys
    ensures At(s, Point(plan.remoteTasks, Replies(s, plan.messages), plan.messages - Replies(s, plan.messages), plan.tasks)) == Remove(s, plan)
  {
    assert Replies(s, plan.messages) + (plan.messages - Replies(s, plan.messages)) == plan.messages;
  }

  /** However many rows of one list have gone, the references are closed. */
  ghost predicate StaysClosed(s: Scope, table: Table, ids: seq<Id>) {
    forall n :: 0 <= n <= |ids| ==> ForeignKeys(Without(s, table, Elements(ids[..n])))
  }

  lemma SomeOf(ids: seq<Id>, n: nat)
    requires n <= |ids|
    ensures Elements(ids[..n]) <= Elements(ids)
  {
  }

  lemma RemoteStaysClosed(s: Scope, plan: Plan, units: seq<Id>)
    requires Inv(s) && ClosedPlan(s, plan) && Elements(units) == plan.remoteTasks
    ensures StaysClosed(s, RemoteTaskTable, units)
    ensures Without(s, RemoteTaskTable, plan.remoteTasks) == At(s, Point(plan.remoteTasks, {}, {}, {}))
  {
    hide Inv, ClosedPlan, At, Without, ForeignKeys, Elements;
    NothingYet(s);
    WithoutRemote(s, {}, plan.remoteTasks);
    assert {} + plan.remoteTasks == plan.remoteTasks;
    forall n | 0 <= n <= |units| ensures ForeignKeys(Without(s, RemoteTaskTable, Elements(units[..n]))) {
      SomeOf(units, n);
      WithoutRemote(s, {}, Elements(units[..n]));
      assert {} + Elements(units[..n]) == Elements(units[..n]);
      EveryBatchIsClosed(s, plan, Point(Elements(units[..n]), {}, {}, {}));
    }
  }

  lemma RepliesStayClosed(s: Scope, plan: Plan, replies: seq<Id>)
    requires Inv(s) && ClosedPlan(s, plan) && Elements(replies) == Replies(s, plan.messages)
    ensures var t := At(s, Point(plan.remoteTasks, {}, {}, {}));
            StaysClosed(t, MessageTable, replies)
            && Without(t, MessageTable, Elements(replies)) == At(s, Point(plan.remoteTasks, Elements(replies), {}, {}))
  {
    hide Inv, ClosedPlan, At, Without, ForeignKeys, Elements, Replies;
    var t := At(s, Point(plan.remoteTasks, {}, {}, {}));
    WithoutReplies(s, plan.remoteTasks, {}, Elements(replies));
    assert {} + Elements(replies) == Elements(replies);
    forall n | 0 <= n <= |replies| ensures ForeignKeys(Without(t, MessageTable, Elements(replies[..n]))) {
      SomeOf(replies, n);
      WithoutReplies(s, plan.remoteTasks, {}, Elements(replies[..n]));
      assert {} + Elements(replies[..n]) == Elements(replies[..n]);
      EveryBatchIsClosed(s, plan, Point(plan.remoteTasks, Elements(replies[..n]), {}, {}));
    }
  }

  lemma RequestsStayClosed(s: Scope, plan: Plan, requests: seq<Id>)
    requires Inv(s) && ClosedPlan(s, plan) && Elements(requests) == plan.messages - Replies(s, plan.messages)
    ensures var t := At(s, Point(plan.remoteTasks, Replies(s, plan.messages), {}, {}));
            StaysClosed(t, MessageTable, requests)
            && Without(t, MessageTable, Elements(requests)) == At(s, Point(plan.remoteTasks, Replies(s, plan.messages), Elements(requests), {}))
  {
    hide Inv, ClosedPlan, At, Without, ForeignKeys, Elements, Replies;
    var replies := Replies(s, plan.messages);
    var t := At(s, Point(plan.remoteTasks, replies, {}, {}));
    WithoutRequests(s, plan.remoteTasks, replies, {}, Elements(requests));
    assert {} + Elements(requests) == Elements(requests);
    forall n | 0 <= n <= |requests| ensures ForeignKeys(Without(t, MessageTable, Elements(requests[..n]))) {
      SomeOf(requests, n);
      WithoutRequests(s, plan.remoteTasks, replies, {}, Elements(requests[..n]));
      assert {} + Elements(requests[..n]) == Elements(requests[..n]);
      EveryBatchIsClosed(s, plan, Point(plan.remoteTasks, replies, Elements(requests[..n]), {}));
    }
  }

  lemma TasksStayClosed(s: Scope, plan: Plan, tasks: seq<Id>)
    requires Inv(s) && ClosedPlan(s, plan) && Elements(tasks) == plan.tasks
    ensures var t := At(s, Point(plan.remoteTasks, Replies(s, plan.messages), plan.messages - Replies(s, plan.messages), {}));
            StaysClosed(t, TaskTable, tasks) && Without(t, TaskTable, Elements(tasks)) == Remove(s, plan)
  {
    hide Inv, WholeThreads, WholeUnits, WholeBoards, At, Without, ForeignKeys, Elements, Replies, Remove;
    var replies, requests := Replies(s, plan.messages), plan.messages - Replies(s, plan.messages);
    var t := At(s, Point(plan.remoteTasks, replies, requests, {}));
    WithoutTasks(s, plan.remoteTasks, replies, requests, {}, Elements(tasks));
    assert {} + Elements(tasks) == Elements(tasks);
    AllBatches(s, plan);
    forall n | 0 <= n <= |tasks| ensures ForeignKeys(Without(t, TaskTable, Elements(tasks[..n]))) {
      SomeOf(tasks, n);
      WithoutTasks(s, plan.remoteTasks, replies, requests, {}, Elements(tasks[..n]));
      assert {} + Elements(tasks[..n]) == Elements(tasks[..n]);
      EveryBatchIsClosed(s, plan, Point(plan.remoteTasks, replies, requests, Elements(tasks[..n])));
    }
  }
}
