/** A prune removes whole threads, whole remote units and detached tasks, and keeps every reference closed. */
module Pruning {
  import opened Model
  import opened Logs
  import opened Scopes
  import opened RemoteWork
  import opened Totals
  import opened Invariants
  import opened Rows
  import opened Sweeps
  import opened BoardSteps
  import opened InboxSteps
  import opened Retention

  // ---- messages ------------------------------------------------------------------------------

  predicate TerminalBefore(m: Message, before: Time) {
    match m.state
    case Acknowledged => m.acknowledgedAt.Some? && m.acknowledgedAt.value < before
    case Expired => m.expiresAt.Some? && m.expiresAt.value < before
    case _ => false
  }

  /** An old request that is over: answered by an old response, or expired before anyone saw it. */
  predicate Settled(messages: map<Id, Message>, before: Time, id: Id) {
    && id in messages && messages[id].mode == Request && TerminalBefore(messages[id], before)
    && match messages[id].response
       case None => messages[id].state == Expired && messages[id].deliveredAt.None?
       case Some(r) => r in messages && messages[r].mode == Response && messages[r].responseTo == Some(id) && TerminalBefore(messages[r], before)
  }

  /** The message that decides whether a message goes: a response goes with its request. */
  function Lead(m: Message, id: Id): Id {
    if m.mode == Response && m.responseTo.Some? then m.responseTo.value else id
  }

  predicate Prunable(messages: map<Id, Message>, before: Time, id: Id) {
    && id in messages
    && match messages[id].mode
       case Notify => TerminalBefore(messages[id], before)
       case Request => Settled(messages, before, id)
       case Response =>
         && messages[id].responseTo.Some? && Settled(messages, before, messages[id].responseTo.value)
         && messages[messages[id].responseTo.value].response == Some(id)
  }

  function MessageCandidates(messages: map<Id, Message>, before: Time): set<Id> {
    set id | id in messages && Prunable(messages, before, id)
  }

  /** The candidates that the rows seen so far account for. */
  ghost function CandidatesIn(messages: map<Id, Message>, before: Time, rows: seq<Id>): set<Id> {
    set id | id in messages && Prunable(messages, before, id) && Lead(messages[id], id) in rows
  }

  /** bus/storage.go retentionMessageCandidates, over the rows in any order. */
  method FindMessages(messages: map<Id, Message>, before: Time, rows: seq<Id>) returns (candidates: set<Id>)
    requires Lists(rows, messages.Keys)
    ensures candidates == MessageCandidates(messages, before)
  {
    candidates := {};
    for i := 0 to |rows|
      invariant candidates == CandidatesIn(messages, before, rows[..i])
    {
      var id := rows[i];
      assert id in rows && rows[..i + 1] == rows[..i] + [id];
      var m := messages[id];
      OneMoreLead(messages, before, rows[..i], id);
      if TerminalBefore(m, before) && m.mode != Response {
        match m.mode
        case Notify => candidates := candidates + {id};
        case Request =>
          if m.response.None? {
            if m.state == Expired && m.deliveredAt.None? {
              candidates := candidates + {id};
            }
          } else if m.response.value in messages {
            var response := messages[m.response.value];
            if response.mode == Response && response.responseTo == Some(id) && TerminalBefore(response, before) {
              candidates := candidates + {id, m.response.value};
            }
          }
      }
    }
    assert rows[..|rows|] == rows;
    forall id | id in messages && Prunable(messages, before, id) ensures Lead(messages[id], id) in rows {
    }
  }

  /** What one more row adds. */
  lemma OneMoreLead(messages: map<Id, Message>, before: Time, rows: seq<Id>, id: Id)
    requires id in messages
    ensures CandidatesIn(messages, before, rows + [id]) ==
            CandidatesIn(messages, before, rows)
            + (if messages[id].mode == Notify && TerminalBefore(messages[id], before) then {id}
               else if Settled(messages, before, id) then
                 (match messages[id].response case None => {id} case Some(r) => {id, r})
               else {})
  {
  }

  // ---- remote units --------------------------------------------------------------------------

  function CorrelationsOf(s: Scope, task: Id): set<Id> {
    set c | c in s.correlations && s.correlations[c].task == task
  }

  /** A remote task's bus requests and the responses to them. */
  predicate InUnit(s: Scope, task: Id, id: Id) {
    exists c :: c in s.correlations && s.correlations[c].task == task && (id == c || s.correlations[c].response == Some(id))
  }

  /** An ended old task goes only with all of its messages. */
  predicate UnitRemovable(s: Scope, before: Time, candidates: set<Id>, task: Id) {
    && task in s.remoteTasks && Terminal(s.remoteTasks[task].state) && s.remoteTasks[task].updatedAt < before
    && (forall c :: c in s.correlations && s.correlations[c].task == task ==> c in candidates)
    && (forall c :: c in s.correlations && s.correlations[c].task == task && s.correlations[c].response.Some? ==> s.correlations[c].response.value in candidates)
  }

  function RemovableUnits(s: Scope, before: Time, candidates: set<Id>): set<Id> {
    set task | task in s.remoteTasks && UnitRemovable(s, before, candidates, task)
  }

  /** The candidates that no kept remote task still needs. */
  function Unclaimed(s: Scope, units: set<Id>, candidates: set<Id>): set<Id> {
    set id | id in candidates && forall task :: task in s.remoteTasks && task !in units ==> !InUnit(s, task, id)
  }

  // ---- the plan ------------------------------------------------------------------------------

  datatype Plan = Plan(remoteTasks: set<Id>, messages: set<Id>, tasks: set<Id>)

  ghost function PlanFor(s: Scope, before: Time): Plan {
    var candidates := MessageCandidates(s.messages, before);
    var units := RemovableUnits(s, before, candidates);
    Plan(units, Unclaimed(s, units, candidates), TaskCandidates(s.tasks, before))
  }

  function KeptWork(correlations: map<Id, Correlation>, tasks: set<Id>): map<Id, Correlation> {
    map c | c in correlations && correlations[c].task !in tasks :: correlations[c]
  }

  function GoneWork(correlations: map<Id, Correlation>, tasks: set<Id>): set<Id> {
    set c | c in correlations && correlations[c].task in tasks
  }

  /** Correlations go with their remote task, progress rows with their task. */
  function Remove(s: Scope, plan: Plan): Scope {
    s.(remoteTasks := s.remoteTasks - plan.remoteTasks,
       correlations := KeptWork(s.correlations, plan.remoteTasks),
       messages := s.messages - plan.messages,
       tasks := s.tasks - plan.tasks,
       progress := s.progress - plan.tasks)
  }

  datatype Counts = Counts(remoteTasks: nat, remoteMessages: nat, messages: nat, tasks: nat, progress: nat, events: nat)

  function ProgressCount(progress: map<Id, seq<Progress>>): Id -> nat {
    (id: Id) => if id in progress then |progress[id]| else 0
  }

  ghost function CountsOf(s: Scope, plan: Plan, before: Time): Counts {
    Counts(|plan.remoteTasks|, |GoneWork(s.correlations, plan.remoteTasks)|, |plan.messages|, |plan.tasks|,
           Total(ProgressCount(s.progress), plan.tasks), CountPruned(s.log.events, PruneFloor(s.log, before)))
  }

  function Refreshed(s: Scope, world: World): Scope {
    ReleaseStale(Expire(s, world.tick(0), world), world.tick(1), world)
  }

  /** bus/storage.go PruneScope. A dry run reports the same counts and removes nothing. */
  ghost function Prune(s: Scope, before: Time, execute: bool, world: World): (Scope, Counts) {
    var s1 := Refreshed(s, world);
    var plan := PlanFor(s1, before);
    (if execute then Remove(s1, plan).(log := PruneLog(s1.log, before)) else s1, CountsOf(s1, plan, before))
  }

  // ---- the plan is closed --------------------------------------------------------------------

  /** A response goes if and only if its request does. */
  ghost predicate WholeThreads(s: Scope, plan: Plan) {
    forall id :: id in s.messages && s.messages[id].responseTo.Some? ==> (id in plan.messages <==> s.messages[id].responseTo.value in plan.messages)
  }

  /** A remote task goes if and only if each of its requests does. */
  ghost predicate WholeUnits(s: Scope, plan: Plan) {
    forall c :: c in s.correlations ==> (s.correlations[c].task in plan.remoteTasks <==> c in plan.messages)
  }

  /** No kept task depends on a removed one. */
  ghost predicate WholeBoards(s: Scope, plan: Plan) {
    forall id, d :: id in s.tasks && id !in plan.tasks && d in s.tasks[id].dependencies ==> d !in plan.tasks
  }

  ghost predicate ClosedPlan(s: Scope, plan: Plan) {
    && plan.messages <= s.messages.Keys && plan.tasks <= s.tasks.Keys && plan.remoteTasks <= s.remoteTasks.Keys
    && WholeThreads(s, plan) && WholeUnits(s, plan) && WholeBoards(s, plan)
  }

  /** A response belongs to a unit exactly when its request does. */
  lemma UnitsHoldThreads(s: Scope, task: Id, id: Id)
    requires Threads(s.messages) && RemoteRows(s) && id in s.messages && s.messages[id].responseTo.Some?
    ensures InUnit(s, task, id) <==> InUnit(s, task, s.messages[id].responseTo.value)
  {
    var r := s.messages[id].responseTo.value;
    assert RepliesWell(s.messages, id);
    if InUnit(s, task, r) {
      var c :| c in s.correlations && s.correlations[c].task == task && (r == c || s.correlations[c].response == Some(r));
      assert CorrelationRow(s, c) && RepliedWell(s.messages, c) && RepliesWell(s.messages, r);
    }
    if InUnit(s, task, id) {
      var c :| c in s.correlations && s.correlations[c].task == task && (id == c || s.correlations[c].response == Some(id));
      assert CorrelationRow(s, c) && RepliedWell(s.messages, c);
    }
  }

  lemma ThreadsGoWhole(s: Scope, before: Time)
    requires Threads(s.messages) && RemoteRows(s)
    ensures WholeThreads(s, PlanFor(s, before))
  {
    hide Threads, RemoteRows, InUnit, TaskCandidates;
    forall id | id in s.messages && s.messages[id].responseTo.Some?
      ensures id in PlanFor(s, before).messages <==> s.messages[id].responseTo.value in PlanFor(s, before).messages
    {
      ThreadOf(s.messages, id);
      forall task ensures InUnit(s, task, id) <==> InUnit(s, task, s.messages[id].responseTo.value) {
        UnitsHoldThreads(s, task, id);
      }
    }
  }

  lemma ThreadOf(messages: map<Id, Message>, id: Id)
    requires Threads(messages) && id in messages && messages[id].responseTo.Some?
    ensures var r := messages[id].responseTo.value;
            messages[id].mode == Response && r in messages && messages[r].mode == Request && messages[r].response == Some(id)
  {
    assert RepliesWell(messages, id);
  }

  /** A bus request belongs to the unit of its own remote task and to no other. */
  lemma OneUnit(s: Scope, c: Id, task: Id)
    requires Threads(s.messages) && RemoteRows(s) && c in s.correlations
    ensures InUnit(s, task, c) <==> task == s.correlations[c].task
  {
    assert CorrelationRow(s, c) && RepliesWell(s.messages, c);
    if InUnit(s, task, c) {
      var x :| x in s.correlations && s.correlations[x].task == task && (c == x || s.correlations[x].response == Some(c));
      assert CorrelationRow(s, x) && RepliedWell(s.messages, x);
    }
  }

  lemma UnitsGoWhole(s: Scope, before: Time)
    requires Threads(s.messages) && RemoteRows(s)
    ensures WholeUnits(s, PlanFor(s, before))
  {
    hide Threads, RemoteRows, InUnit, TaskCandidates, MessageCandidates;
    forall c | c in s.correlations
      ensures s.correlations[c].task in PlanFor(s, before).remoteTasks <==> c in PlanFor(s, before).messages
    {
      TaskExists(s, c);
      forall task ensures InUnit(s, task, c) <==> task == s.correlations[c].task {
        OneUnit(s, c, task);
      }
    }
  }

  lemma TaskExists(s: Scope, c: Id)
    requires RemoteRows(s) && c in s.correlations
    ensures s.correlations[c].task in s.remoteTasks && c in s.messages
  {
    assert CorrelationRow(s, c);
  }

  lemma BoardsGoWhole(s: Scope, before: Time)
    requires forall id, d :: id in s.tasks && d in s.tasks[id].dependencies ==> d in s.tasks
    ensures WholeBoards(s, PlanFor(s, before)) && PlanFor(s, before).tasks <= s.tasks.Keys
  {
    var ids := TaskCandidates(s.tasks, before);
    CandidatesAreLargest(s.tasks, before, {});
    forall id, d | id in s.tasks && id !in ids && d in s.tasks[id].dependencies ensures d !in ids {
      assert [d][1..] == [];
      assert DependsVia(s.tasks, d, [], d);
      assert DependsVia(s.tasks, id, [d], d);
    }
  }

  /** Whatever the scope and the cutoff, the plan leaves no reference dangling. */
  lemma PlanIsClosed(s: Scope, before: Time)
    requires Inv(s)
    ensures ClosedPlan(s, PlanFor(s, before))
  {
    hide TaskCandidates, MessageRows, ReservationRows, KeysUnique, AgentRows, TaskRows, Agreement, LogOk, LinkRows, Threads, RemoteRows, ProgressRows, Acyclic;
    ThreadsGoWhole(s, before);
    UnitsGoWhole(s, before);
    forall id | id in s.tasks ensures Resolved(s.tasks, id) {
    }
    BoardsGoWhole(s, before);
  }

  // ---- what a prune never takes --------------------------------------------------------------

  /** A prune takes only messages that are over, and never a request that was delivered and still has no answer. */
  lemma NeverTakesOpenWork(s: Scope, before: Time, id: Id)
    requires id in PlanFor(s, before).messages
    ensures id in s.messages && !Live(s.messages[id].state) && TerminalBefore(s.messages[id], before)
    ensures s.messages[id].mode == Request && s.messages[id].deliveredAt.Some? ==> s.messages[id].response.Some?
  {
  }

  // ---- removing keeps the invariant ----------------------------------------------------------

  lemma RemoveThreads(s: Scope, plan: Plan)
    requires Threads(s.messages) && WholeThreads(s, plan)
    ensures Threads(Remove(s, plan).messages)
  {
    var after := Remove(s, plan).messages;
    forall id | id in after ensures RepliesWell(after, id) && RepliedWell(after, id) {
      assert RepliesWell(s.messages, id) && RepliedWell(s.messages, id);
      if s.messages[id].response.Some? {
        assert s.messages[s.messages[id].response.value].responseTo == Some(id);
      }
    }
  }

  lemma RemoveRemote(s: Scope, plan: Plan)
    requires RemoteRows(s) && WholeUnits(s, plan)
    ensures RemoteRows(Remove(s, plan))
  {
    var t := Remove(s, plan);
    forall c | c in t.correlations ensures CorrelationRow(t, c) {
      assert CorrelationRow(s, c);
    }
  }

  lemma RemoveBoard(s: Scope, plan: Plan)
    requires Board(s.tasks) && WholeBoards(s, plan)
    ensures Board(Remove(s, plan).tasks)
  {
    var after := Remove(s, plan).tasks;
    var rank: map<Id, nat> :| Ranks(rank, s.tasks);
    assert Ranks(rank, after);
    forall id | id in after ensures Resolved(after, id) {
      assert Resolved(s.tasks, id);
    }
  }

  lemma FewerMessages(s: Scope, ids: set<Id>)
    requires MessageRows(s.messages, s.reservations, s.agents) && KeysUnique(s.messages)
    ensures MessageRows(s.messages - ids, s.reservations, s.agents) && KeysUnique(s.messages - ids)
  {
    hide Stamped, HeldBy, Ends;
  }

  lemma FewerTasks(s: Scope, ids: set<Id>)
    requires TaskRows(s.tasks, s.agents, {}) && ProgressRows(s.progress, s.tasks, s.agents)
    ensures TaskRows(s.tasks - ids, s.agents, {}) && ProgressRows(s.progress - ids, s.tasks - ids, s.agents)
  {
    hide TaskRow;
  }

  lemma RemoveRows(s: Scope, plan: Plan)
    requires Core(s, {})
    ensures var t := Remove(s, plan);
            && MessageRows(t.messages, t.reservations, t.agents) && KeysUnique(t.messages) && TaskRows(t.tasks, t.agents, {})
            && ProgressRows(t.progress, t.tasks, t.agents) && Agreement(t) && Handed(t)
  {
    hide MessageRows, KeysUnique, TaskRows, ProgressRows, Agrees, ReservationRows, AgentRows, Board, LogOk, LinkRows;
    FewerMessages(s, plan.messages);
    FewerTasks(s, plan.tasks);
  }

  lemma RemoveEvolves(s: Scope, plan: Plan)
    ensures Evolves(s, Remove(s, plan))
  {
  }

  lemma RemoveKeeps(s: Scope, plan: Plan)
    requires Inv(s) && ClosedPlan(s, plan)
    ensures Keeps(s, Remove(s, plan))
  {
    hide MessageRows, KeysUnique, ReservationRows, AgentRows, TaskRows, Board, ProgressRows, Agreement, LogOk, LinkRows, Threads, RemoteRows, Evolves,
         WholeThreads, WholeUnits, WholeBoards, Handed;
    RemoveThreads(s, plan);
    RemoveRemote(s, plan);
    RemoveBoard(s, plan);
    RemoveRows(s, plan);
    RemoveEvolves(s, plan);
  }

  lemma PruneLogKeeps(s: Scope, before: Time)
    requires Inv(s)
    ensures Keeps(s, s.(log := PruneLog(s.log, before)))
  {
    hide Core, Evolves, Threads, RemoteRows, PruneLog;
    var t := s.(log := PruneLog(s.log, before));
    PrunedCore(s, before);
    LogOf(s, {});
    PrunedLog(s.log, before);
    EvolvesLog(s, t);
    KeepRemote(s, t);
  }

  lemma PrunedLog(log: Log, before: Time)
    requires LogOk(log)
    ensures LogOk(PruneLog(log, before)) && LogEvolved(log, PruneLog(log, before))
  {
    hide Covers, Bounded, PruneLog, LogEvolved;
    PruneLogCovers(log, before);
    ActEvolves(log, Prunes(before));
  }

  lemma PrunedCore(s: Scope, before: Time)
    requires Core(s, {})
    ensures Core(s.(log := PruneLog(s.log, before)), {})
  {
    hide MessageRows, KeysUnique, ReservationRows, AgentRows, TaskRows, Board, ProgressRows, LinkRows, Agrees, Covers, Bounded, PruneLog, LogEvolved;
    var t := s.(log := PruneLog(s.log, before));
    PrunedLog(s.log, before);
    forall id | id in s.messages ensures Agrees(t.log, MessageSubject(id), MessageState(s.messages[id].state)) {
      PruneLogAgrees(s.log, before, MessageSubject(id), MessageState(s.messages[id].state));
    }
    forall id | id in s.tasks ensures Agrees(t.log, TaskSubject(id), TaskStatus(s.tasks[id].status)) {
      PruneLogAgrees(s.log, before, TaskSubject(id), TaskStatus(s.tasks[id].status));
    }
    forall id | id in s.remoteTasks ensures Agrees(t.log, RemoteSubject(id), RemoteTaskState(s.remoteTasks[id].state)) {
      PruneLogAgrees(s.log, before, RemoteSubject(id), RemoteTaskState(s.remoteTasks[id].state));
    }
  }

  lemma RefreshedKeeps(s: Scope, world: World)
    requires Inv(s)
    ensures Keeps(s, Refreshed(s, world))
  {
    hide Between, Evolves, Expire, ReleaseStale;
    ExpireKeeps(s, world.tick(0), world, {});
    var s1 := Expire(s, world.tick(0), world);
    ReleaseStaleKeeps(s1, world.tick(1), world, {});
    KeepsThen(s, s1, Refreshed(s, world));
  }

  /** A prune at any cutoff keeps the invariant: what it leaves refers to nothing that it removed. */
  lemma PruneKeeps(s: Scope, before: Time, execute: bool, world: World)
    requires Inv(s)
    ensures Keeps(s, Prune(s, before, execute, world).0)
  {
    hide Inv, Keeps, Refreshed, Remove, PlanFor, PruneLog;
    var s1 := Refreshed(s, world);
    RefreshedKeeps(s, world);
    KeptInvariant(s, s1);
    if execute {
      var s2 := Remove(s1, PlanFor(s1, before));
      PlanIsClosed(s1, before);
      RemoveKeeps(s1, PlanFor(s1, before));
      KeptInvariant(s1, s2);
      RemoveKeepsLog(s1, PlanFor(s1, before));
      PruneLogKeeps(s2, before);
      KeepsThen(s1, s2, s2.(log := PruneLog(s1.log, before)));
      KeepsThen(s, s1, s2.(log := PruneLog(s1.log, before)));
    }
  }

  lemma KeptInvariant(s: Scope, t: Scope)
    requires Keeps(s, t)
    ensures Inv(t)
  {
  }

  lemma RemoveKeepsLog(s: Scope, plan: Plan)
    ensures Remove(s, plan).log == s.log
  {
  }

  // ---- the reported counts -------------------------------------------------------------------

  /** Everything a map loses with a set of its keys. */
  lemma SizeAfter<T>(rows: map<Id, T>, ids: set<Id>)
    requires ids <= rows.Keys
    ensures |rows - ids| == |rows| - |ids|
  {
    assert (rows - ids).Keys == rows.Keys - ids;
    assert |rows - ids| == |(rows - ids).Keys|;
  }

  lemma CorrelationsAfter(correlations: map<Id, Correlation>, tasks: set<Id>)
    ensures |correlations| == |KeptWork(correlations, tasks)| + |GoneWork(correlations, tasks)|
  {
    var kept, gone := KeptWork(correlations, tasks), GoneWork(correlations, tasks);
    assert kept.Keys == correlations.Keys - gone;
    assert gone <= correlations.Keys;
    assert |correlations.Keys| == |correlations| && |kept.Keys| == |kept|;
  }

  lemma ProgressAfter(s: Scope, plan: Plan)
    requires plan.tasks <= s.tasks.Keys && s.progress.Keys == s.tasks.Keys
    ensures Total(ProgressCount(s.progress), s.progress.Keys)
         == Total(ProgressCount(Remove(s, plan).progress), Remove(s, plan).progress.Keys) + Total(ProgressCount(s.progress), plan.tasks)
  {
    var kept := Remove(s, plan).progress;
    assert s.progress.Keys == kept.Keys + plan.tasks;
    TotalAdds(ProgressCount(s.progress), kept.Keys, plan.tasks);
    TotalGrows(ProgressCount(s.progress), kept.Keys, ProgressCount(kept), kept.Keys);
    TotalGrows(ProgressCount(kept), kept.Keys, ProgressCount(s.progress), kept.Keys);
  }

  lemma RemovedCounts(s: Scope, plan: Plan)
    requires Inv(s) && ClosedPlan(s, plan)
    ensures var t := Remove(s, plan);
            && |s.messages| == |t.messages| + |plan.messages|
            && |s.tasks| == |t.tasks| + |plan.tasks|
            && |s.remoteTasks| == |t.remoteTasks| + |plan.remoteTasks|
            && |s.correlations| == |t.correlations| + |GoneWork(s.correlations, plan.remoteTasks)|
            && Total(ProgressCount(s.progress), s.progress.Keys) == Total(ProgressCount(t.progress), t.progress.Keys) + Total(ProgressCount(s.progress), plan.tasks)
  {
    hide Inv, WholeThreads, WholeUnits, WholeBoards, KeptWork, GoneWork, Total;
    SizeAfter(s.messages, plan.messages);
    SizeAfter(s.tasks, plan.tasks);
    SizeAfter(s.remoteTasks, plan.remoteTasks);
    CorrelationsAfter(s.correlations, plan.remoteTasks);
    LogAndProgress(s);
    ProgressAfter(s, plan);
  }

  /** What a prune reports is what it removed, cascades included. */
  lemma CountsAreExact(s: Scope, before: Time, world: World)
    requires Inv(s)
    ensures var s1 := Refreshed(s, world);
            var (t, counts) := Prune(s, before, true, world);
            && |s1.messages| == |t.messages| + counts.messages
            && |s1.tasks| == |t.tasks| + counts.tasks
            && |s1.remoteTasks| == |t.remoteTasks| + counts.remoteTasks
            && |s1.correlations| == |t.correlations| + counts.remoteMessages
            && Total(ProgressCount(s1.progress), s1.progress.Keys) == Total(ProgressCount(t.progress), t.progress.Keys) + counts.progress
            && |s1.log.events| == |t.log.events| + counts.events
  {
    hide Inv, Keeps, PlanFor, Refreshed, PruneLog, PruneFloor, ClosedPlan, KeptWork, GoneWork, Total, Covers, Remove;
    var s1 := Refreshed(s, world);
    RefreshedKeeps(s, world);
    KeptInvariant(s, s1);
    PlanIsClosed(s1, before);
    RemovedCounts(s1, PlanFor(s1, before));
    LogAndProgress(s1);
    PruneLogCovers(s1.log, before);
  }

  lemma LogAndProgress(s: Scope)
    requires Inv(s)
    ensures Covers(s.log) && s.progress.Keys == s.tasks.Keys
  {
  }
}
