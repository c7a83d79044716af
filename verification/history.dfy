/** What whole runs promise: fencing of ended executions, write-once records, agreement of the log with
    the tables, one answer to each request. */
module History {
  import opened Model
  import opened Logs
  import opened Scopes
  import opened RemoteWork
  import opened Invariants
  import opened Rows
  import opened Sweeps
  import opened BoardSteps
  import opened InboxSteps
  import opened ExecutionSteps
  import opened RemoteSteps
  import opened Runs

  // ---- fencing -------------------------------------------------------------------------------

  /** An execution that was handed out and no longer owns its agent at any time from now on. */
  ghost predicate Ended(s: Scope, caller: Caller) {
    && caller.agent in s.agents && caller.execution in s.issued
    && (s.agents[caller.agent].execution == caller.execution ==> s.agents[caller.agent].leaseExpiresAt <= s.clock)
  }

  lemma EndedStays(s: Scope, t: Scope, caller: Caller)
    requires Ended(s, caller) && Evolves(s, t)
    ensures Ended(t, caller)
  {
    assert AgentEvolved(s.agents[caller.agent], t.agents[caller.agent], s.clock, s.issued);
  }

  /** Once ended, an execution is ended in every later scope of the run. */
  lemma EndedForever(s: Scope, before: seq<Turn>, after: seq<Turn>, caller: Caller)
    requires Inv(s) && Unfolds(s, before + after) && Ended(Run(s, before), caller)
    ensures Ended(Run(s, before + after), caller)
  {
    hide Inv, Evolves, Run, Unfolds, Ended;
    LaterEvolves(s, before, after);
    EndedStays(Run(s, before), Run(s, before + after), caller);
  }

  /** The execution on whose behalf an operation runs. */
  function Actor(op: Op): Option<Caller> {
    match op
    case Beat(caller, _, _, _) => Some(caller)
    case Send(caller, _) => Some(caller)
    case Reserve(caller, _) => Some(caller)
    case Commit(caller, _) => Some(caller)
    case Free(caller, _) => Some(caller)
    case Acknowledge(caller, _) => Some(caller)
    case Inspect(caller, _) => Some(caller)
    case Add(creator, _, _) => creator
    case Claim(caller, _) => Some(caller)
    case Complete(caller, _, _) => Some(caller)
    case Reopen(caller, _) => Some(caller)
    case Report(caller, _, _) => Some(caller)
    case _ => None
  }

  /** The operation is refused for want of a current execution. */
  ghost predicate TurnedAway(s: Scope, op: Op, world: World) {
    match op
    case Beat(caller, lifecycle, ready, lease) => Heartbeat(s, caller, lifecycle, ready, lease, world).result == Refused(Unauthenticated)
    case Send(caller, input) => SendMessage(s, caller, input, world).result == Refused(Unauthenticated)
    case Reserve(caller, limit) => ReserveInbox(s, caller, limit, world).result == Refused(Unauthenticated)
    case Commit(caller, reservation) => CommitInbox(s, caller, reservation, world).result == Refused(Unauthenticated)
    case Free(caller, reservation) => ReleaseInbox(s, caller, reservation, world).result == Refused(Unauthenticated)
    case Acknowledge(caller, ids) => AcknowledgeMessages(s, caller, ids, world).result == Refused(Unauthenticated)
    case Inspect(caller, message) => Receipt(s, caller, message, world).result == Refused(Unauthenticated)
    case Add(creator, title, dependencies) => AddTask(s, creator, title, dependencies, world).result == Refused(Unauthenticated)
    case Claim(caller, task) => ClaimTask(s, caller, task, world).result == Refused(Unauthenticated)
    case Complete(caller, task, note) => CompleteTask(s, caller, task, note, world).result == Refused(Unauthenticated)
    case Reopen(caller, task) => ReleaseTask(s, caller, task, world).result == Refused(Unauthenticated)
    case Report(caller, task, text) => AddTaskProgress(s, caller, task, text, world).result == Refused(Unauthenticated)
    case Retire(token) => RetireAgent(s, token, world).result == Refused(Unauthenticated)
    case _ => false
  }

  lemma EndedReadsNothing(s: Scope, caller: Caller, op: Op, world: World)
    requires !Current(s, caller, world.tick(0)) && Actor(op) == Some(caller)
    requires op.Reserve? || op.Commit? || op.Free? || op.Acknowledge? || op.Inspect?
    ensures Apply(s, op, world) == s && TurnedAway(s, op, world)
  {
    hide Tidied, Expire, Current, Release, DeliverRows, AcknowledgeRows;
  }

  lemma EndedDoesNothing(s: Scope, caller: Caller, op: Op, world: World)
    requires !Current(s, caller, world.tick(0)) && Actor(op) == Some(caller)
    requires op.Add? || op.Claim? || op.Complete? || op.Reopen? || op.Report?
    ensures Apply(s, op, world) == s && TurnedAway(s, op, world)
  {
    hide ReleaseStale, Current, MoveTask, Unfinished;
  }

  lemma EndedSaysNothing(s: Scope, caller: Caller, op: Op, world: World)
    requires !Current(s, caller, world.tick(0)) && Actor(op) == Some(caller) && (op.Beat? || op.Send?)
    ensures Apply(s, op, world) == s && TurnedAway(s, op, world)
  {
    hide SendIn, Current;
  }

  /** Whatever an ended execution asks for as the caller is refused, and nothing changes. */
  lemma EndedCannotAct(s: Scope, op: Op, world: World)
    requires Actor(op).Some? && Ended(s, Actor(op).value) && Fair(world, s.clock, s.issued)
    ensures Apply(s, op, world) == s && TurnedAway(s, op, world)
  {
    hide Apply, TurnedAway;
    var caller := Actor(op).value;
    if op.Beat? || op.Send? {
      EndedSaysNothing(s, caller, op, world);
    } else if op.Reserve? || op.Commit? || op.Free? || op.Acknowledge? || op.Inspect? {
      EndedReadsNothing(s, caller, op, world);
    } else {
      EndedDoesNothing(s, caller, op, world);
    }
  }

  /** Every live reservation was made by the execution that its agent has now. */
  lemma ReservationsAreCurrent(s: Scope, r: Id)
    requires Inv(s) && r in s.reservations
    ensures s.reservations[r].agent in s.agents && s.agents[s.reservations[r].agent].execution == s.reservations[r].maker
    ensures s.agents[s.reservations[r].agent].leaseExpiresAt != 0
  {
  }

  /** A commit looks up its reservation by agent alone; that it succeeds still means that the calling
      execution made the reservation. */
  lemma CommitIsByTheMaker(s: Scope, caller: Caller, reservation: Id, world: World)
    requires Inv(s) && CommitInbox(s, caller, reservation, world).result.Ok?
    ensures reservation in s.reservations && s.reservations[reservation].maker == caller.execution
  {
    hide Expire, DeliverRows, Inv;
    ReservationsAreCurrent(s, reservation);
  }

  /** No reservation and no claim is left to an agent. */
  ghost predicate HoldsNothing(s: Scope, agent: Id) {
    && (forall r :: r in s.reservations ==> s.reservations[r].agent != agent)
    && (forall t :: t in s.tasks && s.tasks[t].status == Claimed ==> s.tasks[t].claimedBy != Some(agent))
  }

  /** A claim in a good scope is by an execution that was handed out. */
  lemma ClaimsAreOld(s: Scope, id: Id)
    requires Inv(s) && id in s.tasks && s.tasks[id].status == Claimed
    ensures s.tasks[id].claimedExecution.Some? && s.tasks[id].claimedExecution.value in s.issued
  {
    TaskFacts(s, {}, id);
  }

  lemma TakeOverClaims(s: Scope, agent: Id, row: AgentRow, world: World)
    requires Inv(s) && row.execution !in s.issued && row.token !in s.issued && 0 <= row.leaseExpiresAt && Fair(world, s.clock, s.issued)
    ensures var t := TakeOver(s, agent, row, world);
            forall id :: id in t.tasks && t.tasks[id].status == Claimed ==> id in s.tasks && t.tasks[id] == s.tasks[id]
  {
    hide Inv, Between, Evolves, ReleaseEach, ReleaseStale, Reowns, Dispossessed;
    var s1 := s.(agents := s.agents[agent := row], issued := s.issued + {row.execution, row.token});
    TakeOverBetween(s, agent, row);
    var rows := world.order(ReservationsOf(s1, agent));
    ReleaseAllOf(s1, agent, 1, world, {agent});
    ReleaseStaleKeeps(ReleaseEach(s1, rows, 1, world), world.tick(1 + |rows|), world, {agent});
  }

  lemma TakeOverBetween(s: Scope, agent: Id, row: AgentRow)
    requires Inv(s) && row.execution !in s.issued && row.token !in s.issued && 0 <= row.leaseExpiresAt
    ensures Between(s.(agents := s.agents[agent := row], issued := s.issued + {row.execution, row.token}), {agent})
  {
    hide Core, Threads, RemoteRows, Reowns, Evolves;
    TakeOverReowns(s, agent, row);
    ReownsKeeps(s, s.agents[agent := row], s.issued + {row.execution, row.token}, {agent});
  }

  /** A registration leaves nothing with the execution it replaces. */
  lemma RegisterClearsOut(s: Scope, input: RegisterInput, world: World)
    requires Inv(s) && Fair(world, s.clock, s.issued) && input.lease > 0
    requires RegisterAgent(s, input, world).result.Ok?
    ensures var out := RegisterAgent(s, input, world);
            HoldsNothing(out.scope, out.result.value.agent) && out.result.value.agent in out.scope.agents
            && out.scope.agents[out.result.value.agent].execution == out.result.value.execution
  {
    hide Inv, Evolves, Append, TakeOver, Reachable, Unique, AppendAll, LinkEvents, PairsWith, Keeps;
    ClockIsPositive(s);
    var now := world.tick(0);
    var agent := if input.agent.Some? then input.agent.value else world.mint(2);
    var row := AgentRow(world.mint(0), world.mint(1), Starting, false, now + input.lease, now, now);
    TakeOverKeeps(s, agent, row, world);
    TakeOverClaims(s, agent, row, world);
    var t := TakeOver(s, agent, row, world);
    forall id | id in t.tasks && t.tasks[id].status == Claimed ensures t.tasks[id].claimedBy != Some(agent) {
      ClaimsAreOld(s, id);
    }
  }

  /** A retirement that ends an execution leaves it nothing, and its lease at zero. */
  lemma RetireClearsOut(s: Scope, token: Id, world: World)
    requires Inv(s) && Fair(world, s.clock, s.issued) && RetireAgent(s, token, world).result.Ok?
    ensures var out := RetireAgent(s, token, world);
            && HoldsNothing(out.scope, out.result.value.agent)
            && Ended(out.scope, out.result.value)
            && out.scope.agents[out.result.value.agent].leaseExpiresAt == 0
  {
    hide Inv, Evolves, Append, ReleaseEach, ReleaseStale, Dispossessed, Keeps, HoldsNothing;
    var holders := world.order(Holders(s, token));
    var agent := holders[0];
    ClockIsPositive(s);
    AgentIssued(s, agent);
    if s.agents[agent].leaseExpiresAt == 0 {
      AlreadyAtRest(s, agent);
    } else {
      var s1 := s.(agents := s.agents[agent := Rested(s.agents[agent], world.tick(0))]);
      RestBetween(s, agent, world.tick(0));
      ClearedOut(s1, agent, world);
      var rows := world.order(ReservationsOf(s1, agent));
      var s2 := ReleaseStale(ReleaseEach(s1, rows, 1, world), world.tick(1 + |rows|), world);
      RestedHoldsNothing(s2, agent, world.tick(1 + |rows|));
      SameTables(s2, RetireAgent(s, token, world).scope, agent);
    }
  }

  lemma AgentIssued(s: Scope, agent: Id)
    requires Inv(s) && agent in s.agents
    ensures s.agents[agent].execution in s.issued
  {
  }

  lemma AlreadyAtRest(s: Scope, agent: Id)
    requires Inv(s) && agent in s.agents && s.agents[agent].leaseExpiresAt == 0
    ensures HoldsNothing(s, agent)
  {
    hide MessageRows, KeysUnique, AgentRows, Board, ProgressRows, Agreement, LogOk, LinkRows, RemoteRows, Threads;
    forall id | id in s.tasks && s.tasks[id].status == Claimed ensures s.tasks[id].claimedBy != Some(agent) {
      assert TaskRow(s.tasks[id], s.agents, {});
    }
  }

  lemma RestBetween(s: Scope, agent: Id, now: Time)
    requires Inv(s) && agent in s.agents
    ensures Between(s.(agents := s.agents[agent := Rested(s.agents[agent], now)]), {agent})
  {
    hide Core, Threads, RemoteRows, Reowns, Evolves;
    RestReowns(s, agent, now);
    ReownsKeeps(s, s.agents[agent := Rested(s.agents[agent], now)], s.issued, {agent});
    assert s.(agents := s.agents[agent := Rested(s.agents[agent], now)], issued := s.issued) == s.(agents := s.agents[agent := Rested(s.agents[agent], now)]);
  }

  lemma RestedHoldsNothing(s: Scope, agent: Id, now: Time)
    requires Dispossessed(s, agent, now) && agent in s.agents && s.agents[agent].leaseExpiresAt == 0 && 0 <= now
    ensures HoldsNothing(s, agent)
  {
  }

  lemma SameTables(s: Scope, t: Scope, agent: Id)
    requires HoldsNothing(s, agent) && t.reservations == s.reservations && t.tasks == s.tasks
    ensures HoldsNothing(t, agent)
  {
  }

  /** A token rotation ends every execution at once. */
  lemma RotationEndsAll(s: Scope, caller: Caller, world: World)
    requires Inv(s) && Fair(world, s.clock, s.issued)
    ensures var t := RotateScopeToken(s, world);
            && HoldsNothing(t, caller.agent)
            && (caller.agent in t.agents && caller.execution in t.issued ==> Ended(t, caller))
  {
    hide Inv, Keeps, RotateScopeToken;
    RotateScopeTokenKeeps(s, world);
    KeptInv2(s, RotateScopeToken(s, world));
  }

  lemma KeptInv2(s: Scope, t: Scope)
    requires Inv(s) && Keeps(s, t)
    ensures 0 <= t.clock && Inv(t)
  {
  }

  // ---- messages ------------------------------------------------------------------------------

  /** Requests and responses pair off one to one: each end names the other, the participants are
      swapped, and the request had been delivered. */
  lemma OneAnswer(s: Scope, request: Id, response: Id)
    requires Inv(s)
    ensures request in s.messages && s.messages[request].response == Some(response)
            <==> response in s.messages && s.messages[response].responseTo == Some(request)
    ensures request in s.messages && s.messages[request].response == Some(response) ==>
            && response in s.messages && s.messages[request].mode == Request && s.messages[response].mode == Response
            && s.messages[response].from == s.messages[request].to && s.messages[response].to == s.messages[request].from
            && s.messages[request].deliveredAt.Some? && s.messages[request].repliedAt.Some?
  {
    hide Core, RemoteRows;
    assert request in s.messages ==> RepliedWell(s.messages, request);
    assert response in s.messages ==> RepliesWell(s.messages, response);
  }

  /** A message is reserved exactly when it names a live reservation of its recipient. */
  lemma ReservedIsHeld(s: Scope, id: Id)
    requires Inv(s) && id in s.messages
    ensures s.messages[id].state == Reserved <==> s.messages[id].reservation.Some?
    ensures s.messages[id].state == Reserved ==>
            && s.messages[id].reservation.value in s.reservations
            && s.messages[id].to == Address(s.reservations[s.messages[id].reservation.value].agent)
  {
    hide Threads, RemoteRows;
    RowFacts(s, {}, id);
  }

  /** Along a run a message keeps its content, every stamp once written, and a state once it is over. */
  lemma RecordsAreWriteOnce(s: Scope, before: seq<Turn>, after: seq<Turn>, id: Id)
    requires Inv(s) && Unfolds(s, before + after) && id in Run(s, before).messages && id in Run(s, before + after).messages
    ensures var m, n := Run(s, before).messages[id], Run(s, before + after).messages[id];
            && n.from == m.from && n.to == m.to && n.body == m.body && n.hash == m.hash && n.createdAt == m.createdAt
            && Stays(m.deliveredAt, n.deliveredAt) && Stays(m.acknowledgedAt, n.acknowledgedAt)
            && Stays(m.repliedAt, n.repliedAt) && Stays(m.response, n.response)
            && (m.state == Acknowledged || m.state == Expired ==> n.state == m.state)
  {
    hide Inv, Run, Unfolds;
    LaterEvolves(s, before, after);
  }

  /** A remote task that has ended stays ended, in the same state. */
  lemma RemoteTasksEndOnce(s: Scope, before: seq<Turn>, after: seq<Turn>, id: Id)
    requires Inv(s) && Unfolds(s, before + after) && id in Run(s, before).remoteTasks && id in Run(s, before + after).remoteTasks
    ensures ValidTransition(Run(s, before).remoteTasks[id].state, Run(s, before + after).remoteTasks[id].state)
    ensures Terminal(Run(s, before).remoteTasks[id].state) ==> Run(s, before + after).remoteTasks[id].state == Run(s, before).remoteTasks[id].state
  {
    hide Inv, Run, Unfolds;
    LaterEvolves(s, before, after);
  }

  /** What was deleted never comes back under the same identifier. */
  lemma GoneForGood(s: Scope, before: seq<Turn>, after: seq<Turn>, id: Id)
    requires Inv(s) && Unfolds(s, before + after) && id in Run(s, before).issued
    ensures id !in Run(s, before).messages ==> id !in Run(s, before + after).messages
    ensures id !in Run(s, before).tasks ==> id !in Run(s, before + after).tasks
    ensures id !in Run(s, before).remoteTasks ==> id !in Run(s, before + after).remoteTasks
    ensures id !in Run(s, before).correlations ==> id !in Run(s, before + after).correlations
  {
    hide Inv, Run, Unfolds;
    LaterEvolves(s, before, after);
  }

  // ---- the log -------------------------------------------------------------------------------

  /** In every scope of every run from a good scope, a new or an imported one, the newest retained event that
      states the state of a message, task or remote task names the state in its row. */
  lemma LogAgreesWithTables(start: Scope, turns: seq<Turn>, id: Id)
    requires Inv(start) && Unfolds(start, turns)
    ensures var s := Run(start, turns);
            && (id in s.messages ==> Newest(s.log.events, MessageSubject(id)) in {None, Some(MessageState(s.messages[id].state))})
            && (id in s.tasks ==> Newest(s.log.events, TaskSubject(id)) in {None, Some(TaskStatus(s.tasks[id].status))})
            && (id in s.remoteTasks ==> Newest(s.log.events, RemoteSubject(id)) in {None, Some(RemoteTaskState(s.remoteTasks[id].state))})
  {
    hide Run, Unfolds, Newest, Inv;
    RunKeeps(start, turns);
    AgreementOf(Run(start, turns));
  }

  lemma AgreementOf(s: Scope)
    requires Inv(s)
    ensures Agreement(s)
  {
  }

  /** The board of every reachable scope is live and consistent. */
  lemma ReachableBoard(start: Scope, turns: seq<Turn>, from: Id, path: seq<Id>, to: Id)
    requires Inv(start) && Unfolds(start, turns)
    ensures var tasks := Run(start, turns).tasks;
            && (path != [] ==> !DependsVia(tasks, from, path, from))
            && (path != [] && DependsVia(tasks, from, path, to) && tasks[from].status != Open ==> to in tasks && tasks[to].status == Done)
            && (from in tasks && tasks[from].status != Done ==>
                  exists x :: x in tasks && tasks[x].status != Done && (tasks[x].status == Claimed || ReadyTask(tasks, x)))
  {
    hide Run, Unfolds, Inv, DependsVia, Board;
    RunKeeps(start, turns);
    var s := Run(start, turns);
    BoardOf(s);
    if path != [] {
      NoTaskWaitsForItself(s.tasks, from, path);
      if DependsVia(s.tasks, from, path, to) {
        FromExists(s.tasks, from, path, to);
        if s.tasks[from].status != Open {
          ClosureIsDone(s.tasks, from, path, to);
        }
      }
    }
    if from in s.tasks && s.tasks[from].status != Done {
      NoDeadlock(s, from);
    }
  }

  lemma BoardOf(s: Scope)
    requires Inv(s)
    ensures Board(s.tasks)
  {
  }

  lemma FromExists(tasks: map<Id, Task>, from: Id, path: seq<Id>, to: Id)
    requires DependsVia(tasks, from, path, to)
    ensures from in tasks
  {
  }
}
