/** Long polls against the store: no message that an announced transaction makes available is slept through
    (the loop of bus/runtime.go ReserveInbox, and the notify calls after each commit). */
module Wakeups {
  import opened Model
  import opened Logs
  import opened Scopes
  import opened RemoteWork
  import opened Invariants
  import opened Rows
  import opened Sweeps
  import opened BoardSteps
  import opened InboxSteps
  import opened SendSteps
  import opened ExecutionSteps
  import opened RemoteSteps
  import opened Runs
  import opened Drain
  import Channels
  import Signals

  // ---- whose inbox a transaction fills -------------------------------------------------------

  /** What became available to an agent between two scopes. */
  function Made(s: Scope, t: Scope, agent: Id): set<Id> {
    Inbox(t, agent) - Inbox(s, agent)
  }

  /** Nothing became available to anyone but the agent. */
  ghost predicate OnlyFor(s: Scope, t: Scope, agent: Id) {
    forall x, id :: id in Inbox(t, x) && id !in Inbox(s, x) ==> x == agent
  }

  lemma OnlyForThen(s: Scope, t: Scope, u: Scope, agent: Id)
    requires OnlyFor(s, t, agent) && OnlyFor(t, u, agent)
    ensures OnlyFor(s, u, agent)
  {
    hide Inbox;
  }

  lemma SameMessages(s: Scope, t: Scope, agent: Id)
    requires t.messages == s.messages
    ensures OnlyFor(s, t, agent)
  {
  }

  lemma ExpiryMakesNothing(s: Scope, now: Time, world: World, agent: Id)
    requires Inv(s)
    ensures OnlyFor(s, Expire(s, now, world), agent)
  {
    hide Between, Evolves, Expire;
    ExpireKeeps(s, now, world, {});
  }

  lemma ReleaseMakes(s: Scope, agent: Id, reservation: Id, now: Time, world: World, out: set<Id>)
    requires Between(s, out)
    ensures OnlyFor(s, Release(s, agent, reservation, now, world), agent)
  {
    hide Between, Evolves, Release;
    ReleaseKeeps(s, agent, reservation, now, world, out);
    var held := Held(s, agent, reservation);
    assert Lists(world.order(held), held);
  }

  lemma ReleaseEachMakes(s: Scope, ids: seq<Id>, tick: nat, world: World, agent: Id, out: set<Id>)
    requires Between(s, out) && forall r :: r in ids && r in s.reservations ==> s.reservations[r].agent == agent
    ensures OnlyFor(s, ReleaseEach(s, ids, tick, world), agent)
    decreases |ids|
  {
    hide Between, Evolves, Release, OnlyFor;
    if ids == [] {
      SameMessages(s, s, agent);
    } else {
      var init, last := ids[..|ids| - 1], ids[|ids| - 1];
      assert ids == init + [last];
      ReleaseEachMakes(s, init, tick, world, agent, out);
      ReleaseEachKeeps(s, init, tick, world, out);
      var t := ReleaseEach(s, init, tick, world);
      if last in t.reservations {
        ReleaseMakes(t, agent, last, world.tick(tick + |init|), world, out);
        OnlyForThen(s, t, Release(t, agent, last, world.tick(tick + |init|), world), agent);
      }
    }
  }

  lemma ClearingMakes(s: Scope, agent: Id, world: World)
    requires Between(s, {agent})
    ensures var rows := world.order(ReservationsOf(s, agent));
            OnlyFor(s, ReleaseStale(ReleaseEach(s, rows, 1, world), world.tick(1 + |rows|), world), agent)
  {
    hide Between, Evolves, ReleaseEach, ReleaseStale, OnlyFor;
    var rows := world.order(ReservationsOf(s, agent));
    assert Lists(rows, ReservationsOf(s, agent));
    ReleaseEachMakes(s, rows, 1, world, agent, {agent});
    ReleaseAllOf(s, agent, 1, world, {agent});
    var t := ReleaseEach(s, rows, 1, world);
    ReleaseStaleKeeps(t, world.tick(1 + |rows|), world, {agent});
    SameMessages(t, ReleaseStale(t, world.tick(1 + |rows|), world), agent);
    OnlyForThen(s, t, ReleaseStale(t, world.tick(1 + |rows|), world), agent);
  }

  lemma InsertMakes(s: Scope, id: Id, sender: Participant, kind: Kind, input: SendInput, now: Time)
    ensures OnlyFor(s, Inserted(s, id, NewMessage(sender, kind, input, now), now), input.to)
  {
    hide Append;
  }

  lemma AnswerMakes(s: Scope, request: Id, response: Id, kind: Kind, now: Time, agent: Id)
    requires request in s.messages
    ensures OnlyFor(s, Answer(s, request, response, kind, now), agent)
  {
    hide Answer;
    AnswerFrame(s, request, response, kind, now);
  }

  lemma SendMakes(s: Scope, sender: Participant, input: SendInput, notification: bool, tick: nat, mint: nat, world: World)
    requires Inv(s)
    ensures OnlyFor(s, SendIn(s, sender, input, notification, tick, mint, world).scope, input.to)
  {
    hide Inv, Expire, Existing, Addressee, HashOf, Inserted, Answer, NewMessage, Backlog, OnlyFor;
    var now := world.tick(tick);
    var s1 := Expire(s, now, world);
    SameMessages(s, s, input.to);
    ExpiryMakesNothing(s, now, world, input.to);
    if Existing(s1, sender, input, world).None? && Addressee(s1, sender, input, notification).Ok? && |Backlog(s1)| < BACKLOG_CAP {
      var kind := Addressee(s1, sender, input, notification).value;
      var s2 := Inserted(s1, world.mint(mint), NewMessage(sender, kind, input, now), now);
      InsertMakes(s1, world.mint(mint), sender, kind, input, now);
      OnlyForThen(s, s1, s2, input.to);
      if ModeOf(input) == Response {
        AnsweredExists(s1, sender, input, notification, kind, world.mint(mint), now);
        AnswerMakes(s2, input.responseTo.value, world.mint(mint), kind, now, input.to);
        OnlyForThen(s, s2, Answer(s2, input.responseTo.value, world.mint(mint), kind, now), input.to);
      }
    }
  }

  lemma AnsweredExists(s: Scope, sender: Participant, input: SendInput, notification: bool, kind: Kind, id: Id, now: Time)
    requires Addressee(s, sender, input, notification) == Ok(kind) && ModeOf(input) == Response
    ensures input.responseTo.Some? && input.responseTo.value in Inserted(s, id, NewMessage(sender, kind, input, now), now).messages
  {
    hide Append;
  }

  lemma FreeMakes(s: Scope, caller: Caller, reservation: Id, world: World)
    requires Inv(s)
    ensures OnlyFor(s, ReleaseInbox(s, caller, reservation, world).scope, caller.agent)
  {
    hide Between, Evolves, Expire, Release, OnlyFor, Keeps;
    SameMessages(s, s, caller.agent);
    if Current(s, caller, world.tick(0)) {
      var s1 := Expire(s, world.tick(1), world);
      ExpiryMakesNothing(s, world.tick(1), world, caller.agent);
      ExpireKeeps(s, world.tick(1), world, {});
      ReleaseMakes(s1, caller.agent, reservation, world.tick(2), world, {});
      OnlyForThen(s, s1, Release(s1, caller.agent, reservation, world.tick(2), world), caller.agent);
    }
  }

  lemma TakeOverMakes(s: Scope, agent: Id, row: AgentRow, world: World)
    requires Inv(s) && row.execution !in s.issued && row.token !in s.issued && 0 <= row.leaseExpiresAt
    ensures OnlyFor(s, TakeOver(s, agent, row, world), agent)
  {
    hide Inv, Between, Evolves, ReleaseEach, ReleaseStale, Reowns, OnlyFor;
    var s1 := s.(agents := s.agents[agent := row], issued := s.issued + {row.execution, row.token});
    TakenOver(s, agent, row);
    SameMessages(s, s1, agent);
    ClearingMakes(s1, agent, world);
    OnlyForThen(s, s1, TakeOver(s, agent, row, world), agent);
  }

  lemma TakenOver(s: Scope, agent: Id, row: AgentRow)
    requires Inv(s) && row.execution !in s.issued && row.token !in s.issued && 0 <= row.leaseExpiresAt
    ensures Between(s.(agents := s.agents[agent := row], issued := s.issued + {row.execution, row.token}), {agent})
  {
    hide Core, Threads, RemoteRows, Reowns, Evolves;
    TakeOverReowns(s, agent, row);
    ReownsKeeps(s, s.agents[agent := row], s.issued + {row.execution, row.token}, {agent});
  }

  lemma RegisterMakes(s: Scope, input: RegisterInput, world: World)
    requires Inv(s) && Fair(world, s.clock, s.issued) && input.lease > 0
    ensures var out := RegisterAgent(s, input, world);
            if out.result.Ok? then OnlyFor(s, out.scope, out.result.value.agent) else out.scope == s
  {
    hide Inv, Evolves, Append, TakeOver, Scopes.Reachable, Unique, AppendAll, LinkEvents, PairsWith, OnlyFor;
    ClockIsPositive(s);
    var now := world.tick(0);
    var agent := if input.agent.Some? then input.agent.value else world.mint(2);
    var row := AgentRow(world.mint(0), world.mint(1), Starting, false, now + input.lease, now, now);
    TakeOverMakes(s, agent, row, world);
    var out := RegisterAgent(s, input, world);
    if out.result.Ok? {
      SameMessages(TakeOver(s, agent, row, world), out.scope, agent);
      OnlyForThen(s, TakeOver(s, agent, row, world), out.scope, agent);
    }
  }

  lemma RestedBetween(s: Scope, agent: Id, now: Time)
    requires Inv(s) && agent in s.agents
    ensures Between(s.(agents := s.agents[agent := Rested(s.agents[agent], now)]), {agent})
  {
    hide Core, Threads, RemoteRows, Reowns, Evolves;
    RestReowns(s, agent, now);
    ReownsKeeps(s, s.agents[agent := Rested(s.agents[agent], now)], s.issued, {agent});
    assert s.(agents := s.agents[agent := Rested(s.agents[agent], now)], issued := s.issued) == s.(agents := s.agents[agent := Rested(s.agents[agent], now)]);
  }

  lemma RetireMakes(s: Scope, token: Id, world: World)
    requires Inv(s)
    ensures var out := RetireAgent(s, token, world);
            if out.result.Ok? then OnlyFor(s, out.scope, out.result.value.agent) else out.scope == s
  {
    hide Inv, Between, Evolves, Append, ReleaseEach, ReleaseStale, OnlyFor;
    var holders := world.order(Holders(s, token));
    if |holders| > 0 && holders[0] in s.agents {
      var agent := holders[0];
      SameMessages(s, s, agent);
      if s.agents[agent].leaseExpiresAt != 0 {
        var s1 := s.(agents := s.agents[agent := Rested(s.agents[agent], world.tick(0))]);
        RestedBetween(s, agent, world.tick(0));
        SameMessages(s, s1, agent);
        ClearingMakes(s1, agent, world);
        var rows := world.order(ReservationsOf(s1, agent));
        var s2 := ReleaseStale(ReleaseEach(s1, rows, 1, world), world.tick(1 + |rows|), world);
        OnlyForThen(s, s1, s2, agent);
        SameMessages(s2, RetireAgent(s, token, world).scope, agent);
        OnlyForThen(s, s2, RetireAgent(s, token, world).scope, agent);
      }
    }
  }

  /** The first half of an accepted remote message: the sweep, and the task it goes to. */
  lemma ChoosingMakes(s: Scope, caller: RemoteCaller, input: AcceptInput, world: World, agent: Id)
    requires Inv(s) && Fair(world, s.clock, s.issued)
    ensures var s1 := Expire(s, world.tick(0), world);
            && OnlyFor(s, s1, agent) && Inv(s1) && world.mint(2) !in s1.issued
            && (caller.publication in s1.publications ==>
                  var chosen := TaskFor(s1, caller, input, world.tick(1), world);
                  && OnlyFor(s, chosen.scope, agent) && Inv(chosen.scope) && world.mint(2) !in chosen.scope.issued
                  && chosen.scope.correlations == s1.correlations && chosen.scope.publications == s1.publications
                  && (caller.principal in s.credentials ==> caller.principal in chosen.scope.credentials)
                  && (chosen.result.Ok? ==> chosen.result.value in chosen.scope.remoteTasks && OwnOpenTask(chosen.scope, caller, chosen.result.value)))
  {
    hide Inv, Keeps, Evolves, Expire, TaskFor, OnlyFor, OwnOpenTask;
    var s1 := Expire(s, world.tick(0), world);
    ExpiryMakesNothing(s, world.tick(0), world, agent);
    ExpireAlone(s, world.tick(0), world);
    KeptIsInv(s, s1);
    if caller.publication in s1.publications {
      TaskForKeeps(s1, caller, input, world.tick(1), world);
      var s2 := TaskFor(s1, caller, input, world.tick(1), world).scope;
      KeptIsInv(s1, s2);
      SameMessages(s1, s2, agent);
      OnlyForThen(s, s1, s2, agent);
      if caller.principal in s.credentials {
        CredentialStays(s, s1, caller.principal);
        CredentialStays(s1, s2, caller.principal);
      }
    }
  }

  /** The second half: the request is sent to the target of the task, and correlated with it. */
  lemma WorkMakes(s: Scope, caller: RemoteCaller, send: SendInput, task: Id, row: Correlation, now: Time, world: World)
    requires Inv(s) && world.mint(2) !in s.issued && task in s.remoteTasks && s.remoteTasks[task].target == send.to && row.task == task
    requires send.key == Some(row.client) && send.mode == Some(Request) && send.responseTo.None? && Correlated(s, caller.principal, row.client) == {} && caller.principal in s.credentials
    ensures var sent := SendIn(s, Participant(RemoteKind, caller.principal), send, false, 2, 2, world);
            sent.result.Ok? ==>
              var t := Correlate(sent.scope, sent.result.value, row, now);
              OnlyFor(s, t, send.to) && task in t.remoteTasks && t.remoteTasks[task].target == send.to
  {
    hide Inv, Keeps, Expire, SendIn, OnlyFor, Correlated, NewMessage, AlmostKeeps;
    var sender := Participant(RemoteKind, caller.principal);
    var sent := SendIn(s, sender, send, false, 2, 2, world);
    if sent.result.Ok? {
      SendMakes(s, sender, send, false, 2, 2, world);
      AcceptedSend(s, caller, send, row.client, world);
      var s1 := Expire(s, world.tick(2), world);
      ExpireAlone(s, world.tick(2), world);
      ExpireKeepsTasks(s, world.tick(2), world);
      TargetStays(s, s1, task);
      TasksAfterInsert(s1, world.mint(2), NewMessage(sender, AgentKind, send, world.tick(2)), world.tick(2));
      var t := Correlate(sent.scope, sent.result.value, row, now);
      CorrelatesOnly(sent.scope, sent.result.value, row, now, send.to);
      OnlyForThen(s, sent.scope, t, send.to);
    }
  }

  lemma TargetStays(s: Scope, t: Scope, task: Id)
    requires Keeps(s, t) && task in s.remoteTasks && task in t.remoteTasks
    ensures t.remoteTasks[task].target == s.remoteTasks[task].target
  {
    hide Inv;
  }

  lemma TasksAfterInsert(s: Scope, id: Id, row: Message, now: Time)
    ensures Inserted(s, id, row, now).remoteTasks == s.remoteTasks
  {
    hide Append;
  }

  lemma CorrelatesOnly(s: Scope, request: Id, row: Correlation, now: Time, agent: Id)
    requires row.task in s.remoteTasks
    ensures var t := Correlate(s, request, row, now);
            OnlyFor(s, t, agent) && row.task in t.remoteTasks && t.remoteTasks[row.task].target == s.remoteTasks[row.task].target
  {
    hide Append;
    SameMessages(s, Correlate(s, request, row, now), agent);
  }

  /** The agent that a remote message is for, once it is accepted. */
  ghost function TargetOf(out: Outcome<Id>): Option<Id> {
    if out.result.Ok? && out.result.value in out.scope.remoteTasks then Some(out.scope.remoteTasks[out.result.value].target) else None
  }

  /** An accepted remote message always has a target, and makes something available to that agent only. */
  lemma AcceptMakes(s: Scope, caller: RemoteCaller, limits: Limits, input: AcceptInput, world: World)
    requires Inv(s) && Fair(world, s.clock, s.issued)
    ensures var out := AcceptMessage(s, caller, limits, input, world);
            out.result.Ok? ==> TargetOf(out).Some? && OnlyFor(s, out.scope, TargetOf(out).value)
  {
    hide Inv, Expire, TaskFor, SendIn, Correlate, OverBudget, OnlyFor, Fair, AcceptHash, Correlated;
    if CurrentRemote(s, caller) {
      var s1 := Expire(s, world.tick(0), world);
      var known := world.order(Correlated(s1, caller.principal, input.client));
      ChoosingMakes(s, caller, input, world, 0);
      if |known| > 0 && known[0] in s1.correlations {
        TaskOfWork(s1, known[0]);
        ExpiryMakesNothing(s, world.tick(0), world, s1.remoteTasks[s1.correlations[known[0]].task].target);
      } else if caller.publication in s1.publications {
        NoneCorrelated(s1, caller.principal, input.client, world);
        var chosen := TaskFor(s1, caller, input, world.tick(1), world);
        var target := s1.publications[caller.publication].agent;
        ChoosingMakes(s, caller, input, world, target);
        if chosen.result.Ok? {
          var send := SendInput(target, input.body, Some(Request), None, 0, "[]", Some(input.client));
          var row := Correlation(caller.principal, input.client, chosen.result.value, AcceptHash(input), None, world.tick(1), world.tick(1));
          SameCorrelated(s1, chosen.scope, caller.principal, input.client);
          WorkMakes(chosen.scope, caller, send, chosen.result.value, row, world.tick(1), world);
          var sent := SendIn(chosen.scope, Participant(RemoteKind, caller.principal), send, false, 2, 2, world);
          if sent.result.Ok? {
            OnlyForThen(s, chosen.scope, Correlate(sent.scope, sent.result.value, row, world.tick(1)), target);
          }
        }
      }
    }
  }

  lemma SameCorrelated(s: Scope, t: Scope, principal: Id, client: Id)
    requires t.correlations == s.correlations
    ensures Correlated(t, principal, client) == Correlated(s, principal, client)
  {
  }

  lemma TaskOfWork(s: Scope, request: Id)
    requires Inv(s) && request in s.correlations
    ensures s.correlations[request].task in s.remoteTasks
  {
    assert CorrelationRow(s, request);
  }

  /** The agent that the service wakes after a transaction, if the transaction succeeds and wakes anyone. */
  ghost function Announces(s: Scope, op: Op, world: World): Option<Id> {
    match op
    case Send(caller, input) => if Scopes.SendMessage(s, caller, input, world).result.Ok? then Some(input.to) else None
    case HumanSend(human, input) => if SendAsHuman(s, human, input, world).result.Ok? then Some(input.to) else None
    case Accept(remote, limits, input) => TargetOf(AcceptMessage(s, remote, limits, input, world))
    case Free(caller, reservation) => if ReleaseInbox(s, caller, reservation, world).result.Ok? then Some(caller.agent) else None
    case Register(input) =>
      var out := RegisterAgent(s, input, world);
      if out.result.Ok? then Some(out.result.value.agent) else None
    case Retire(token) =>
      var out := RetireAgent(s, token, world);
      if out.result.Ok? then Some(out.result.value.agent) else None
    case _ => None
  }

  /** A send by an agent, a human or a remote principal, a release, a registration or a retirement makes messages
      available only to the agent that is woken for it. */
  lemma OnlyTheWokenGain(s: Scope, op: Op, world: World)
    requires Inv(s) && Fair(world, s.clock, s.issued) && Sensible(op) && Announces(s, op, world).Some?
    ensures OnlyFor(s, Apply(s, op, world), Announces(s, op, world).value)
  {
    hide Inv, OnlyFor, Apply, Announces, Fair;
    if op.HumanSend? || op.Send? || op.Accept? {
      SendersGain(s, op, world);
    } else {
      ReleasesGain(s, op, world);
    }
  }

  lemma SendersGain(s: Scope, op: Op, world: World)
    requires Inv(s) && Fair(world, s.clock, s.issued) && Announces(s, op, world).Some? && (op.HumanSend? || op.Send? || op.Accept?)
    ensures OnlyFor(s, Apply(s, op, world), Announces(s, op, world).value)
  {
    hide Inv, OnlyFor, SendIn, AcceptMessage, Fair;
    match op
    case HumanSend(human, input) => SendMakes(s, Participant(HumanKind, human), input, false, 0, 0, world);
    case Accept(remote, limits, input) => AcceptMakes(s, remote, limits, input, world);
    case Send(caller, input) => SendMakes(s, Address(caller.agent), input, false, 1, 0, world);
  }

  lemma ReleasesGain(s: Scope, op: Op, world: World)
    requires Inv(s) && Fair(world, s.clock, s.issued) && Sensible(op) && Announces(s, op, world).Some? && !(op.HumanSend? || op.Send? || op.Accept?)
    ensures OnlyFor(s, Apply(s, op, world), Announces(s, op, world).value)
  {
    hide Inv, OnlyFor, ReleaseInbox, RegisterAgent, RetireAgent, Fair;
    match op
    case Free(caller, reservation) => FreeMakes(s, caller, reservation, world);
    case Register(input) => RegisterMakes(s, input, world);
    case Retire(token) => RetireMakes(s, token, world);
    case _ =>
  }

  // ---- the polls -----------------------------------------------------------------------------

  /** Where a poll is in its loop. A blocked poll remembers, as history, what was made available by announced
      transactions after its own check of the store. */
  datatype Phase = Resting | Listening(ticket: nat) | Blocked(ticket: nat, missed: set<Id>)
  datatype Poll = Poll(agent: Id, phase: Phase)

  /** A transaction that has committed and whose notify has not run yet. */
  datatype Notice = Notice(target: Option<Id>, made: set<Id>)   // no target: the whole scope is woken

  predicate Wakes(notice: Notice, agent: Id) {
    notice.target.None? || notice.target.value == agent
  }

  datatype System = System(scope: Scope, signals: Signals.Signals, polls: map<Id, Poll>, notices: map<Id, Notice>)

  function KeyOf(agent: Id): Signals.Key {
    Signals.Key(0, agent)
  }

  datatype Move =
    | Listen(poll: Id)                                        // subscribe, before the store is checked
    | Check(poll: Id, execution: Id, limit: nat, world: World, until: Time)
    | Rest(poll: Id)                                          // the signal, the timer or the caller ends the wait
    | Land(turn: Turn, thread: Id)                            // a transaction that will be announced to one agent
    | LandForAll(after: Scope, thread: Id)                    // a transaction that will be announced to the whole scope
    | Announce(thread: Id)                                    // its notify, at any later time
    | Other(turn: Turn)                                       // any other transaction

  ghost predicate Allowed(sys: System, move: Move) {
    match move
    case Listen(poll) => poll in sys.polls && sys.polls[poll].phase.Resting?
    case Check(poll, execution, limit, world, until) =>
      && poll in sys.polls && sys.polls[poll].phase.Listening?
      && Possible(sys.scope, Runs.Turn.Turn(Reserve(Caller(sys.polls[poll].agent, execution), limit), world, until))
    case Rest(poll) => poll in sys.polls && !sys.polls[poll].phase.Resting?
    case Land(turn, thread) => Possible(sys.scope, turn) && Announces(sys.scope, turn.op, turn.world).Some? && thread !in sys.notices
    case LandForAll(after, thread) => Inv(after) && thread !in sys.notices
    case Announce(thread) => thread in sys.notices
    case Other(turn) => Possible(sys.scope, turn)
  }

  function Missing(poll: Poll, made: set<Id>): Poll {
    if poll.phase.Blocked? then poll.(phase := Blocked(poll.phase.ticket, poll.phase.missed + made)) else poll
  }

  function Listened(sys: System, poll: Id): System
    requires poll in sys.polls
  {
    var p := sys.polls[poll];
    sys.(signals := Signals.Subscribed(sys.signals, KeyOf(p.agent)), polls := sys.polls[poll := p.(phase := Listening(|sys.signals.tickets|))])
  }

  function Woke(sys: System, poll: Id): System
    requires poll in sys.polls && !sys.polls[poll].phase.Resting? && sys.polls[poll].phase.ticket < |sys.signals.tickets|
  {
    var p := sys.polls[poll];
    sys.(signals := Signals.Unsubscribed(sys.signals, p.phase.ticket), polls := sys.polls[poll := p.(phase := Resting)])
  }

  function BlockedOn(sys: System, poll: Id): System
    requires poll in sys.polls && !sys.polls[poll].phase.Resting?
  {
    var p := sys.polls[poll];
    sys.(polls := sys.polls[poll := p.(phase := Blocked(p.phase.ticket, {}))])
  }

  ghost function Landed(sys: System, turn: Turn, agent: Id, thread: Id): System {
    var after := Step(sys.scope, turn);
    sys.(scope := after, notices := sys.notices[thread := Notice(Some(agent), Made(sys.scope, after, agent))],
         polls := map p | p in sys.polls :: Missing(sys.polls[p], Made(sys.scope, after, sys.polls[p].agent)))
  }

  /** What became available to anyone between two scopes. */
  function Gained(s: Scope, t: Scope): set<Id> {
    set id | id in t.messages && id in Made(s, t, t.messages[id].to.id)
  }

  function LandedForAll(sys: System, after: Scope, thread: Id): System {
    sys.(scope := after, notices := sys.notices[thread := Notice(None, Gained(sys.scope, after))],
         polls := map p | p in sys.polls :: Missing(sys.polls[p], Made(sys.scope, after, sys.polls[p].agent)))
  }

  function Announced(sys: System, thread: Id): System
    requires thread in sys.notices
  {
    var target := sys.notices[thread].target;
    sys.(signals := if target.Some? then Signals.Notified(sys.signals, KeyOf(target.value)) else Signals.NotifiedScope(sys.signals, 0),
         notices := sys.notices - {thread})
  }

  ghost function Checked(sys: System, poll: Id, turn: Turn, nothing: bool): System
    requires poll in sys.polls && !sys.polls[poll].phase.Resting? && sys.polls[poll].phase.ticket < |sys.signals.tickets|
  {
    var s1 := sys.(scope := Step(sys.scope, turn));
    if nothing then BlockedOn(s1, poll) else Woke(s1, poll)
  }

  ghost function Moved(sys: System, move: Move): System
    requires Allowed(sys, move) && Ticketed(sys)
  {
    match move
    case Listen(poll) => Listened(sys, poll)
    case Check(poll, execution, limit, world, until) =>
      assert HoldsTicket(sys, poll);
      var caller := Caller(sys.polls[poll].agent, execution);
      Checked(sys, poll, Runs.Turn.Turn(Reserve(caller, limit), world, until), ReserveInbox(sys.scope, caller, limit, world).result == Ok(None))
    case Rest(poll) =>
      assert HoldsTicket(sys, poll);
      Woke(sys, poll)
    case Land(turn, thread) => Landed(sys, turn, Announces(sys.scope, turn.op, turn.world).value, thread)
    case LandForAll(after, thread) => LandedForAll(sys, after, thread)
    case Announce(thread) => Announced(sys, thread)
    case Other(turn) => sys.(scope := Step(sys.scope, turn))
  }

  // ---- nothing is slept through --------------------------------------------------------------

  /** Every poll that listens holds a live ticket of its own. */
  ghost predicate Ticketed(sys: System) {
    && (forall p :: p in sys.polls && !sys.polls[p].phase.Resting? ==> HoldsTicket(sys, p))
    && (forall p, q :: p in sys.polls && q in sys.polls && !sys.polls[p].phase.Resting? && !sys.polls[q].phase.Resting? && sys.polls[p].phase.ticket == sys.polls[q].phase.ticket ==> p == q)
  }

  ghost predicate HoldsTicket(sys: System, p: Id)
    requires p in sys.polls && !sys.polls[p].phase.Resting?
  {
    var ticket := sys.polls[p].phase.ticket;
    ticket < |sys.signals.tickets| && !sys.signals.tickets[ticket].done && sys.signals.tickets[ticket].key == KeyOf(sys.polls[p].agent)
  }

  ghost predicate Sound(sys: System) {
    Inv(sys.scope) && Signals.Valid(sys.signals) && Ticketed(sys)
  }

  /** Whatever a blocked poll has missed, it has already been woken, or the notify that wakes it is still to run. */
  ghost predicate Awake(sys: System) {
    forall p, m :: p in sys.polls && sys.polls[p].phase.Blocked? && m in sys.polls[p].phase.missed ==> WokenOrWillBe(sys, p, m)
  }

  ghost predicate WokenOrWillBe(sys: System, p: Id, m: Id)
    requires p in sys.polls && sys.polls[p].phase.Blocked?
  {
    var ticket := sys.polls[p].phase.ticket;
    (ticket < |sys.signals.tickets| && Signals.Woken(sys.signals, sys.signals.tickets[ticket])) || StillToRun(sys, sys.polls[p].agent, m)
  }

  ghost predicate StillToRun(sys: System, agent: Id, m: Id) {
    exists thread :: thread in sys.notices && Wakes(sys.notices[thread], agent) && m in sys.notices[thread].made
  }

  lemma ListenKeeps(sys: System, poll: Id)
    requires Sound(sys) && Awake(sys) && Allowed(sys, Listen(poll))
    ensures Sound(Moved(sys, Listen(poll))) && Awake(Moved(sys, Listen(poll)))
  {
    hide Inv, Signals.Valid, Possible;
    var after := Moved(sys, Listen(poll));
    Signals.SubscribedIsValid(sys.signals, KeyOf(sys.polls[poll].agent));
    assert forall i :: 0 <= i < |sys.signals.tickets| ==> after.signals.tickets[i] == sys.signals.tickets[i];
    forall p | p in after.polls && !after.polls[p].phase.Resting? ensures HoldsTicket(after, p) {
      if p != poll {
        assert HoldsTicket(sys, p);
      }
    }
    forall p, q | p in sys.polls && q in sys.polls && !after.polls[p].phase.Resting? && !after.polls[q].phase.Resting? && after.polls[p].phase.ticket == after.polls[q].phase.ticket
      ensures p == q
    {
      assert p != poll ==> HoldsTicket(sys, p);
      assert q != poll ==> HoldsTicket(sys, q);
    }
    forall p, m | p in after.polls && after.polls[p].phase.Blocked? && m in after.polls[p].phase.missed
      ensures WokenOrWillBe(after, p, m)
    {
      assert HoldsTicket(sys, p);
      assert WokenOrWillBe(sys, p, m);
      assert StillToRun(sys, sys.polls[p].agent, m) ==> StillToRun(after, sys.polls[p].agent, m);
    }
  }

  /** Ending one poll's wait leaves every other ticket as it was. */
  lemma RestKeeps(sys: System, poll: Id)
    requires Sound(sys) && Awake(sys) && poll in sys.polls && !sys.polls[poll].phase.Resting?
    ensures sys.polls[poll].phase.ticket < |sys.signals.tickets| && Sound(Woke(sys, poll)) && Awake(Woke(sys, poll))
  {
    hide Inv, Signals.Valid;
    assert HoldsTicket(sys, poll);
    var ticket := sys.polls[poll].phase.ticket;
    var after := Woke(sys, poll);
    Signals.UnsubscribedIsValid(sys.signals, ticket);
    Signals.SameTickets(sys.signals, ticket);
    UnsubscribedKeepsClosed(sys.signals, ticket);
    forall p | p in after.polls && !after.polls[p].phase.Resting? ensures HoldsTicket(after, p) {
      assert HoldsTicket(sys, p);
    }
    forall p, m | p in after.polls && after.polls[p].phase.Blocked? && m in after.polls[p].phase.missed
      ensures WokenOrWillBe(after, p, m)
    {
      assert HoldsTicket(sys, p);
      assert WokenOrWillBe(sys, p, m);
      assert StillToRun(sys, sys.polls[p].agent, m) ==> StillToRun(after, sys.polls[p].agent, m);
    }
  }

  lemma UnsubscribedKeepsClosed(s: Signals.Signals, ticket: nat)
    requires ticket < |s.tickets|
    ensures Signals.Unsubscribed(s, ticket).closed == s.closed
  {
  }

  lemma OtherKeeps(sys: System, scope: Scope)
    requires Sound(sys) && Awake(sys) && Inv(scope)
    ensures Sound(sys.(scope := scope)) && Awake(sys.(scope := scope))
  {
    hide Inv, Signals.Valid;
    var after := sys.(scope := scope);
    forall p | p in after.polls && !after.polls[p].phase.Resting? ensures HoldsTicket(after, p) {
      assert HoldsTicket(sys, p);
    }
    forall p, m | p in after.polls && after.polls[p].phase.Blocked? && m in after.polls[p].phase.missed
      ensures WokenOrWillBe(after, p, m)
    {
      assert WokenOrWillBe(sys, p, m);
      assert StillToRun(sys, sys.polls[p].agent, m) ==> StillToRun(after, sys.polls[p].agent, m);
    }
  }

  lemma BlockKeeps(sys: System, poll: Id)
    requires Sound(sys) && Awake(sys) && poll in sys.polls && sys.polls[poll].phase.Listening?
    ensures Sound(BlockedOn(sys, poll)) && Awake(BlockedOn(sys, poll))
  {
    hide Inv, Signals.Valid;
    var after := BlockedOn(sys, poll);
    forall p | p in after.polls && !after.polls[p].phase.Resting? ensures HoldsTicket(after, p) {
      assert HoldsTicket(sys, p);
    }
    forall p, m | p in after.polls && after.polls[p].phase.Blocked? && m in after.polls[p].phase.missed
      ensures WokenOrWillBe(after, p, m)
    {
      assert p != poll;
      assert WokenOrWillBe(sys, p, m);
      assert StillToRun(sys, sys.polls[p].agent, m) ==> StillToRun(after, sys.polls[p].agent, m);
    }
  }

  lemma AnnounceKeeps(sys: System, thread: Id)
    requires Sound(sys) && Awake(sys) && thread in sys.notices
    ensures Sound(Announced(sys, thread)) && Awake(Announced(sys, thread))
  {
    hide Inv, Signals.Valid, Signals.Notified, Signals.NotifiedScope, Signals.Woken;
    var notice := sys.notices[thread];
    var after := Announced(sys, thread);
    NotifiedAsTold(sys, thread);
    forall p | p in after.polls && !after.polls[p].phase.Resting? ensures HoldsTicket(after, p) {
      assert HoldsTicket(sys, p);
    }
    forall p, m | p in after.polls && after.polls[p].phase.Blocked? && m in after.polls[p].phase.missed
      ensures WokenOrWillBe(after, p, m)
    {
      assert HoldsTicket(sys, p);
      assert WokenOrWillBe(sys, p, m);
      var ticket := sys.signals.tickets[sys.polls[p].phase.ticket];
      if !Signals.Woken(sys.signals, ticket) && !Wakes(notice, sys.polls[p].agent) {
        var other :| other in sys.notices && Wakes(sys.notices[other], sys.polls[p].agent) && m in sys.notices[other].made;
        assert other in after.notices;
      }
    }
  }

  /** A notify wakes everyone it is for, and puts nobody back to sleep. */
  lemma NotifiedAsTold(sys: System, thread: Id)
    requires Signals.Valid(sys.signals) && thread in sys.notices
    ensures var before, after, notice := sys.signals, Announced(sys, thread).signals, sys.notices[thread];
            && Signals.Valid(after) && after.tickets == before.tickets
            && (forall i :: 0 <= i < |before.tickets| && Signals.Woken(before, before.tickets[i]) ==> Signals.Woken(after, before.tickets[i]))
            && (forall i, agent :: 0 <= i < |before.tickets| && !before.tickets[i].done && before.tickets[i].key == KeyOf(agent) && Wakes(notice, agent)
                  ==> Signals.Woken(after, before.tickets[i]))
  {
    hide Signals.Valid, Signals.NotifiedScope;
    var target := sys.notices[thread].target;
    if target.Some? {
      Signals.NotifiedIsValid(sys.signals, KeyOf(target.value));
    } else {
      Signals.NotifiedScopeIsValid(sys.signals, 0);
    }
  }

  lemma LandKeeps(sys: System, turn: Turn, thread: Id)
    requires Sound(sys) && Awake(sys) && Allowed(sys, Land(turn, thread))
    ensures Sound(Moved(sys, Land(turn, thread))) && Awake(Moved(sys, Land(turn, thread)))
  {
    hide Inv, Signals.Valid, Apply, Announces, Sensible, Evolves, Fair;
    var after := Moved(sys, Land(turn, thread));
    var agent := Announces(sys.scope, turn.op, turn.world).value;
    StepKeeps(sys.scope, turn);
    OnlyTheWokenGain(sys.scope, turn.op, turn.world);
    forall p | p in after.polls && !after.polls[p].phase.Resting? ensures HoldsTicket(after, p) {
      assert HoldsTicket(sys, p);
    }
    forall p, m | p in after.polls && after.polls[p].phase.Blocked? && m in after.polls[p].phase.missed
      ensures WokenOrWillBe(after, p, m)
    {
      assert HoldsTicket(sys, p);
      if m in sys.polls[p].phase.missed {
        assert WokenOrWillBe(sys, p, m);
        if StillToRun(sys, sys.polls[p].agent, m) {
          var other :| other in sys.notices && Wakes(sys.notices[other], sys.polls[p].agent) && m in sys.notices[other].made;
          assert other in after.notices && after.notices[other] == sys.notices[other];
        }
      } else {
        GainIsForWoken(sys.scope, turn, agent, sys.polls[p].agent, m);
        assert Wakes(after.notices[thread], agent) && m in after.notices[thread].made;
      }
    }
  }

  lemma LandForAllKeeps(sys: System, scope: Scope, thread: Id)
    requires Sound(sys) && Awake(sys) && Allowed(sys, LandForAll(scope, thread))
    ensures Sound(LandedForAll(sys, scope, thread)) && Awake(LandedForAll(sys, scope, thread))
  {
    hide Inv, Signals.Valid, Made;
    var after := LandedForAll(sys, scope, thread);
    forall p | p in after.polls && !after.polls[p].phase.Resting? ensures HoldsTicket(after, p) {
      assert HoldsTicket(sys, p);
    }
    forall p, m | p in after.polls && after.polls[p].phase.Blocked? && m in after.polls[p].phase.missed
      ensures WokenOrWillBe(after, p, m)
    {
      assert HoldsTicket(sys, p);
      if m in sys.polls[p].phase.missed {
        assert WokenOrWillBe(sys, p, m);
        if StillToRun(sys, sys.polls[p].agent, m) {
          var other :| other in sys.notices && Wakes(sys.notices[other], sys.polls[p].agent) && m in sys.notices[other].made;
          assert other in after.notices && after.notices[other] == sys.notices[other];
        }
      } else {
        MadeIsGained(sys.scope, scope, sys.polls[p].agent, m);
        assert Wakes(after.notices[thread], sys.polls[p].agent) && m in after.notices[thread].made;
      }
    }
  }

  lemma MadeIsGained(s: Scope, t: Scope, agent: Id, m: Id)
    requires m in Made(s, t, agent)
    ensures m in Gained(s, t)
  {
  }

  lemma GainIsForWoken(s: Scope, turn: Turn, agent: Id, other: Id, m: Id)
    requires OnlyFor(s, Apply(s, turn.op, turn.world), agent) && m in Made(s, Step(s, turn), other)
    ensures other == agent
  {
    hide Apply;
    assert Inbox(Step(s, turn), other) == Inbox(Apply(s, turn.op, turn.world), other);
  }

  /** No lost wake-up: in every interleaving of polls, commits and their notifies, whatever an announced
      transaction made available after a blocked poll's check has already woken that poll, or its notify is
      still to run. */
  lemma NothingIsSleptThrough(sys: System, move: Move)
    requires Sound(sys) && Awake(sys) && Allowed(sys, move)
    ensures Sound(Moved(sys, move)) && Awake(Moved(sys, move))
  {
    hide Inv, Sound, Awake, Apply, Announces, Sensible, Evolves, Fair, ReserveInbox, Signals.Subscribed, Signals.Unsubscribed, Signals.Notified, LandedForAll;
    match move
    case Listen(poll) => ListenKeeps(sys, poll);
    case Check(poll, execution, limit, world, until) => CheckKeeps(sys, poll, execution, limit, world, until);
    case Rest(poll) => RestKeeps(sys, poll);
    case Land(turn, thread) => LandKeeps(sys, turn, thread);
    case LandForAll(after, thread) => LandForAllKeeps(sys, after, thread);
    case Announce(thread) => AnnounceKeeps(sys, thread);
    case Other(turn) =>
      StepOf(sys, turn);
      OtherKeeps(sys, Step(sys.scope, turn));
  }

  lemma StepOf(sys: System, turn: Turn)
    requires Sound(sys) && Possible(sys.scope, turn)
    ensures Inv(Step(sys.scope, turn))
  {
    hide Inv, Apply, Sensible, Evolves, Fair;
    StepKeeps(sys.scope, turn);
  }

  lemma CheckKeeps(sys: System, poll: Id, execution: Id, limit: nat, world: World, until: Time)
    requires Sound(sys) && Awake(sys) && Allowed(sys, Check(poll, execution, limit, world, until))
    ensures Sound(Moved(sys, Check(poll, execution, limit, world, until))) && Awake(Moved(sys, Check(poll, execution, limit, world, until)))
  {
    hide Inv, Sound, Awake, Sensible, Evolves, Fair, ReserveInbox, Signals.Subscribed, Signals.Unsubscribed, Signals.Notified;
    var turn := Runs.Turn.Turn(Reserve(Caller(sys.polls[poll].agent, execution), limit), world, until);
    var s1 := sys.(scope := Step(sys.scope, turn));
    StepOf(sys, turn);
    OtherKeeps(sys, Step(sys.scope, turn));
    if ReserveInbox(sys.scope, Caller(sys.polls[poll].agent, execution), limit, world).result == Ok(None) {
      BlockKeeps(s1, poll);
    } else {
      RestKeeps(s1, poll);
    }
  }

  // ---- whole runs ----------------------------------------------------------------------------

  ghost function Interleaved(sys: System, moves: seq<Move>): Option<System>
    requires Sound(sys) && Awake(sys)
    decreases |moves|
  {
    if moves == [] then Some(sys)
    else if !Allowed(sys, moves[0]) then None
    else
      NothingIsSleptThrough(sys, moves[0]);
      Interleaved(Moved(sys, moves[0]), moves[1..])
  }

  lemma {:induction false} EveryInterleavingIsAwake(sys: System, moves: seq<Move>)
    requires Sound(sys) && Awake(sys) && Interleaved(sys, moves).Some?
    ensures Sound(Interleaved(sys, moves).value) && Awake(Interleaved(sys, moves).value)
    decreases |moves|
  {
    hide Inv, Signals.Valid, Awake, Allowed, Moved;
    if moves != [] {
      NothingIsSleptThrough(sys, moves[0]);
      EveryInterleavingIsAwake(Moved(sys, moves[0]), moves[1..]);
    }
  }

  /** Nobody polls yet, and nothing waits to be announced. */
  lemma StartsAwake(scope: Scope)
    requires Inv(scope)
    ensures var sys := System(scope, Signals.NO_SIGNALS, map[], map[]);
            Sound(sys) && Awake(sys)
  {
    hide Inv;
    assert forall c :: Signals.Waiting(Signals.NO_SIGNALS, c) == {};
  }

  /** A rotation and a channel post are transactions that may be announced to the whole scope. */
  lemma AnnouncedToAll(sys: System, hub: Channels.Hub, author: Channels.Author, input: Channels.PostInput, turn: Turn, thread: Id)
    requires Sound(sys) && thread !in sys.notices && Possible(sys.scope, turn) && hub.scope == sys.scope
    requires Channels.Sound(hub) && Fair(turn.world, hub.scope.clock, hub.scope.issued + hub.minted)
    ensures Allowed(sys, LandForAll(Step(sys.scope, turn), thread))
    ensures Allowed(sys, LandForAll(Channels.PostChannel(hub, author, input, turn.world).0.scope, thread))
  {
    hide Inv, Keeps, Fair, Sensible, Apply, Channels.PostChannel, Channels.Sound;
    StepOf(sys, turn);
    Channels.PostIsAtomic(hub, author, input, turn.world);
    KeptIsInv(hub.scope, Channels.PostChannel(hub, author, input, turn.world).0.scope);
  }
}
