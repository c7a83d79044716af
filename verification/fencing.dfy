/** What an ended execution can still do: nothing, but for giving back what it holds with its own token
    (bus/retire.go, bus/store.go requireCurrentExecution). */
module Fencing {
  import opened Model
  import opened Logs
  import opened Scopes
  import opened RemoteWork
  import opened Invariants
  import opened Rows
  import opened Sweeps
  import opened BoardSteps
  import opened InboxSteps
  import opened SendSteps
  import opened ExecutionSteps
  import opened Runs
  import opened History

  // ---- tokens --------------------------------------------------------------------------------

  /** The execution, and the token it was given, are what the agent has now. */
  predicate Holds(s: Scope, caller: Caller, token: Id) {
    caller.agent in s.agents && s.agents[caller.agent].execution == caller.execution && s.agents[caller.agent].token == token
  }

  lemma TokensDiffer(s: Scope, caller: Caller, token: Id)
    requires Inv(s) && Holds(s, caller, token)
    ensures Holders(s, token) == {caller.agent} && token in s.issued && s.agents[caller.agent].execution in s.issued
  {
    hide MessageRows, KeysUnique, ReservationRows, TaskRows, Board, ProgressRows, Agreement, LogOk, LinkRows, RemoteRows, Threads;
  }

  lemma OneHolder(s: Scope, caller: Caller, token: Id, world: World)
    requires Inv(s) && Holds(s, caller, token)
    ensures world.order(Holders(s, token)) == [caller.agent]
  {
    hide Inv, Holders;
    TokensDiffer(s, caller, token);
    assert Lists(world.order({caller.agent}), {caller.agent});
    OneListed(world.order({caller.agent}), caller.agent);
  }

  lemma OneListed(rows: seq<Id>, id: Id)
    requires Lists(rows, {id})
    ensures rows == [id]
  {
    ListedSize(rows, {id});
    assert rows[0] in rows;
  }

  lemma NoneListed(rows: seq<Id>)
    requires Lists(rows, {})
    ensures rows == []
  {
    ListedSize(rows, {});
  }

  /** A token belongs to one execution for ever: in a later scope it is that of the same execution, or of nobody. */
  lemma TokensFollow(s: Scope, t: Scope, caller: Caller, token: Id)
    requires Inv(s) && Evolves(s, t) && Holds(s, caller, token) && !Holds(t, caller, token)
    ensures Holders(t, token) == {}
  {
    hide Inv;
    TokensDiffer(s, caller, token);
    forall a | a in t.agents ensures t.agents[a].token != token {
      if a in s.agents {
        assert AgentEvolved(s.agents[a], t.agents[a], s.clock, s.issued);
        assert s.agents[a].token == token ==> a in Holders(s, token);
      }
    }
  }

  lemma NobodyRetires(s: Scope, token: Id, world: World)
    requires Holders(s, token) == {}
    ensures RetireAgent(s, token, world) == Outcome(s, Refused(Unauthenticated))
  {
    assert Lists(world.order(Holders(s, token)), {});
    NoneListed(world.order(Holders(s, token)));
  }

  // ---- what a retirement changes -------------------------------------------------------------

  lemma EachFrees(s: Scope, ids: seq<Id>, tick: nat, world: World, out: set<Id>)
    requires Between(s, out)
    ensures var t := ReleaseEach(s, ids, tick, world);
            t.messages.Keys == s.messages.Keys
            && forall m :: m in s.messages ==> t.messages[m] == Returned(s.messages[m], ids)
  {
    hide Between, ReleaseEach, Returned, Evolves;
    ReleaseEachKeeps(s, ids, tick, world, out);
    forall m | m in s.messages ensures ReleaseEach(s, ids, tick, world).messages[m] == Returned(s.messages[m], ids) {
      EachFreesOne(s, ids, tick, world, out, m);
    }
  }

  lemma {:induction false} EachFreesOne(s: Scope, ids: seq<Id>, tick: nat, world: World, out: set<Id>, m: Id)
    requires Between(s, out) && m in s.messages
    ensures Between(ReleaseEach(s, ids, tick, world), out) && m in ReleaseEach(s, ids, tick, world).messages
    ensures ReleaseEach(s, ids, tick, world).messages[m] == Returned(s.messages[m], ids)
    decreases |ids|
  {
    hide Between, Release, Returned, Evolves;
    ReleaseEachKeeps(s, ids, tick, world, out);
    if ids == [] {
      ReturnsNothing(s.messages[m]);
    } else {
      var init, last := ids[..|ids| - 1], ids[|ids| - 1];
      EachFreesOne(s, init, tick, world, out, m);
      assert ids == init + [last];
      ReturnsMore(s.messages[m], init, last);
      OneFrees(ReleaseEach(s, init, tick, world), last, world.tick(tick + |init|), world, out, m);
    }
  }

  /** A message that one of the reservations holds goes back to its inbox. */
  function Returned(m: Message, ids: seq<Id>): Message {
    if m.reservation.Some? && m.reservation.value in ids then AsFreed(m) else m
  }

  lemma ReturnsNothing(m: Message)
    ensures Returned(m, []) == m
  {
  }

  lemma ReturnsMore(m: Message, ids: seq<Id>, last: Id)
    ensures Returned(m, ids + [last]) == Returned(Returned(m, ids), [last])
  {
  }

  lemma OneFrees(s: Scope, r: Id, now: Time, world: World, out: set<Id>, m: Id)
    requires Between(s, out) && m in s.messages
    ensures r in s.reservations ==> var t := Release(s, s.reservations[r].agent, r, now, world);
              m in t.messages && t.messages[m] == Returned(s.messages[m], [r])
    ensures r !in s.reservations ==> Returned(s.messages[m], [r]) == s.messages[m]
  {
    hide Between, Evolves, Release;
    RowOf(s, out, m);
    if r in s.reservations {
      var agent := s.reservations[r].agent;
      ReleaseKeeps(s, agent, r, now, world, out);
      assert Lists(world.order(Held(s, agent, r)), Held(s, agent, r));
    }
  }

  lemma RowOf(s: Scope, out: set<Id>, m: Id)
    requires Between(s, out) && m in s.messages
    ensures HeldBy(s.messages[m], s.reservations) && (s.messages[m].reservation.Some? <==> s.messages[m].state == Reserved)
  {
    hide Core;
    RowFacts(s, out, m);
  }

  /** The token of an execution that is not at rest gives back what its agent holds, whether or not the lease has
      ended: its messages return to the inbox, its reservations go, stale claims are opened, and its lease is zero.
      Nothing else changes but the log. */
  lemma RetirementGivesBack(s: Scope, caller: Caller, token: Id, world: World)
    requires Inv(s) && Fair(world, s.clock, s.issued) && Holds(s, caller, token) && s.agents[caller.agent].leaseExpiresAt != 0
    ensures var out := RetireAgent(s, token, world); var t := out.scope;
            && out.result == Ok(caller)
            && t == s.(agents := s.agents[caller.agent := Rested(s.agents[caller.agent], world.tick(0))],
                       messages := t.messages, reservations := t.reservations, tasks := t.tasks, log := t.log)
            && t.messages.Keys == s.messages.Keys && t.tasks.Keys == s.tasks.Keys
            && (forall r :: r in t.reservations <==> r in s.reservations && s.reservations[r].agent != caller.agent)
            && (forall r :: r in t.reservations ==> t.reservations[r] == s.reservations[r])
            && (forall m :: m in s.messages ==> t.messages[m] == if HeldFor(s, caller.agent, s.messages[m]) then AsFreed(s.messages[m]) else s.messages[m])
            && (forall id :: id in s.tasks && s.tasks[id].status == Claimed && s.tasks[id].claimedBy == Some(caller.agent) ==> t.tasks[id].status == Open)
            && var now := world.tick(1 + |world.order(ReservationsOf(s, caller.agent))|);
               forall id :: id in s.tasks && t.tasks[id] != s.tasks[id] ==>
                 s.tasks[id].status == Claimed && !ClaimLives(t, s.tasks[id], now) && t.tasks[id] == AsReopened(s.tasks[id], now)
  {
    hide Inv, Between, Evolves, Append, ReleaseEach, ReleaseStale, Rested, Returned, HeldFor, AsReopened, ClaimLives;
    OneHolder(s, caller, token, world);
    var agent := caller.agent;
    RestIsZero(s.agents[agent], world.tick(0));
    var s1 := s.(agents := s.agents[agent := Rested(s.agents[agent], world.tick(0))]);
    RestBetween(s, agent, world.tick(0));
    var rows := world.order(ReservationsOf(s1, agent));
    var s2 := ReleaseEach(s1, rows, 1, world);
    var now := world.tick(1 + |rows|);
    assert 0 <= now by { StartsLate(s, world); }
    EachFrees(s1, rows, 1, world, {agent});
    ReleaseEachKeeps(s1, rows, 1, world, {agent});
    ReleaseStaleKeeps(s2, now, world, {agent});
    assert Lists(rows, ReservationsOf(s1, agent));
    forall m | m in s.messages ensures Returned(s.messages[m], rows) == if HeldFor(s, agent, s.messages[m]) then AsFreed(s.messages[m]) else s.messages[m] {
      ReturnsHeld(s1, agent, rows, m);
      SameHeld(s, s1, agent, s.messages[m]);
    }
    assert ReservationsOf(s1, agent) == ReservationsOf(s, agent);
    var t := RetireAgent(s, token, world).scope;
    forall id | id in s.tasks
      ensures s.tasks[id].status == Claimed && s.tasks[id].claimedBy == Some(agent) ==> t.tasks[id].status == Open
      ensures t.tasks[id] != s.tasks[id] ==> s.tasks[id].status == Claimed && !ClaimLives(t, s.tasks[id], now) && t.tasks[id] == AsReopened(s.tasks[id], now) {
      Reopens(s2, ReleaseStale(s2, now, world), t, agent, now, id);
    }
  }

  lemma RestIsZero(row: AgentRow, now: Time)
    ensures Rested(row, now).leaseExpiresAt == 0
  {
  }

  /** The message is reserved by the agent. */
  predicate HeldFor(s: Scope, agent: Id, m: Message) {
    m.reservation.Some? && m.reservation.value in s.reservations && s.reservations[m.reservation.value].agent == agent
  }

  lemma SameHeld(s: Scope, t: Scope, agent: Id, m: Message)
    requires t.reservations == s.reservations
    ensures HeldFor(t, agent, m) == HeldFor(s, agent, m)
  {
  }

  lemma ReturnsHeld(s: Scope, agent: Id, rows: seq<Id>, m: Id)
    requires Lists(rows, ReservationsOf(s, agent)) && m in s.messages
    ensures Returned(s.messages[m], rows) == if HeldFor(s, agent, s.messages[m]) then AsFreed(s.messages[m]) else s.messages[m]
  {
  }

  lemma Reopens(s: Scope, t: Scope, u: Scope, agent: Id, now: Time, id: Id)
    requires id in s.tasks && id in t.tasks && MovesTasks(s, t) && agent in s.agents && s.agents[agent].leaseExpiresAt == 0 && 0 <= now
    requires t.tasks[id].status == Claimed ==> ClaimLives(t, t.tasks[id], now) && t.tasks[id] == s.tasks[id]
    requires t.tasks[id] != s.tasks[id] ==> id in Stale(s, now) && t.tasks[id] == AsReopened(s.tasks[id], now)
    requires u.agents == t.agents && u.tasks == t.tasks
    ensures s.tasks[id].status == Claimed && s.tasks[id].claimedBy == Some(agent) ==> u.tasks[id].status == Open
    ensures u.tasks[id] != s.tasks[id] ==> s.tasks[id].status == Claimed && !ClaimLives(u, s.tasks[id], now) && u.tasks[id] == AsReopened(s.tasks[id], now)
  {
  }

  // ---- whole runs ----------------------------------------------------------------------------

  /** A retirement changes nothing exactly when the token is nobody's any more, or its execution is at rest. */
  lemma RetirementChanges(s: Scope, caller: Caller, token: Id, world: World)
    requires Inv(s) && Fair(world, s.clock, s.issued) && (Holds(s, caller, token) || Holders(s, token) == {})
    ensures RetireAgent(s, token, world).result == Refused(Unauthenticated) <==> !Holds(s, caller, token)
    ensures RetireAgent(s, token, world).scope == s <==> !Holds(s, caller, token) || s.agents[caller.agent].leaseExpiresAt == 0
  {
    hide Inv, RetireAgent, Fair, Rested;
    if !Holds(s, caller, token) {
      NobodyRetires(s, token, world);
    } else if s.agents[caller.agent].leaseExpiresAt == 0 {
      AtRest(s, caller, token, world);
    } else {
      RetirementGivesBack(s, caller, token, world);
      RestIsZero(s.agents[caller.agent], world.tick(0));
    }
  }

  lemma AtRest(s: Scope, caller: Caller, token: Id, world: World)
    requires Inv(s) && Holds(s, caller, token) && s.agents[caller.agent].leaseExpiresAt == 0
    ensures RetireAgent(s, token, world) == Outcome(s, Ok(caller))
  {
    hide Inv, ReleaseEach, ReleaseStale;
    OneHolder(s, caller, token, world);
  }

  /** The operation is asked for by the execution, or with the token that it was given. */
  predicate ActsFor(op: Op, caller: Caller, token: Id) {
    Actor(op) == Some(caller) || op == Retire(token)
  }

  /** What an ended execution asks for later in a run is refused and leaves the scope exactly as it found it, with one
      exception: as long as it has not been replaced, its token is accepted for a retirement, and that changes the
      scope exactly when its lease has run out without being given up. */
  lemma EndedNeverActs(s: Scope, before: seq<Turn>, after: seq<Turn>, turn: Turn, caller: Caller, token: Id)
    requires Inv(s) && Unfolds(s, before + after) && Possible(Run(s, before + after), turn)
    requires Ended(Run(s, before + after), caller) && ActsFor(turn.op, caller, token)
    requires turn.op.Retire? ==> Holds(Run(s, before), caller, token)
    ensures var t := Run(s, before + after);
            && (TurnedAway(t, turn.op, turn.world) <==> !(turn.op.Retire? && Holds(t, caller, token)))
            && (Apply(t, turn.op, turn.world) == t <==>
                !(turn.op.Retire? && Holds(t, caller, token) && t.agents[caller.agent].leaseExpiresAt != 0))
  {
    hide Inv, Run, Unfolds, Apply, TurnedAway, Sensible, Evolves, Ended, Holds, Actor;
    LaterEvolves(s, before, after);
    var t := Run(s, before + after);
    if turn.op.Retire? {
      if !Holds(t, caller, token) {
        TokensFollow(Run(s, before), t, caller, token);
      }
      RetiresBy(turn.op, caller, token);
      RetirementChanges(t, caller, token, turn.world);
      RetireIs(t, token, turn.world);
    } else {
      EndedCannotAct(t, turn.op, turn.world);
    }
  }

  lemma RetiresBy(op: Op, caller: Caller, token: Id)
    requires op.Retire? && ActsFor(op, caller, token)
    ensures op == Retire(token)
  {
  }

  lemma RetireIs(s: Scope, token: Id, world: World)
    ensures Apply(s, Retire(token), world) == RetireAgent(s, token, world).scope
    ensures TurnedAway(s, Retire(token), world) <==> RetireAgent(s, token, world).result == Refused(Unauthenticated)
  {
    hide RetireAgent;
  }

  // ---- a run that shows it -------------------------------------------------------------------

  ghost function At(now: Time, first: Id): World {
    World((ids: set<Id>) => SomeOrder(ids), (i: nat) => now, (i: nat) => first + i)
  }

  /** Agent 1 registers with a lease of thirty seconds, is sent a message, and reserves it. Then its lease runs out. */
  ghost function Expiring(): seq<Turn> {
    [Turn(Register(RegisterInput(Some(1), 30_000, [], false)), At(0, 10), 0),
     Turn(HumanSend(5, Hello()), At(1, 20), 1),
     Turn(Reserve(Caller(1, 10), 1), At(2, 30), 30_000)]
  }

  lemma NothingDue(s: Scope, now: Time, world: World)
    requires Due(s, now) == {}
    ensures Expire(s, now, world) == s
  {
    assert Lists(world.order(Due(s, now)), {});
    NoneListed(world.order(Due(s, now)));
  }

  lemma AtIsFair(now: Time, first: Id, s: Scope)
    requires s.clock <= now && forall id :: id in s.issued ==> id < first
    ensures Fair(At(now, first), s.clock, s.issued)
  {
  }

  ghost function Newcomer(): AgentRow {
    AgentRow(10, 11, Starting, false, 30_000, 0, 0)
  }

  ghost function Joined(hosted: bool): Scope {
    Fresh(hosted).(agents := map[1 := Newcomer()], issued := {10, 11})
  }

  lemma FirstTakesOver(hosted: bool)
    ensures TakeOver(Fresh(hosted), 1, Newcomer(), At(0, 10)) == Joined(hosted)
  {
    var s, world := Fresh(hosted), At(0, 10);
    var s1 := s.(agents := s.agents[1 := Newcomer()], issued := s.issued + {10, 11});
    assert s1 == Joined(hosted);
    NothingHeld(s1, world);
    assert Lists(world.order({}), {});
    NoneListed(world.order({}));
    NothingStale(s1, 0, world);
  }

  lemma NothingHeld(s: Scope, world: World)
    requires s.reservations == map[]
    ensures world.order(ReservationsOf(s, 1)) == []
  {
    assert Lists(world.order(ReservationsOf(s, 1)), {});
    NoneListed(world.order(ReservationsOf(s, 1)));
  }

  lemma NothingStale(s: Scope, now: Time, world: World)
    requires s.tasks == map[]
    ensures ReleaseStale(s, now, world) == s
  {
    assert Lists(world.order(Stale(s, now)), {});
    SortByLists(world.order(Stale(s, now)), {}, ById());
    NoneListed(StaleRows(s, now, world));
  }

  lemma FirstTurn(hosted: bool)
    ensures var s := Fresh(hosted); var turn := Expiring()[0]; var t := Step(s, turn);
            Possible(s, turn) && t == Joined(hosted).(log := t.log)
  {
    hide Append, TakeOver, Joined, Reachable, SomeOrder, Fresh;
    var s, turn := Fresh(hosted), Expiring()[0];
    AtIsFair(0, 10, s) by { FreshIssuesNothing(hosted); }
    FirstTakesOver(hosted);
    JoinedFields(hosted);
  }

  lemma FreshIssuesNothing(hosted: bool)
    ensures Fresh(hosted).issued == {} && Fresh(hosted).clock == 0
  {
  }

  lemma JoinedFields(hosted: bool)
    ensures Joined(hosted).clock == 0 && Joined(hosted).links == {}
  {
  }

  ghost function Hello(): SendInput {
    SendInput(1, "hello", None, None, 0, "[]", None)
  }

  ghost function Greeting(): Message {
    NewMessage(Participant(HumanKind, 5), AgentKind, Hello(), 1)
  }

  ghost function Greeted(hosted: bool): Scope {
    Joined(hosted).(messages := map[20 := Greeting()], issued := {10, 11, 20}, clock := 1)
  }

  lemma SecondTurn(hosted: bool, log: Log)
    ensures var s := Joined(hosted).(log := log); var turn := Expiring()[1]; var t := Step(s, turn);
            Possible(s, turn) && t == Greeted(hosted).(log := t.log)
  {
    hide Append, SomeOrder, NewMessage, HashOf, Expire, Existing, Addressee, Backlog, Answer;
    var s, turn := Joined(hosted).(log := log), Expiring()[1];
    AtIsFair(1, 20, s);
    GreetingPasses(hosted, log, turn.world);
    assert s.messages[20 := Greeting()] == map[20 := Greeting()];
    assert s.issued + {20} == {10, 11, 20};
  }

  lemma GreetingPasses(hosted: bool, log: Log, world: World)
    ensures var s, sender := Joined(hosted).(log := log), Participant(HumanKind, 5);
            && Expire(s, 1, world) == s && Existing(s, sender, Hello(), world) == None
            && Addressee(s, sender, Hello(), false) == Ok(AgentKind) && Backlog(s) == {} && ModeOf(Hello()) == Notify
  {
    hide SomeOrder, NewMessage;
    var s := Joined(hosted).(log := log);
    assert Due(s, 1) == {};
    NothingDue(s, 1, world);
  }

  lemma GreetingWaits()
    ensures Greeting().to == Address(1) && Greeting().state == Queued && Greeting().expiresAt == None
  {
  }

  /** The message is reserved for agent 1 by its execution 10, whose lease has run out. */
  ghost function Stranded(hosted: bool): Scope {
    Greeted(hosted).(messages := map[20 := AsReserved(Greeting(), 30)], reservations := map[30 := Reservation(1, 2, 2 + RESERVATION_TTL, 10)],
                     issued := {10, 11, 20, 30}, clock := 30_000)
  }

  lemma TidyChangesNothing(hosted: bool, log: Log)
    ensures var s := Greeted(hosted).(log := log); Tidied(s, 2, At(2, 30)) == s && Waiting(s, 1, 2) == {20}
  {
    hide NewMessage, SomeOrder, Hello;
    var s, world := Greeted(hosted).(log := log), At(2, 30);
    GreetingWaits();
    assert Due(s, 2) == {} by {
      hide Greeting;
    }
    NothingDue(s, 2, world);
    assert Lapsed(s, 2) == {} && Lists(world.order({}), {});
    NoneListed(world.order({}));
  }

  lemma GreetingPage(hosted: bool, log: Log)
    ensures InboxPage(Greeted(hosted).(log := log), 1, 1, 2, At(2, 30)) == [20]
  {
    hide SomeOrder, Waiting, Greeting;
    var s, world := Greeted(hosted).(log := log), At(2, 30);
    TidyChangesNothing(hosted, log);
    assert Lists(world.order({20}), {20});
    SortByLists(world.order({20}), {20}, Age(s));
    OneListed(SortBy(world.order({20}), Age(s)), 20);
  }

  lemma JoinedAgent(hosted: bool)
    ensures Joined(hosted).agents == map[1 := Newcomer()] && Joined(hosted).reservations == map[] && Joined(hosted).tasks == map[]
  {
  }

  lemma ThirdTurn(hosted: bool, log: Log)
    ensures var s := Greeted(hosted).(log := log); var turn := Expiring()[2]; var t := Step(s, turn);
            Possible(s, turn) && t == Stranded(hosted).(log := t.log)
  {
    hide Append, SomeOrder, Greeting, Tidied, InboxPage, ReserveRows, Joined, AsReserved;
    var s, turn := Greeted(hosted).(log := log), Expiring()[2];
    JoinedAgent(hosted);
    AtIsFair(2, 30, s);
    TidyChangesNothing(hosted, log);
    GreetingPage(hosted, log);
    ReservesOne(s.(reservations := map[30 := Reservation(1, 2, 2 + RESERVATION_TTL, 10)], issued := {10, 11, 20, 30}), 20, 30, 2);
    assert s.reservations[30 := Reservation(1, 2, 2 + RESERVATION_TTL, 10)] == map[30 := Reservation(1, 2, 2 + RESERVATION_TTL, 10)];
    assert s.issued + {30} == {10, 11, 20, 30};
  }

  lemma ReservesOne(s: Scope, id: Id, reservation: Id, now: Time)
    requires s.messages.Keys == {id}
    ensures var t := ReserveRows(s, [id], reservation, now);
            t == s.(messages := map[id := AsReserved(s.messages[id], reservation)], log := t.log)
  {
    hide Append;
    assert [id][..0] == [];
    assert s.messages[id := AsReserved(s.messages[id], reservation)] == map[id := AsReserved(s.messages[id], reservation)];
  }

  /** The exception is reached: in this run from a new scope the execution has ended, every request it makes is
      refused, and its token still returns the message that it had reserved. */
  lemma ExpiredTokenStillRetires(hosted: bool, world: World)
    requires forall i, j :: i <= j ==> world.tick(i) <= world.tick(j)
    requires 30_000 <= world.tick(0) && (forall i, j :: world.mint(i) == world.mint(j) ==> i == j) && forall i :: world.mint(i) > 30
    ensures Unfolds(Fresh(hosted), Expiring())
    ensures var s := Run(Fresh(hosted), Expiring()); var t := RetireAgent(s, 11, world).scope;
            && Fair(world, s.clock, s.issued) && Ended(s, Caller(1, 10)) && Holds(s, Caller(1, 10), 11)
            && 20 in s.messages && s.messages[20].state == Reserved && t != s && 20 in t.messages && t.messages[20].state == Queued
  {
    hide Step, Possible, Joined, Greeted, Stranded, RetireAgent, Inv;
    var s0, turns := Fresh(hosted), Expiring();
    FirstTurn(hosted);
    var s1 := Step(s0, turns[0]);
    SecondTurn(hosted, s1.log);
    var s2 := Step(s1, turns[1]);
    ThirdTurn(hosted, s2.log);
    var s3 := Step(s2, turns[2]);
    assert turns[..2] == [turns[0], turns[1]] && turns[..1] == [turns[0]] && turns[..2][..1] == turns[..1] && turns[..1][..0] == [];
    ThreeTurns(s0, turns);
    FreshIsGood(hosted, Limits(0, 0));
    RunKeeps(s0, turns);
    StrandedFacts(hosted, s3, world);
    RetirementGivesBack(s3, Caller(1, 10), 11, world);
  }

  lemma ThreeTurns(s: Scope, turns: seq<Turn>)
    requires |turns| == 3
    requires Possible(s, turns[0]) && Possible(Step(s, turns[0]), turns[1]) && Possible(Step(Step(s, turns[0]), turns[1]), turns[2])
    ensures Unfolds(s, turns) && Run(s, turns) == Step(Step(Step(s, turns[0]), turns[1]), turns[2])
  {
    hide Step, Possible;
    assert turns[..2][..1] == turns[..1] && turns[..1][..0] == [];
    assert Run(s, turns[..1]) == Step(s, turns[0]) && Unfolds(s, turns[..1]);
    assert Run(s, turns[..2]) == Step(Step(s, turns[0]), turns[1]) && Unfolds(s, turns[..2]);
  }

  lemma StrandedFacts(hosted: bool, s: Scope, world: World)
    requires s == Stranded(hosted).(log := s.log)
    requires (forall i, j :: i <= j ==> world.tick(i) <= world.tick(j)) && 30_000 <= world.tick(0)
    requires (forall i, j :: world.mint(i) == world.mint(j) ==> i == j) && forall i :: world.mint(i) > 30
    ensures Fair(world, s.clock, s.issued) && Ended(s, Caller(1, 10)) && Holds(s, Caller(1, 10), 11) && s.agents[1].leaseExpiresAt != 0
    ensures 20 in s.messages && HeldFor(s, 1, s.messages[20]) && s.messages[20].state == Reserved && AsFreed(s.messages[20]).state == Queued
  {
  }
}
