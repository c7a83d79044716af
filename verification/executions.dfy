/** Registration, heartbeat, retirement and token rotation keep the invariant: a replaced or ended
    execution is left holding nothing. */
module ExecutionSteps {
  import opened Model
  import opened Logs
  import opened Scopes
  import opened RemoteWork
  import opened Invariants
  import opened Rows
  import opened Sweeps
  import opened BoardSteps
  import opened InboxSteps

  // ---- replacing agent rows ------------------------------------------------------------------

  /** New agent rows that keep every owner outside `out`. */
  ghost predicate Reowns(s: Scope, agents: map<Id, AgentRow>, issued: set<Id>, out: set<Id>) {
    && s.agents.Keys <= agents.Keys && s.issued <= issued && AgentRows(agents, issued)
    && (forall a, e :: a !in out && Owns(s.agents, a, e) ==> Owns(agents, a, e))
    && (forall a :: a in s.agents ==> AgentEvolved(s.agents[a], agents[a], s.clock, s.issued))
    && (forall a :: a in agents && a !in s.agents ==> NewOwner(agents[a], s.issued))
  }

  lemma ReownsTasks(s: Scope, agents: map<Id, AgentRow>, out: set<Id>)
    requires TaskRows(s.tasks, s.agents, {}) && ReservationRows(s.reservations, s.agents, {})
    requires s.agents.Keys <= agents.Keys && forall a, e :: a !in out && Owns(s.agents, a, e) ==> Owns(agents, a, e)
    ensures TaskRows(s.tasks, agents, out) && ReservationRows(s.reservations, agents, out)
  {
    hide Owns;
    forall id | id in s.tasks ensures TaskRow(s.tasks[id], agents, out) {
      assert TaskRow(s.tasks[id], s.agents, {});
    }
  }

  lemma ReownsRows(s: Scope, agents: map<Id, AgentRow>, issued: set<Id>, out: set<Id>)
    requires Core(s, {}) && Reowns(s, agents, issued, out)
    ensures MessageRows(s.messages, s.reservations, agents) && ReservationRows(s.reservations, agents, out)
    ensures TaskRows(s.tasks, agents, out) && ProgressRows(s.progress, s.tasks, agents) && LinkRows(s.links, agents)
  {
    hide KeysUnique, Agreement, LogOk, Board, Owns, AgentEvolved, TaskRows, ReservationRows, Stamped, HeldBy, AgentRows;
    ReownsTasks(s, agents, out);
  }

  lemma ReownsKeeps(s: Scope, agents: map<Id, AgentRow>, issued: set<Id>, out: set<Id>)
    requires Inv(s) && Reowns(s, agents, issued, out)
    ensures Between(s.(agents := agents, issued := issued), out) && Evolves(s, s.(agents := agents, issued := issued))
  {
    hide MessageRows, ReservationRows, TaskRows, ProgressRows, LinkRows, KeysUnique, LogOk, Board, Owns, AgentEvolved, Threads, RemoteRows, Agrees, AgentRows;
    ReownsRows(s, agents, issued, out);
    KeepRemote(s, s.(agents := agents, issued := issued));
  }

  lemma EmitKeepsBetween(s: Scope, kind: EventKind, subject: Subject, now: Time)
    requires Inv(s) && Unmarked(kind)
    ensures Keeps(s, Emit(s, kind, subject, Unstated, now))
  {
    hide Core, RemoteRows, Threads, Evolves, Append;
    EmitKeeps(s, kind, subject, now, {});
  }

  // ---- heartbeat -----------------------------------------------------------------------------

  lemma HeartbeatKeeps(s: Scope, caller: Caller, lifecycle: Lifecycle, ready: bool, lease: Time, world: World)
    requires Inv(s) && Fair(world, s.clock, s.issued) && lease > 0
    ensures Keeps(s, Heartbeat(s, caller, lifecycle, ready, lease, world).scope)
  {
    hide Inv, Evolves, Append, Keeps, Reowns;
    KeepsNothing(s);
    var now := world.tick(0);
    if Current(s, caller, now) {
      var row := s.agents[caller.agent].(lifecycle := lifecycle, ready := ready, leaseExpiresAt := now + lease, updatedAt := now);
      RenewalReowns(s, caller, row, now);
      var s1 := s.(agents := s.agents[caller.agent := row], issued := s.issued);
      ReownsAlone(s, s1.agents);
      EmitKeepsBetween(s1, LifecycleChanged, AgentSubject(caller.agent), now);
      KeepsThen(s, s1, Emit(s1, LifecycleChanged, AgentSubject(caller.agent), Unstated, now));
    }
  }

  lemma ReownsAlone(s: Scope, agents: map<Id, AgentRow>)
    requires Inv(s) && Reowns(s, agents, s.issued, {})
    ensures Inv(s.(agents := agents)) && Keeps(s, s.(agents := agents))
  {
    hide Core, Threads, RemoteRows, Evolves, Reowns;
    ReownsKeeps(s, agents, s.issued, {});
    assert s.(agents := agents, issued := s.issued) == s.(agents := agents);
  }

  lemma RenewalReowns(s: Scope, caller: Caller, row: AgentRow, now: Time)
    requires Inv(s) && s.clock <= now && Current(s, caller, now)
    requires row.execution == caller.execution && row.token == s.agents[caller.agent].token && row.leaseExpiresAt > now
    ensures Reowns(s, s.agents[caller.agent := row], s.issued, {})
  {
    hide MessageRows, ReservationRows, TaskRows, ProgressRows, LinkRows, KeysUnique, LogOk, Board, Threads, RemoteRows, Agreement;
    assert s.agents[caller.agent := row].Keys == s.agents.Keys;
  }

  // ---- taking over ---------------------------------------------------------------------------

  /** Releasing all reservations of an agent leaves none of its. */
  lemma ReleaseAllOf(s: Scope, agent: Id, tick: nat, world: World, out: set<Id>)
    requires Between(s, out)
    ensures var t := ReleaseEach(s, world.order(ReservationsOf(s, agent)), tick, world);
            && Between(t, out) && Evolves(s, t)
            && t == s.(messages := t.messages, reservations := t.reservations, log := t.log) && t.messages.Keys == s.messages.Keys
            && (forall r :: r in t.reservations ==> r in s.reservations && t.reservations[r] == s.reservations[r] && t.reservations[r].agent != agent)
  {
    hide Between, Evolves, ReleaseEach;
    assert Lists(world.order(ReservationsOf(s, agent)), ReservationsOf(s, agent));
    ReleaseEachKeeps(s, world.order(ReservationsOf(s, agent)), tick, world, out);
  }

  /** The common tail of registration and retirement: release what the agent held, then stale claims. */
  lemma ClearedOut(s: Scope, agent: Id, world: World)
    requires Between(s, {agent}) && s.clock <= world.tick(0) && forall i, j :: i <= j ==> world.tick(i) <= world.tick(j)
    ensures var rows := world.order(ReservationsOf(s, agent));
            var t := ReleaseStale(ReleaseEach(s, rows, 1, world), world.tick(1 + |rows|), world);
            && Inv(t) && Evolves(s, t) && t.agents == s.agents && t.issued == s.issued && t.clock == s.clock && t.links == s.links
            && t.correlations == s.correlations && t.messages.Keys == s.messages.Keys && t.tasks.Keys == s.tasks.Keys && Dispossessed(t, agent, world.tick(1 + |rows|))
  {
    hide Between, Evolves, ReleaseEach, ReleaseStale;
    var rows := world.order(ReservationsOf(s, agent));
    ReleaseAllOf(s, agent, 1, world, {agent});
    var t := ReleaseEach(s, rows, 1, world);
    var now := world.tick(1 + |rows|);
    ReleaseStaleKeeps(t, now, world, {agent});
    ClockNonNegative(s, {agent});
    FenceCloses(ReleaseStale(t, now, world), now, {agent});
    HandedBetween(s, {agent});
    EvolvesTransitive(s, t, ReleaseStale(t, now, world));
  }

  lemma ClockNonNegative(s: Scope, out: set<Id>)
    requires Between(s, out)
    ensures 0 <= s.clock
  {
  }

  /** The agent holds no reservation, and no claim that is not its current execution's. */
  ghost predicate Dispossessed(s: Scope, agent: Id, now: Time) {
    && (forall r :: r in s.reservations ==> s.reservations[r].agent != agent)
    && (forall t :: t in s.tasks && s.tasks[t].status == Claimed ==> ClaimLives(s, s.tasks[t], now))
  }

  lemma TakeOverReowns(s: Scope, agent: Id, row: AgentRow)
    requires Inv(s) && row.execution !in s.issued && row.token !in s.issued && 0 <= row.leaseExpiresAt
    ensures Reowns(s, s.agents[agent := row], s.issued + {row.execution, row.token}, {agent})
  {
    hide MessageRows, ReservationRows, TaskRows, ProgressRows, LinkRows, KeysUnique, LogOk, Board, Threads, RemoteRows, Agreement;
  }

  lemma TakeOverKeeps(s: Scope, agent: Id, row: AgentRow, world: World)
    requires Inv(s) && row.execution !in s.issued && row.token !in s.issued && 0 <= row.leaseExpiresAt
    requires Fair(world, s.clock, s.issued)
    ensures Keeps(s, TakeOver(s, agent, row, world))
    ensures var t := TakeOver(s, agent, row, world);
            && t.agents == s.agents[agent := row] && t.links == s.links && t.clock == s.clock && t.issued == s.issued + {row.execution, row.token}
            && Dispossessed(t, agent, world.tick(1 + |world.order(ReservationsOf(s, agent))|))
  {
    hide Between, Evolves, ReleaseEach, ReleaseStale, Dispossessed, Reowns;
    var s1 := s.(agents := s.agents[agent := row], issued := s.issued + {row.execution, row.token});
    TakeOverReowns(s, agent, row);
    ReownsKeeps(s, s1.agents, s1.issued, {agent});
    assert ReservationsOf(s1, agent) == ReservationsOf(s, agent);
    ClearedOut(s1, agent, world);
    HandedBetween(s, {});
    EvolvesTransitive(s, s1, TakeOver(s, agent, row, world));
  }

  // ---- links ---------------------------------------------------------------------------------

  lemma {:induction false} EmitAllKeeps(s: Scope, batch: seq<Pending>, now: Time)
    requires Inv(s) && forall p :: p in batch ==> p.attribute.Unstated? && Unmarked(p.kind)
    ensures Keeps(s, s.(log := AppendAll(s.log, batch, now)))
    decreases |batch|
  {
    hide Between, Evolves, Append;
    KeepsNothing(s);
    if batch != [] {
      var init, last := batch[..|batch| - 1], batch[|batch| - 1];
      assert batch == init + [last];
      EmitAllKeeps(s, init, now);
      var t := s.(log := AppendAll(s.log, init, now));
      assert last in batch;
      EmitKeepsBetween(t, last.kind, last.subject, now);
      assert Emit(t, last.kind, last.subject, Unstated, now) == s.(log := AppendAll(s.log, batch, now));
      KeepsThen(s, t, s.(log := AppendAll(s.log, batch, now)));
    } else {
      assert s.(log := AppendAll(s.log, batch, now)) == s;
    }
  }

  lemma LinksKeep(s: Scope, links: set<(Id, Id)>)
    requires Inv(s) && LinkRows(links, s.agents)
    ensures Keeps(s, s.(links := links))
  {
    hide MessageRows, ReservationRows, KeysUnique, AgentRows, TaskRows, Board, ProgressRows, LogOk, Agrees, LinkRows, RemoteRows, Threads, Evolves;
    EvolvesApart(s, s.(links := links));
    KeepRemote(s, s.(links := links));
  }

  lemma LinkRowsOf(s: Scope)
    requires Inv(s)
    ensures LinkRows(s.links, s.agents)
  {
  }

  lemma {:induction false} LinkEventsUnstated(s: Scope, agent: Id, peers: seq<Id>)
    ensures forall p :: p in LinkEvents(s, agent, peers) ==> p.attribute.Unstated? && Unmarked(p.kind)
    decreases |peers|
  {
    if peers != [] {
      LinkEventsUnstated(s, agent, peers[..|peers| - 1]);
    }
  }

  lemma NewLinks(s: Scope, agent: Id, peers: seq<Id>)
    requires LinkRows(s.links, s.agents) && agent in s.agents && agent !in peers && forall peer :: peer in peers ==> peer in s.agents
    ensures LinkRows(s.links + PairsWith(agent, peers), s.agents)
  {
  }

  lemma NewLinksKeep(s: Scope, agent: Id, peers: seq<Id>, now: Time)
    requires Inv(s) && agent in s.agents && agent !in peers && forall peer :: peer in peers ==> peer in s.agents
    ensures Keeps(s, s.(links := s.links + PairsWith(agent, peers), log := AppendAll(s.log, LinkEvents(s, agent, peers), now)))
  {
    hide Between, Evolves, AppendAll, LinkRows, LinkEvents, PairsWith;
    LinkRowsOf(s);
    var t := s.(links := s.links + PairsWith(agent, peers));
    NewLinks(s, agent, peers);
    LinksKeep(s, t.links);
    LinkEventsUnstated(s, agent, peers);
    EmitAllKeeps(t, LinkEvents(s, agent, peers), now);
    KeepsThen(s, t, t.(log := AppendAll(s.log, LinkEvents(s, agent, peers), now)));
  }

  lemma LinkPeersKeep(s: Scope, agent: Id, peers: seq<Id>, now: Time)
    requires Inv(s) && agent in s.agents
    ensures Keeps(s, LinkPeers(s, agent, peers, now).scope)
  {
    hide Inv, Evolves, AppendAll, LinkEvents, PairsWith, Keeps;
    KeepsNothing(s);
    if agent !in peers && forall peer :: peer in peers ==> peer in s.agents {
      NewLinksKeep(s, agent, peers, now);
    }
  }

  lemma LinkAgentsKeep(s: Scope, left: Id, right: Id, world: World)
    requires Inv(s)
    ensures Keeps(s, LinkAgents(s, left, right, world).scope)
  {
    hide Between, Evolves, Append;
    KeepsNothing(s);
    if left != right && left in s.agents && right in s.agents && !Linked(s, left, right) {
      LinkRowsOf(s);
      var pair := OrderedPair(left, right);
      var t := s.(links := s.links + {pair});
      LinksKeep(s, t.links);
      EmitKeepsBetween(t, LinkCreated, LinkSubject(pair.0, pair.1), world.tick(0));
      KeepsThen(s, t, Emit(t, LinkCreated, LinkSubject(pair.0, pair.1), Unstated, world.tick(0)));
    }
  }

  // ---- register, retire, rotate --------------------------------------------------------------

  lemma StartsLate(s: Scope, world: World)
    requires Inv(s) && Fair(world, s.clock, s.issued)
    ensures 0 <= world.tick(0)
  {
    hide Between;
    ClockNonNegative(s, {});
  }

  lemma EmitAgents(s: Scope, kind: EventKind, subject: Subject, now: Time)
    ensures Emit(s, kind, subject, Unstated, now).agents == s.agents
  {
  }

  lemma RegisterAgentKeeps(s: Scope, input: RegisterInput, world: World)
    requires Inv(s) && Fair(world, s.clock, s.issued) && input.lease > 0
    ensures Keeps(s, RegisterAgent(s, input, world).scope)
  {
    hide Inv, Keeps, Emit, TakeOver, LinkPeers, Reachable, Dispossessed, Unique, SortBy, FirstRows;
    KeepsNothing(s);
    var now := world.tick(0);
    assert 0 <= now by { StartsLate(s, world); }
    var agent := if input.agent.Some? then input.agent.value else world.mint(2);
    var row := AgentRow(world.mint(0), world.mint(1), Starting, false, now + input.lease, now, now);
    TakeOverKeeps(s, agent, row, world);
    var s1 := TakeOver(s, agent, row, world);
    assert Inv(s1) by { KeepsInv(s, s1); }
    EmitKeepsBetween(s1, AgentRegistered, AgentSubject(agent), now);
    var s2 := Emit(s1, AgentRegistered, AgentSubject(agent), Unstated, now);
    assert s2.agents == s1.agents by { EmitAgents(s1, AgentRegistered, AgentSubject(agent), now); }
    KeepsThen(s, s1, s2);
    assert Inv(s2) by { KeepsInv(s1, s2); }
    var nearby := if input.workspace then FirstRows(SortBy(world.order(Reachable(s2, agent, now)), ById()), PEER_CAP + 1) else [];
    LinkPeersKeep(s2, agent, Unique(input.connectTo + nearby), now);
    KeepsThen(s, s2, LinkPeers(s2, agent, Unique(input.connectTo + nearby), now).scope);
  }

  lemma RestReowns(s: Scope, agent: Id, now: Time)
    requires Inv(s) && agent in s.agents
    ensures Reowns(s, s.agents[agent := Rested(s.agents[agent], now)], s.issued, {agent})
  {
    hide MessageRows, ReservationRows, TaskRows, ProgressRows, LinkRows, KeysUnique, LogOk, Board, Threads, RemoteRows, Agreement;
  }

  lemma RetireAgentKeeps(s: Scope, token: Id, world: World)
    requires Inv(s) && Fair(world, s.clock, s.issued)
    ensures Keeps(s, RetireAgent(s, token, world).scope)
  {
    hide Between, Evolves, Append, ReleaseEach, ReleaseStale, Dispossessed, Reowns;
    KeepsNothing(s);
    var holders := world.order(Holders(s, token));
    if |holders| > 0 && holders[0] in s.agents && s.agents[holders[0]].leaseExpiresAt != 0 {
      var agent := holders[0];
      var s1 := s.(agents := s.agents[agent := Rested(s.agents[agent], world.tick(0))]);
      RestReowns(s, agent, world.tick(0));
      ReownsKeeps(s, s1.agents, s.issued, {agent});
      ClearedOut(s1, agent, world);
      var rows := world.order(ReservationsOf(s1, agent));
      var s2 := ReleaseStale(ReleaseEach(s1, rows, 1, world), world.tick(1 + |rows|), world);
      HandedBetween(s, {});
      EvolvesTransitive(s, s1, s2);
      EmitKeepsBetween(s2, LifecycleChanged, AgentSubject(agent), world.tick(0));
      KeepsThen(s, s2, Emit(s2, LifecycleChanged, AgentSubject(agent), Unstated, world.tick(0)));
    }
  }

  lemma {:induction false} ReleaseAgentsKeep(s: Scope, agents: seq<Id>, tick: nat, world: World, out: set<Id>)
    requires Between(s, out)
    ensures var t := ReleaseAgents(s, agents, tick, world);
            && Between(t, out) && Evolves(s, t)
            && t == s.(messages := t.messages, reservations := t.reservations, log := t.log) && t.messages.Keys == s.messages.Keys
            && (forall r :: r in t.reservations ==> r in s.reservations && t.reservations[r] == s.reservations[r] && t.reservations[r].agent !in agents)
    decreases |agents|
  {
    hide Between, Evolves, ReleaseEach;
    EvolvesReflexive(s);
    if agents != [] {
      var init, last := agents[..|agents| - 1], agents[|agents| - 1];
      assert agents == init + [last];
      ReleaseAgentsKeep(s, init, tick, world, out);
      var t := ReleaseAgents(s, init, tick, world);
      ReleaseAllOf(t, last, tick, world, out);
      HandedBetween(s, out);
      EvolvesTransitive(s, t, ReleaseAgents(s, agents, tick, world));
    }
  }

  lemma RestAllKeeps(s: Scope, now: Time)
    requires Inv(s)
    ensures Between(RestAll(s, now), s.agents.Keys) && Evolves(s, RestAll(s, now))
    ensures forall a :: a in RestAll(s, now).agents ==> RestAll(s, now).agents[a].leaseExpiresAt == 0
  {
    hide Between, Evolves, Reowns;
    var t := RestAll(s, now);
    RestAllReowns(s, now);
    ReownsKeeps(s, t.agents, s.issued, s.agents.Keys);
    assert s.(agents := t.agents, issued := s.issued) == t;
  }

  lemma RestAllReowns(s: Scope, now: Time)
    requires Inv(s)
    ensures Reowns(s, RestAll(s, now).agents, s.issued, s.agents.Keys)
  {
    hide MessageRows, ReservationRows, TaskRows, ProgressRows, LinkRows, KeysUnique, LogOk, Board, Threads, RemoteRows, Agreement;
  }

  lemma CredentialsKeep(s: Scope, credentials: map<Id, Credential>)
    requires Inv(s) && credentials.Keys == s.credentials.Keys
    ensures Keeps(s, s.(credentials := credentials))
  {
    hide MessageRows, ReservationRows, KeysUnique, AgentRows, TaskRows, Board, ProgressRows, LogOk, Agrees, LinkRows, RemoteRows, Threads, Evolves;
    EvolvesApart(s, s.(credentials := credentials));
    KeepRemote(s, s.(credentials := credentials));
  }

  ghost predicate AllEnded(t: Scope) {
    && t.reservations == map[] && (forall x :: x in t.tasks ==> t.tasks[x].status != Claimed)
    && (forall a :: a in t.agents ==> t.agents[a].leaseExpiresAt == 0)
  }

  lemma EndAllKeeps(s: Scope, world: World)
    requires Inv(s) && Fair(world, s.clock, s.issued)
    ensures Keeps(s, EndAll(s, world)) && AllEnded(EndAll(s, world))
  {
    hide Between, Evolves, RestAll, ReleaseAgents, ReleaseStale;
    var s1, out := RestAll(s, world.tick(0)), s.agents.Keys;
    RestAllKeeps(s, world.tick(0));
    RestAllFrame(s, world.tick(0));
    var rows := world.order(out);
    assert Lists(rows, out);
    ReleaseAgentsKeep(s1, rows, 1, world, out);
    var t := ReleaseAgents(s1, rows, 1, world);
    ReservedByAgents(t, out);
    ReleaseStaleKeeps(t, world.tick(1), world, out);
    ClockNonNegative(s, {});
    FenceCloses(EndAll(s, world), world.tick(1), out);
    HandedBetween(s, {});
    EvolvesTransitive(s, s1, t);
    EvolvesTransitive(s, t, EndAll(s, world));
  }

  lemma RestAllFrame(s: Scope, now: Time)
    ensures RestAll(s, now).agents.Keys == s.agents.Keys && RestAll(s, now).clock == s.clock && RestAll(s, now).correlations == s.correlations
    ensures RestAll(s, now).messages == s.messages && RestAll(s, now).tasks == s.tasks
  {
  }

  lemma DisableAllKeeps(s: Scope)
    requires Inv(s)
    ensures Keeps(s, DisableAll(s)) && (AllEnded(s) ==> AllEnded(DisableAll(s)))
    ensures forall c :: c in DisableAll(s).credentials ==> !DisableAll(s).credentials[c].enabled
  {
    hide Between, Evolves;
    CredentialsKeep(s, DisableAll(s).credentials);
  }

  /** Rotation ends every execution and disables every scoped credential. */
  lemma RotateScopeTokenKeeps(s: Scope, world: World)
    requires Inv(s) && Fair(world, s.clock, s.issued)
    ensures Keeps(s, RotateScopeToken(s, world)) && AllEnded(RotateScopeToken(s, world))
    ensures forall c :: c in RotateScopeToken(s, world).credentials ==> !RotateScopeToken(s, world).credentials[c].enabled
  {
    hide Between, Evolves, Append, EndAll, DisableAll;
    var s1 := EndAll(s, world);
    EndAllKeeps(s, world);
    DisableAllKeeps(s1);
    EmitKeepsBetween(DisableAll(s1), CredentialsRotated, ScopeSubject, world.tick(0));
    KeepsThen(s1, DisableAll(s1), RotateScopeToken(s, world));
    KeepsThen(s, s1, RotateScopeToken(s, world));
  }

  lemma ReservedByAgents(t: Scope, out: set<Id>)
    requires Between(t, out)
    ensures forall r :: r in t.reservations ==> t.reservations[r].agent in t.agents
  {
  }
}
