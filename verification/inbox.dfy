/** The inbox transactions keep the invariant and do what their callers rely on. */
module InboxSteps {
  import opened Model
  import opened Logs
  import opened Scopes
  import opened RemoteWork
  import opened Invariants
  import opened Rows
  import opened Sweeps
  import opened Totals

  /** New messages and tasks come in only while the scope stays within its limits. */
  ghost predicate StaysWithin(s: Scope, t: Scope) {
    && (t.messages.Keys <= s.messages.Keys || |Backlog(t)| <= BACKLOG_CAP)
    && (t.tasks.Keys <= s.tasks.Keys || |Unfinished(t)| <= ACTIVE_TASK_CAP)
  }

  lemma LiveShrinks(s: Scope, t: Scope)
    requires Evolves(s, t) && t.messages.Keys <= s.messages.Keys
    ensures Backlog(t) <= Backlog(s)
  {
    forall id | id in Backlog(t) ensures id in Backlog(s) {
      assert MessageEvolved(s.messages[id], t.messages[id]);
    }
  }

  lemma OpenShrinks(s: Scope, t: Scope)
    requires Evolves(s, t) && t.tasks.Keys <= s.tasks.Keys
    ensures Unfinished(t) <= Unfinished(s)
  {
    forall id | id in Unfinished(t) ensures id in Unfinished(s) {
      assert TaskEvolved(s.tasks[id], t.tasks[id]);
    }
  }

  lemma StaysWithinThen(s: Scope, t: Scope, u: Scope)
    requires StaysWithin(s, t) && StaysWithin(t, u) && Evolves(t, u)
    ensures StaysWithin(s, u)
  {
    hide Evolves, Backlog, Unfinished;
    if u.messages.Keys <= t.messages.Keys {
      LiveShrinks(t, u);
      SizeGrows(Backlog(u), Backlog(t) + Backlog(u));
      assert Backlog(t) + Backlog(u) == Backlog(t);
    }
    if u.tasks.Keys <= t.tasks.Keys {
      OpenShrinks(t, u);
      SizeGrows(Unfinished(u), Unfinished(t) + Unfinished(u));
      assert Unfinished(t) + Unfinished(u) == Unfinished(t);
    }
  }

  /** A transaction that kept everything and took no new work from a remote principal. */
  ghost predicate Keeps(s: Scope, t: Scope) {
    Inv(t) && Evolves(s, t) && t.correlations.Keys <= s.correlations.Keys && t.clock == s.clock && StaysWithin(s, t)
  }

  lemma HandedInv(s: Scope)
    requires Inv(s)
    ensures Handed(s)
  {
  }

  lemma KeepsNothing(s: Scope)
    requires Inv(s)
    ensures Keeps(s, s)
  {
    EvolvesReflexive(s);
  }

  lemma KeepsThen(s: Scope, t: Scope, u: Scope)
    requires Inv(s) && Keeps(s, t) && Keeps(t, u)
    ensures Keeps(s, u)
  {
    hide Inv, Evolves, StaysWithin;
    HandedInv(s);
    EvolvesTransitive(s, t, u);
    StaysWithinThen(s, t, u);
  }

  // ---- reserve -------------------------------------------------------------------------------

  lemma TidiedKeeps(s: Scope, now: Time, world: World)
    requires Inv(s)
    ensures Keeps(s, Tidied(s, now, world))
    ensures var t := Tidied(s, now, world);
            t.agents == s.agents && t.issued == s.issued && t.clock == s.clock && t.tasks == s.tasks && t.messages.Keys == s.messages.Keys
  {
    hide Between, Evolves, Expire, ReleaseEach;
    ExpireKeeps(s, now, world, {});
    var s1 := Expire(s, now, world);
    ReleaseEachKeeps(s1, world.order(Lapsed(s1, now)), 1, world, {});
    KeepsThen(s, s1, Tidied(s, now, world));
  }

  lemma PageRows(s: Scope, agent: Id, limit: nat, now: Time, world: World)
    ensures var page := InboxPage(s, agent, limit, now, world);
            && Distinct(page) && (forall id :: id in page ==> id in Waiting(s, agent, now))
            && Sorted(page, Age(s)) && |page| == if limit < |Waiting(s, agent, now)| then limit else |Waiting(s, agent, now)|
  {
    var rows := world.order(Waiting(s, agent, now));
    assert Lists(rows, Waiting(s, agent, now));
    SortByLists(rows, Waiting(s, agent, now), Age(s));
    SortBySorts(rows, Age(s));
    ListedSize(rows, Waiting(s, agent, now));
  }

  lemma {:induction false} ListedSize(rows: seq<Id>, ids: set<Id>)
    requires Lists(rows, ids)
    ensures |rows| == |ids|
    decreases |rows|
  {
    if rows != [] {
      var init, last := rows[..|rows| - 1], rows[|rows| - 1];
      SplitLast(rows);
      ListedSize(init, ids - {last});
    } else {
      assert ids == {};
    }
  }

  lemma AddReservationRows(s: Scope, id: Id, row: Reservation)
    requires MessageRows(s.messages, s.reservations, s.agents) && ReservationRows(s.reservations, s.agents, {})
    requires id !in s.reservations && Owns(s.agents, row.agent, row.maker)
    ensures MessageRows(s.messages, s.reservations[id := row], s.agents) && ReservationRows(s.reservations[id := row], s.agents, {})
  {
  }

  lemma MoreIssued(agents: map<Id, AgentRow>, issued: set<Id>, more: set<Id>)
    requires AgentRows(agents, issued)
    ensures AgentRows(agents, issued + more)
  {
  }

  lemma AddReservationCore(s: Scope, id: Id, row: Reservation)
    requires Core(s, {}) && id !in s.issued && Owns(s.agents, row.agent, row.maker)
    ensures Core(s.(reservations := s.reservations[id := row], issued := s.issued + {id}), {})
  {
    hide MessageRows, ReservationRows, KeysUnique, AgentRows, TaskRows, Board, ProgressRows, LogOk, Agrees, LinkRows, Owns;
    MoreIssued(s.agents, s.issued, {id});
    assert id !in s.reservations;
    AddReservationRows(s, id, row);
  }

  lemma AddReservationKeeps(s: Scope, id: Id, row: Reservation)
    requires Inv(s) && id !in s.issued && Owns(s.agents, row.agent, row.maker)
    ensures Keeps(s, s.(reservations := s.reservations[id := row], issued := s.issued + {id}))
  {
    hide Core, RemoteRows, Threads, Evolves, Owns;
    var t := s.(reservations := s.reservations[id := row], issued := s.issued + {id});
    EvolvesApart(s, t);
    KeepRemote(s, t);
    AddReservationCore(s, id, row);
  }

  lemma ReserveInboxKeeps(s: Scope, caller: Caller, limit: nat, world: World)
    requires Inv(s) && Fair(world, s.clock, s.issued)
    ensures Keeps(s, ReserveInbox(s, caller, limit, world).scope)
  {
    hide Inv, Keeps, Tidied, InboxPage, ReserveRows, Waiting;
    KeepsNothing(s);
    var now := world.tick(0);
    if Current(s, caller, now) {
      ClockIsPositive(s);
      TidiedKeeps(s, now, world);
      var s1, page := Tidied(s, now, world), InboxPage(Tidied(s, now, world), caller.agent, limit, now, world);
      KeepsInv(s, s1);
      if page != [] {
        var id, row := world.mint(0), Reservation(caller.agent, now, now + RESERVATION_TTL, caller.execution);
        PageKeeps(s1, caller, limit, now, world, id, row);
        KeepsThen(s, s1, ReserveInbox(s, caller, limit, world).scope);
      }
    }
  }

  /** Holding the oldest page under a new reservation. */
  lemma PageKeeps(s: Scope, caller: Caller, limit: nat, now: Time, world: World, id: Id, row: Reservation)
    requires Inv(s) && id !in s.issued && row.agent == caller.agent && Owns(s.agents, row.agent, row.maker)
    ensures var t := s.(reservations := s.reservations[id := row], issued := s.issued + {id});
            Keeps(s, ReserveRows(t, InboxPage(s, caller.agent, limit, now, world), id, now))
  {
    hide Between, Evolves, InboxPage, ReserveRows, Owns;
    var t, page := s.(reservations := s.reservations[id := row], issued := s.issued + {id}), InboxPage(s, caller.agent, limit, now, world);
    PageRows(s, caller.agent, limit, now, world);
    AddReservationKeeps(s, id, row);
    ReserveRowsKeep(t, page, id, now, {});
    KeepsThen(s, t, ReserveRows(t, page, id, now));
  }

  lemma ClockIsPositive(s: Scope)
    requires Inv(s)
    ensures 0 <= s.clock
  {
  }

  // ---- commit --------------------------------------------------------------------------------

  lemma CommitRowsKeep(s: Scope, agent: Id, reservation: Id, now: Time, world: World)
    requires Inv(s)
    ensures var rows := SortBy(world.order(Held(s, agent, reservation)), Age(s));
            Keeps(s, DeliverRows(s, rows, now)) && Changes(s, DeliverRows(s, rows, now), rows, m => AsDelivered(m, now))
            && Lists(rows, Held(s, agent, reservation))
  {
    hide Between, Evolves, DeliverRows;
    var held := Held(s, agent, reservation);
    assert Lists(world.order(held), held);
    SortByLists(world.order(held), held, Age(s));
    DeliverRowsKeep(s, SortBy(world.order(held), Age(s)), now, {});
  }

  lemma DropAlone(s: Scope, agent: Id, reservation: Id)
    requires Inv(s) && forall id :: id in s.messages ==> s.messages[id].reservation != Some(reservation)
    ensures Keeps(s, DropReservation(s, agent, reservation))
  {
    hide Core, Threads, RemoteRows, Evolves;
    DropKeeps(s, agent, reservation, {});
  }

  lemma CommitHeldKeeps(s: Scope, agent: Id, reservation: Id, now: Time, world: World)
    requires Inv(s) && reservation in s.reservations && s.reservations[reservation].agent == agent
    ensures var t := DeliverRows(s, SortBy(world.order(Held(s, agent, reservation)), Age(s)), now);
            Keeps(s, t.(reservations := t.reservations - {reservation}))
  {
    hide Inv, Keeps, DeliverRows;
    var rows := SortBy(world.order(Held(s, agent, reservation)), Age(s));
    var t := DeliverRows(s, rows, now);
    CommitRowsKeep(s, agent, reservation, now, world);
    NobodyHoldsDelivered(s, t, agent, reservation, rows, now);
    KeepsInv(s, t);
    DropAlone(t, agent, reservation);
    KeepsThen(s, t, DropReservation(t, agent, reservation));
  }

  lemma KeepsInv(s: Scope, t: Scope)
    requires Keeps(s, t)
    ensures Inv(t)
  {
  }

  lemma CommitInboxKeeps(s: Scope, caller: Caller, reservation: Id, world: World)
    requires Inv(s)
    ensures Keeps(s, CommitInbox(s, caller, reservation, world).scope)
  {
    hide Inv, Keeps, Expire, Release, DeliverRows, Current;
    KeepsNothing(s);
    if !Current(s, caller, world.tick(0)) || reservation !in s.reservations || s.reservations[reservation].agent != caller.agent {
    } else if s.reservations[reservation].expiresAt <= world.tick(1) {
      ReleaseAlone(s, caller.agent, reservation, world.tick(2), world);
    } else {
      CommitLiveKeeps(s, caller.agent, reservation, world);
    }
  }

  lemma ReleaseAlone(s: Scope, agent: Id, reservation: Id, now: Time, world: World)
    requires Inv(s)
    ensures Keeps(s, Release(s, agent, reservation, now, world))
  {
    hide Between, Evolves, Release;
    ReleaseKeeps(s, agent, reservation, now, world, {});
  }

  lemma CommitLiveKeeps(s: Scope, agent: Id, reservation: Id, world: World)
    requires Inv(s) && reservation in s.reservations && s.reservations[reservation].agent == agent
    ensures var s1 := Expire(s, world.tick(2), world);
            var t := DeliverRows(s1, SortBy(world.order(Held(s1, agent, reservation)), Age(s1)), world.tick(3));
            Keeps(s, t.(reservations := t.reservations - {reservation}))
  {
    hide Inv, Keeps, Expire, DeliverRows;
    var s1 := Expire(s, world.tick(2), world);
    SweptAlone(s, world.tick(2), world);
    KeepsInv(s, s1);
    CommitHeldKeeps(s1, agent, reservation, world.tick(3), world);
    var t := DeliverRows(s1, SortBy(world.order(Held(s1, agent, reservation)), Age(s1)), world.tick(3));
    KeepsThen(s, s1, t.(reservations := t.reservations - {reservation}));
  }

  lemma SweptAlone(s: Scope, now: Time, world: World)
    requires Inv(s)
    ensures Keeps(s, Expire(s, now, world)) && Expire(s, now, world).reservations == s.reservations
  {
    hide Between, Evolves, Expire;
    ExpireKeeps(s, now, world, {});
  }

  lemma NobodyHoldsDelivered(s: Scope, t: Scope, agent: Id, reservation: Id, ids: seq<Id>, now: Time)
    requires Inv(s) && reservation in s.reservations && s.reservations[reservation].agent == agent
    requires Lists(ids, Held(s, agent, reservation)) && Changes(s, t, ids, m => AsDelivered(m, now))
    ensures forall id :: id in t.messages ==> t.messages[id].reservation != Some(reservation)
  {
    hide Threads, RemoteRows, Agreement, LogOk, KeysUnique, AgentRows, TaskRows, Board, ProgressRows, LinkRows, ReservationRows;
    forall id | id in t.messages ensures t.messages[id].reservation != Some(reservation) {
      assert Stamped(s.messages[id]) && HeldBy(s.messages[id], s.reservations);
    }
  }

  // ---- release, acknowledge, receipt ---------------------------------------------------------

  lemma ReleaseInboxKeeps(s: Scope, caller: Caller, reservation: Id, world: World)
    requires Inv(s)
    ensures Keeps(s, ReleaseInbox(s, caller, reservation, world).scope)
  {
    hide Between, Evolves, Expire, Release;
    KeepsNothing(s);
    if Current(s, caller, world.tick(0)) {
      var s1 := Expire(s, world.tick(1), world);
      ExpireKeeps(s, world.tick(1), world, {});
      ReleaseKeeps(s1, caller.agent, reservation, world.tick(2), world, {});
      KeepsThen(s, s1, Release(s1, caller.agent, reservation, world.tick(2), world));
    }
  }

  lemma AcknowledgeKeeps(s: Scope, caller: Caller, ids: seq<Id>, world: World)
    requires Inv(s)
    ensures Keeps(s, AcknowledgeMessages(s, caller, ids, world).scope)
  {
    hide Between, Evolves, Expire, AcknowledgeRows;
    KeepsNothing(s);
    if Current(s, caller, world.tick(0)) {
      var s1 := Expire(s, world.tick(1), world);
      ExpireKeeps(s, world.tick(1), world, {});
      AcknowledgeRowsKeep(s1, Unique(ids), caller.agent, 2, world, {});
      KeepsThen(s, s1, AcknowledgeRows(s1, Unique(ids), caller.agent, 2, world));
    }
  }

  lemma ReceiptKeeps(s: Scope, caller: Caller, id: Id, world: World)
    requires Inv(s)
    ensures Keeps(s, Receipt(s, caller, id, world).scope)
  {
    hide Between, Evolves, Expire;
    KeepsNothing(s);
    ExpireKeeps(s, world.tick(1), world, {});
  }
}
