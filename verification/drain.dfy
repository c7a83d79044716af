/** Draining an inbox: a consumer that reserves, commits and acknowledges page by page empties it. */
module Drain {
  import opened Model
  import opened Logs
  import opened Scopes
  import opened RemoteWork
  import opened Invariants
  import opened Rows
  import opened Sweeps
  import opened InboxSteps

  /** What waits for an agent, when nothing expires. */
  function Inbox(s: Scope, agent: Id): set<Id> {
    set id | id in s.messages && s.messages[id].to == Address(agent) && (s.messages[id].state == Queued || s.messages[id].state == Delivered)
  }

  /** Nothing in the scope expires by `horizon`, nothing of the agent's is reserved, and its execution stays current. */
  ghost predicate Calm(s: Scope, caller: Caller, horizon: Time) {
    && (forall id :: id in s.messages && s.messages[id].expiresAt.Some? && Live(s.messages[id].state) ==> s.messages[id].expiresAt.value > horizon)
    && (forall id :: id in s.messages && s.messages[id].to == Address(caller.agent) ==> s.messages[id].state != Reserved)
    && Current(s, caller, horizon)
  }

  /** One round: what its three calls take from outside. */
  datatype Round = Round(reserve: World, commit: World, acknowledge: World)

  /** The round's clock stays below the horizon, and the commit comes within the reservation's lifetime. */
  ghost predicate Prompt(s: Scope, round: Round, horizon: Time) {
    && Fair(round.reserve, s.clock, s.issued)
    && (forall i :: round.reserve.tick(i) <= horizon && round.commit.tick(i) <= horizon && round.acknowledge.tick(i) <= horizon)
    && round.commit.tick(1) < round.reserve.tick(0) + RESERVATION_TTL
  }

  /** Reserve a page, commit it, acknowledge it. */
  function Turn(s: Scope, caller: Caller, limit: nat, round: Round): (Scope, seq<Id>) {
    var held := ReserveInbox(s, caller, limit, round.reserve);
    match held.result
    case Ok(Some(hold)) =>
      var committed := CommitInbox(held.scope, caller, hold.id, round.commit);
      (match committed.result
       case Ok(rows) => (AcknowledgeMessages(committed.scope, caller, rows, round.acknowledge).scope, rows)
       case _ => (committed.scope, []))
    case _ => (held.scope, [])
  }

  // ---- one round -----------------------------------------------------------------------------

  lemma NothingDue(s: Scope, caller: Caller, horizon: Time, now: Time, world: World)
    requires Calm(s, caller, horizon) && now <= horizon
    ensures Expire(s, now, world) == s
  {
    assert Due(s, now) == {};
    assert Lists(world.order({}), {});
    ListedSize(world.order({}), {});
  }

  /** Releasing other agents' lapsed reservations leaves this agent's messages alone. */
  lemma {:induction false} ReleaseSpares(s: Scope, ids: seq<Id>, tick: nat, world: World, id: Id)
    requires Inv(s) && id in s.messages && s.messages[id].state != Reserved
    ensures id in ReleaseEach(s, ids, tick, world).messages && ReleaseEach(s, ids, tick, world).messages[id] == s.messages[id]
    decreases |ids|
  {
    hide Inv, Release;
    if ids != [] {
      var init, last := ids[..|ids| - 1], ids[|ids| - 1];
      ReleaseSpares(s, init, tick, world, id);
      EachKeeps(s, init, tick, world);
      var t := ReleaseEach(s, init, tick, world);
      if last in t.reservations {
        ReleaseOne(t, t.reservations[last].agent, last, world.tick(tick + |init|), world, id);
      }
    }
  }

  lemma EachKeeps(s: Scope, ids: seq<Id>, tick: nat, world: World)
    requires Inv(s)
    ensures Inv(ReleaseEach(s, ids, tick, world))
  {
    hide Between, Evolves, ReleaseEach;
    ReleaseEachKeeps(s, ids, tick, world, {});
  }

  lemma ReleaseOne(s: Scope, agent: Id, reservation: Id, now: Time, world: World, id: Id)
    requires Inv(s) && id in s.messages && s.messages[id].state != Reserved
    ensures id in Release(s, agent, reservation, now, world).messages && Release(s, agent, reservation, now, world).messages[id] == s.messages[id]
  {
    hide Between, Evolves, Release;
    ReleaseKeeps(s, agent, reservation, now, world, {});
    var held := Held(s, agent, reservation);
    assert Lists(world.order(held), held);
  }

  /** Nothing but the listed messages of the agent changed, and nothing came back to life. */
  ghost predicate Undisturbed(s: Scope, t: Scope, agent: Id, rows: seq<Id>) {
    && t.messages.Keys == s.messages.Keys && t.agents == s.agents
    && (forall id :: id in s.messages ==> MessageEvolved(s.messages[id], t.messages[id]))
    && (forall id :: id in s.messages && s.messages[id].to == Address(agent) && id !in rows ==> t.messages[id] == s.messages[id])
  }

  lemma StillCalm(s: Scope, t: Scope, caller: Caller, rows: seq<Id>, horizon: Time)
    requires Calm(s, caller, horizon) && Undisturbed(s, t, caller.agent, rows)
    requires forall id :: id in rows && id in t.messages ==> t.messages[id].state != Reserved
    ensures Calm(t, caller, horizon)
  {
    forall id | id in t.messages && t.messages[id].to == Address(caller.agent) ensures t.messages[id].state != Reserved {
      assert MessageEvolved(s.messages[id], t.messages[id]);
    }
    forall id | id in t.messages && t.messages[id].expiresAt.Some? && Live(t.messages[id].state) ensures t.messages[id].expiresAt.value > horizon {
      assert MessageEvolved(s.messages[id], t.messages[id]);
    }
  }

  lemma TidiedSpares(s: Scope, caller: Caller, horizon: Time, world: World)
    requires Inv(s) && Calm(s, caller, horizon) && world.tick(0) <= horizon
    ensures var t := Tidied(s, world.tick(0), world);
            Undisturbed(s, t, caller.agent, []) && Inv(t) && Calm(t, caller, horizon) && t.issued == s.issued && t.clock == s.clock
  {
    hide Inv, Expire, ReleaseEach, MessageEvolved;
    NothingDue(s, caller, horizon, world.tick(0), world);
    var t := Tidied(s, world.tick(0), world);
    TidiedFrame(s, world.tick(0), world);
    forall id | id in s.messages && s.messages[id].state != Reserved ensures t.messages[id] == s.messages[id] {
      ReleaseSpares(s, world.order(Lapsed(s, world.tick(0))), 1, world, id);
    }
    StillCalm(s, t, caller, [], horizon);
  }

  lemma TidiedFrame(s: Scope, now: Time, world: World)
    requires Inv(s)
    ensures var t := Tidied(s, now, world);
            && Inv(t) && t.messages.Keys == s.messages.Keys && t.agents == s.agents && t.issued == s.issued && t.clock == s.clock
            && (forall id :: id in s.messages ==> MessageEvolved(s.messages[id], t.messages[id]))
  {
    hide Tidied, Between;
    TidiedKeeps(s, now, world);
  }

  /** A page is the oldest part of an inbox, in order. */
  ghost predicate Oldest(s: Scope, agent: Id, page: seq<Id>, limit: nat) {
    && Distinct(page) && Sorted(page, Age(s)) && (forall id :: id in page ==> id in Inbox(s, agent))
    && |page| == (if limit < |Inbox(s, agent)| then limit else |Inbox(s, agent)|)
    && (forall x, y :: x in page && y in Inbox(s, agent) && y !in page ==> Age(s)(x) <= Age(s)(y))
  }

  lemma NothingExpires(s: Scope, caller: Caller, horizon: Time, now: Time)
    requires Calm(s, caller, horizon) && now <= horizon
    ensures Waiting(s, caller.agent, now) == Inbox(s, caller.agent)
  {
  }

  lemma PageIsOldest(s: Scope, caller: Caller, limit: nat, horizon: Time, now: Time, world: World)
    requires Calm(s, caller, horizon) && now <= horizon
    ensures Oldest(s, caller.agent, InboxPage(s, caller.agent, limit, now, world), limit)
  {
    var agent := caller.agent;
    hide Calm, InboxPage, Sorted;
    assert Waiting(s, agent, now) == Inbox(s, agent) by { NothingExpires(s, caller, horizon, now); }
    PageRows(s, agent, limit, now, world);
    var page := InboxPage(s, agent, limit, now, world);
    forall x, y | x in page && y in Inbox(s, agent) && y !in page ensures Age(s)(x) <= Age(s)(y) {
      OlderFirst(s, agent, limit, now, world, x, y);
    }
  }

  /** What a page leaves out is no older than what it has. */
  lemma OlderFirst(s: Scope, agent: Id, limit: nat, now: Time, world: World, x: Id, y: Id)
    requires x in InboxPage(s, agent, limit, now, world) && y in Waiting(s, agent, now) && y !in InboxPage(s, agent, limit, now, world)
    ensures Age(s)(x) <= Age(s)(y)
  {
    hide Waiting, SortBy, Age;
    var listed := world.order(Waiting(s, agent, now));
    assert Lists(listed, Waiting(s, agent, now));
    var sorted, page := SortBy(listed, Age(s)), InboxPage(s, agent, limit, now, world);
    SortByLists(listed, Waiting(s, agent, now), Age(s));
    SortBySorts(listed, Age(s));
    var i :| 0 <= i < |page| && page[i] == x;
    var j :| 0 <= j < |sorted| && sorted[j] == y;
    assert j >= |page|;
    assert sorted[i] == x;
  }

  // ---- reserve -------------------------------------------------------------------------------

  /** The page is held for the caller under a reservation that names nothing else. */
  ghost predicate Holding(s: Scope, t: Scope, caller: Caller, page: seq<Id>, id: Id, until: Time) {
    && Undisturbed(s, t, caller.agent, page) && Inv(t)
    && id in t.reservations && t.reservations[id].agent == caller.agent && t.reservations[id].expiresAt == until
    && (forall m :: m in t.messages ==> (m in page <==> t.messages[m].reservation == Some(id)))
    && (forall m :: m in page ==> m in s.messages && t.messages[m] == AsReserved(s.messages[m], id))
  }

  lemma NoneNamed(s: Scope, id: Id)
    requires Inv(s) && id !in s.issued
    ensures forall m :: m in s.messages ==> s.messages[m].reservation != Some(id)
  {
    hide Threads, RemoteRows, Agreement, LogOk, KeysUnique, AgentRows, TaskRows, Board, ProgressRows, LinkRows, ReservationRows;
  }

  lemma HoldPage(s: Scope, caller: Caller, page: seq<Id>, id: Id, now: Time)
    requires Inv(s) && Current(s, caller, now) && 0 <= now && id !in s.issued && Distinct(page)
    requires forall m :: m in page ==> m in Inbox(s, caller.agent)
    ensures var row := Reservation(caller.agent, now, now + RESERVATION_TTL, caller.execution);
            var t := ReserveRows(s.(reservations := s.reservations[id := row], issued := s.issued + {id}), page, id, now);
            Holding(s, t, caller, page, id, now + RESERVATION_TTL)
  {
    hide Inv, Evolves, ReserveRows, Stamped, MessageEvolved;
    var row := Reservation(caller.agent, now, now + RESERVATION_TTL, caller.execution);
    var s1 := s.(reservations := s.reservations[id := row], issued := s.issued + {id});
    AddReservationKeeps(s, id, row);
    NoneNamed(s, id);
    ReserveAll(s1, page, id, now);
    var t := ReserveRows(s1, page, id, now);
    forall m | m in s.messages ensures MessageEvolved(s.messages[m], t.messages[m]) {
      ReservedEvolves(s, m, id);
    }
  }

  lemma ReservedEvolves(s: Scope, m: Id, id: Id)
    requires Inv(s) && m in s.messages
    ensures s.messages[m].state in {Queued, Delivered} ==> MessageEvolved(s.messages[m], AsReserved(s.messages[m], id))
    ensures MessageEvolved(s.messages[m], s.messages[m])
  {
  }

  lemma ReserveAll(s: Scope, page: seq<Id>, id: Id, now: Time)
    requires Inv(s) && Distinct(page) && id in s.reservations
    requires forall m :: m in page ==> m in s.messages && s.messages[m].state in {Queued, Delivered} && s.messages[m].to == Address(s.reservations[id].agent)
    ensures Inv(ReserveRows(s, page, id, now)) && Changes(s, ReserveRows(s, page, id, now), page, m => AsReserved(m, id))
  {
    hide Between, Evolves, ReserveRows;
    ReserveRowsKeep(s, page, id, now, {});
  }

  /** `t` relates to `s` as a tidied scope does, and the page was taken from it. */
  ghost predicate Took(s: Scope, t: Scope, caller: Caller, limit: nat, hold: Hold) {
    && Holding(s, t, caller, hold.messages, hold.id, hold.expiresAt) && Oldest(s, caller.agent, hold.messages, limit)
  }

  lemma SameInboxes(s: Scope, t: Scope, caller: Caller, horizon: Time)
    requires Calm(s, caller, horizon) && Undisturbed(s, t, caller.agent, [])
    ensures Inbox(t, caller.agent) == Inbox(s, caller.agent)
    ensures forall id :: id in s.messages ==> Age(t)(id) == Age(s)(id)
  {
    forall id | id in s.messages ensures t.messages[id].to == s.messages[id].to && t.messages[id].createdAt == s.messages[id].createdAt {
      assert MessageEvolved(s.messages[id], t.messages[id]);
    }
  }

  lemma OldestCarries(s: Scope, t: Scope, caller: Caller, horizon: Time, page: seq<Id>, limit: nat)
    requires Calm(s, caller, horizon) && Undisturbed(s, t, caller.agent, []) && Oldest(t, caller.agent, page, limit)
    ensures Oldest(s, caller.agent, page, limit)
  {
    hide Calm, Undisturbed;
    SameInboxes(s, t, caller, horizon);
    assert forall id :: id in Inbox(s, caller.agent) ==> id in s.messages;
  }

  lemma UndisturbedThen(s: Scope, t: Scope, u: Scope, agent: Id, first: seq<Id>, second: seq<Id>)
    requires Undisturbed(s, t, agent, first) && Undisturbed(t, u, agent, second)
    ensures Undisturbed(s, u, agent, first + second)
  {
    forall m | m in s.messages ensures MessageEvolved(s.messages[m], u.messages[m]) {
      assert MessageEvolved(s.messages[m], t.messages[m]) && MessageEvolved(t.messages[m], u.messages[m]);
    }
    forall m | m in s.messages && s.messages[m].to == Address(agent) && m !in first + second ensures u.messages[m] == s.messages[m] {
      assert t.messages[m] == s.messages[m];
    }
  }

  lemma PageSame(s: Scope, t: Scope, agent: Id, page: seq<Id>)
    requires Undisturbed(s, t, agent, []) && forall m :: m in page ==> m in Inbox(s, agent)
    ensures forall m :: m in page ==> m in s.messages && m in t.messages && t.messages[m] == s.messages[m]
  {
    hide MessageEvolved;
    forall m | m in page ensures m in s.messages && m in t.messages && t.messages[m] == s.messages[m] {
      assert m in Inbox(s, agent);
    }
  }

  lemma HoldingCarries(s: Scope, t: Scope, u: Scope, caller: Caller, page: seq<Id>, id: Id, until: Time)
    requires Undisturbed(s, t, caller.agent, []) && Holding(t, u, caller, page, id, until)
    requires forall m :: m in page ==> m in Inbox(s, caller.agent)
    ensures Holding(s, u, caller, page, id, until)
  {
    hide Inv, Undisturbed, Inbox;
    UndisturbedThen(s, t, u, caller.agent, [], page);
    assert [] + page == page;
    PageSame(s, t, caller.agent, page);
  }

  lemma OldestIsDistinct(s: Scope, agent: Id, page: seq<Id>, limit: nat)
    requires Oldest(s, agent, page, limit)
    ensures Distinct(page)
  {
  }

  lemma ReserveTurn(s: Scope, caller: Caller, limit: nat, world: World, horizon: Time)
    requires Inv(s) && Calm(s, caller, horizon) && limit > 0 && Fair(world, s.clock, s.issued) && forall i :: world.tick(i) <= horizon
    ensures var held := ReserveInbox(s, caller, limit, world);
            if Inbox(s, caller.agent) == {} then held.result == Ok(None) && Undisturbed(s, held.scope, caller.agent, []) && Inv(held.scope) && Calm(held.scope, caller, horizon)
            else
              && held.result.Ok? && held.result.value.Some? && held.result.value.value.expiresAt == world.tick(0) + RESERVATION_TTL
              && Took(s, held.scope, caller, limit, held.result.value.value)
  {
    hide Inv, Tidied, InboxPage, ReserveRows, Calm, Undisturbed, Oldest, Holding, Inbox, Current, Owns;
    var now := world.tick(0);
    CurrentTill(s, caller, horizon, now);
    ClockIsPositive(s);
    TidiedSpares(s, caller, horizon, world);
    var s1 := Tidied(s, now, world);
    var page := InboxPage(s1, caller.agent, limit, now, world);
    PageIsOldest(s1, caller, limit, horizon, now, world);
    SameInboxes(s, s1, caller, horizon);
    OldestCarries(s, s1, caller, horizon, page, limit);
    PageSize(s, caller.agent, page, limit);
    OldestIsDistinct(s, caller.agent, page, limit);
    if page != [] {
      CurrentTill(s1, caller, horizon, now);
      HoldPage(s1, caller, page, world.mint(0), now);
      HoldingCarries(s, s1, ReserveInbox(s, caller, limit, world).scope, caller, page, world.mint(0), now + RESERVATION_TTL);
    }
  }

  lemma CurrentTill(s: Scope, caller: Caller, horizon: Time, now: Time)
    requires Calm(s, caller, horizon) && now <= horizon
    ensures Current(s, caller, now)
  {
  }

  lemma PageSize(s: Scope, agent: Id, page: seq<Id>, limit: nat)
    requires Oldest(s, agent, page, limit)
    ensures limit > 0 ==> (page == [] <==> Inbox(s, agent) == {})
    ensures forall m :: m in page ==> m in Inbox(s, agent)
  {
    if page != [] {
      assert page[0] in page;
    }
  }

  // ---- commit --------------------------------------------------------------------------------

  /** The page is delivered and nothing else of the agent's moved. */
  ghost predicate DeliveredPage(s: Scope, t: Scope, caller: Caller, page: seq<Id>) {
    && Undisturbed(s, t, caller.agent, page) && Inv(t)
    && (forall m :: m in page ==> m in t.messages && t.messages[m].state == Delivered && t.messages[m].to == Address(caller.agent))
  }

  lemma NothingDueWhileHeld(s: Scope, t: Scope, caller: Caller, page: seq<Id>, horizon: Time, now: Time, world: World)
    requires Calm(s, caller, horizon) && Undisturbed(s, t, caller.agent, page) && now <= horizon
    ensures Expire(t, now, world) == t
  {
    forall id | id in t.messages ensures id !in Due(t, now) {
      assert MessageEvolved(s.messages[id], t.messages[id]);
    }
    assert Due(t, now) == {};
    assert Lists(world.order({}), {});
    ListedSize(world.order({}), {});
  }

  lemma HeldIsPage(s: Scope, t: Scope, caller: Caller, page: seq<Id>, id: Id, until: Time)
    requires Holding(s, t, caller, page, id, until) && forall m :: m in page ==> m in Inbox(s, caller.agent)
    ensures forall m :: m in Held(t, caller.agent, id) <==> m in page
  {
  }

  /** The rows a commit delivers are the page, oldest first. */
  lemma CommitRows(s: Scope, t: Scope, caller: Caller, page: seq<Id>, id: Id, until: Time, world: World)
    requires Holding(s, t, caller, page, id, until) && forall m :: m in page ==> m in Inbox(s, caller.agent)
    ensures var rows := SortBy(world.order(Held(t, caller.agent, id)), Age(t));
            Distinct(rows) && (forall m :: m in rows <==> m in page) && Sorted(rows, Age(s))
  {
    hide Inv, MessageEvolved;
    HeldIsPage(s, t, caller, page, id, until);
    var held := Held(t, caller.agent, id);
    assert Lists(world.order(held), held);
    SortByLists(world.order(held), held, Age(t));
    SortBySorts(world.order(held), Age(t));
    SameAges(s, t, caller, page, SortBy(world.order(held), Age(t)));
  }

  lemma DeliveredAll(s: Scope, t: Scope, u: Scope, caller: Caller, page: seq<Id>, id: Id, until: Time, rows: seq<Id>, now: Time)
    requires Holding(s, t, caller, page, id, until) && forall m :: m in rows <==> m in page
    requires u.messages.Keys == t.messages.Keys && u.agents == t.agents
    requires forall m :: m in t.messages ==> u.messages[m] == if m in rows then AsDelivered(t.messages[m], now) else t.messages[m]
    requires forall m :: m in page ==> m in Inbox(s, caller.agent)
    ensures Undisturbed(s, u, caller.agent, page)
    ensures forall m :: m in page ==> m in u.messages && u.messages[m].state == Delivered && u.messages[m].to == Address(caller.agent)
  {
    hide Inv, MessageEvolved;
    forall m | m in s.messages ensures MessageEvolved(s.messages[m], u.messages[m]) {
      DeliveredEvolves(s.messages[m], t.messages[m], u.messages[m], now);
    }
  }

  lemma HoldCurrent(s: Scope, t: Scope, caller: Caller, page: seq<Id>, id: Id, until: Time, now: Time)
    requires Holding(s, t, caller, page, id, until) && Current(s, caller, now)
    ensures Current(t, caller, now)
  {
    hide Inv, MessageEvolved;
  }

  /** What a commit does when it comes in time and nothing is due. */
  lemma CommitIs(t: Scope, caller: Caller, id: Id, world: World)
    requires Current(t, caller, world.tick(0)) && id in t.reservations && t.reservations[id].agent == caller.agent
    requires t.reservations[id].expiresAt > world.tick(1) && Expire(t, world.tick(2), world) == t
    ensures var rows := SortBy(world.order(Held(t, caller.agent, id)), Age(t));
            var u := DeliverRows(t, rows, world.tick(3));
            CommitInbox(t, caller, id, world) == Outcome(u.(reservations := u.reservations - {id}), Ok(rows))
  {
    hide Expire, DeliverRows, Current, Held;
  }

  lemma CommitTurn(s: Scope, t: Scope, caller: Caller, limit: nat, hold: Hold, world: World, horizon: Time)
    requires Calm(s, caller, horizon) && Took(s, t, caller, limit, hold)
    requires (forall i :: world.tick(i) <= horizon) && world.tick(1) < hold.expiresAt
    ensures var out := CommitInbox(t, caller, hold.id, world);
            && out.result.Ok? && Distinct(out.result.value) && (forall m :: m in out.result.value <==> m in hold.messages)
            && Sorted(out.result.value, Age(s)) && DeliveredPage(s, out.scope, caller, hold.messages)
  {
    hide Inv, Calm, DeliverRows, MessageEvolved, Evolves, Expire, Oldest, Sorted, CommitInbox, Undisturbed, Current, Held, Inbox;
    CurrentTill(s, caller, horizon, world.tick(0));
    NothingDueWhileHeld(s, t, caller, hold.messages, horizon, world.tick(2), world);
    PageSize(s, caller.agent, hold.messages, limit);
    CommitRows(s, t, caller, hold.messages, hold.id, hold.expiresAt, world);
    CommitKeepsInv(t, caller, hold.id, world);
    HoldCurrent(s, t, caller, hold.messages, hold.id, hold.expiresAt, world.tick(0));
    CommitIs(t, caller, hold.id, world);
    CommitDelivers(s, t, caller, hold.messages, hold.id, hold.expiresAt, world);
  }

  lemma CommitDelivers(s: Scope, t: Scope, caller: Caller, page: seq<Id>, id: Id, until: Time, world: World)
    requires Holding(s, t, caller, page, id, until) && forall m :: m in page ==> m in Inbox(s, caller.agent)
    ensures var u := DeliverRows(t, SortBy(world.order(Held(t, caller.agent, id)), Age(t)), world.tick(3));
            var v := u.(reservations := u.reservations - {id});
            && Undisturbed(s, v, caller.agent, page)
            && forall m :: m in page ==> m in v.messages && v.messages[m].state == Delivered && v.messages[m].to == Address(caller.agent)
  {
    hide Inv, DeliverRows, MessageEvolved, Undisturbed, Inbox, Holding, Held, Sorted, Changes;
    CommitRows(s, t, caller, page, id, until, world);
    var rows := SortBy(world.order(Held(t, caller.agent, id)), Age(t));
    HoldingRows(s, t, caller, page, id, until, rows);
    DeliverAll(t, rows, world.tick(3));
    var u := DeliverRows(t, rows, world.tick(3));
    DeliveredAll(s, t, u.(reservations := u.reservations - {id}), caller, page, id, until, rows, world.tick(3));
  }

  lemma SameAges(s: Scope, t: Scope, caller: Caller, page: seq<Id>, rows: seq<Id>)
    requires Undisturbed(s, t, caller.agent, page) && Sorted(rows, Age(t)) && forall m :: m in rows ==> m in t.messages
    ensures Sorted(rows, Age(s))
  {
    forall i, j | 0 <= i < j < |rows| ensures Age(s)(rows[i]) <= Age(s)(rows[j]) {
      assert rows[i] in rows && rows[j] in rows;
      assert MessageEvolved(s.messages[rows[i]], t.messages[rows[i]]) && MessageEvolved(s.messages[rows[j]], t.messages[rows[j]]);
    }
  }

  lemma DeliveredEvolves(m: Message, n: Message, o: Message, now: Time)
    requires MessageEvolved(m, n) && (o == n || (o == AsDelivered(n, now) && n.state == Reserved))
    ensures MessageEvolved(m, o)
  {
  }

  lemma HoldingRows(s: Scope, t: Scope, caller: Caller, page: seq<Id>, id: Id, until: Time, rows: seq<Id>)
    requires Holding(s, t, caller, page, id, until) && forall m :: m in rows <==> m in page
    ensures Inv(t) && forall m :: m in rows ==> m in t.messages && t.messages[m].state == Reserved
  {
    hide Inv, MessageEvolved;
  }

  lemma DeliverAll(t: Scope, rows: seq<Id>, now: Time)
    requires Inv(t) && Distinct(rows) && forall m :: m in rows ==> m in t.messages && t.messages[m].state == Reserved
    ensures var u := DeliverRows(t, rows, now);
            && u.messages.Keys == t.messages.Keys && u.agents == t.agents
            && (forall m :: m in t.messages ==> u.messages[m] == if m in rows then AsDelivered(t.messages[m], now) else t.messages[m])
  {
    hide Between, Evolves, DeliverRows;
    DeliverRowsKeep(t, rows, now, {});
  }

  lemma CommitKeepsInv(t: Scope, caller: Caller, id: Id, world: World)
    requires Inv(t)
    ensures Inv(CommitInbox(t, caller, id, world).scope)
  {
    hide Between, Evolves, CommitInbox;
    CommitInboxKeeps(t, caller, id, world);
  }

  // ---- acknowledge ---------------------------------------------------------------------------

  lemma AcknowledgeAll(t: Scope, rows: seq<Id>, agent: Id, tick: nat, world: World)
    requires Inv(t) && Distinct(rows)
    ensures Inv(AcknowledgeRows(t, rows, agent, tick, world)) && Acknowledges(t, AcknowledgeRows(t, rows, agent, tick, world), rows, agent)
  {
    hide Between, Evolves, AcknowledgeRows, Acknowledges;
    AcknowledgeRowsKeep(t, rows, agent, tick, world, {});
  }

  /** The page is acknowledged and nothing else of the agent's moved. */
  ghost predicate AcknowledgedPage(s: Scope, t: Scope, caller: Caller, page: seq<Id>) {
    && Undisturbed(s, t, caller.agent, page) && Inv(t)
    && (forall m :: m in page ==> m in t.messages && t.messages[m].state == Acknowledged)
  }

  lemma AcknowledgedAll(s: Scope, t: Scope, u: Scope, caller: Caller, page: seq<Id>, rows: seq<Id>)
    requires DeliveredPage(s, t, caller, page) && Acknowledges(t, u, rows, caller.agent) && Inv(u) && forall m :: m in rows <==> m in page
    ensures AcknowledgedPage(s, u, caller, page)
  {
    hide Inv, MessageEvolved, Stamped;
    forall m | m in s.messages ensures MessageEvolved(s.messages[m], u.messages[m]) {
      AcknowledgedEvolves(t, s.messages[m], m, u.messages[m]);
    }
  }

  lemma AcknowledgedEvolves(t: Scope, m: Message, id: Id, o: Message)
    requires Inv(t) && id in t.messages && MessageEvolved(m, t.messages[id])
    requires o == t.messages[id] || (t.messages[id].state == Delivered && o.acknowledgedAt.Some? && o == AsAcknowledged(t.messages[id], o.acknowledgedAt.value))
    ensures MessageEvolved(m, o)
  {
    hide Threads, RemoteRows;
    RowFacts(t, {}, id);
  }

  lemma AcknowledgeTurn(s: Scope, t: Scope, caller: Caller, page: seq<Id>, rows: seq<Id>, world: World, horizon: Time)
    requires Calm(s, caller, horizon) && DeliveredPage(s, t, caller, page) && forall m :: m in rows <==> m in page
    requires forall i :: world.tick(i) <= horizon
    ensures AcknowledgedPage(s, AcknowledgeMessages(t, caller, rows, world).scope, caller, page)
  {
    hide Inv, Calm, Expire, AcknowledgeRows, Acknowledges, MessageEvolved, AcknowledgedPage;
    CurrentTill(s, caller, horizon, world.tick(0));
    NothingDueWhileHeld(s, t, caller, page, horizon, world.tick(1), world);
    AcknowledgeAll(t, Unique(rows), caller.agent, 2, world);
    AcknowledgedAll(s, t, AcknowledgeRows(t, Unique(rows), caller.agent, 2, world), caller, page, Unique(rows));
  }

  // ---- the whole round -----------------------------------------------------------------------

  lemma SameSize(a: seq<Id>, b: seq<Id>)
    requires Distinct(a) && Distinct(b) && forall m :: m in a <==> m in b
    ensures |a| == |b|
  {
    var ids := set m | m in a;
    ListedSize(a, ids);
    ListedSize(b, ids);
  }

  lemma OldestReordered(s: Scope, agent: Id, page: seq<Id>, rows: seq<Id>, limit: nat)
    requires Oldest(s, agent, page, limit) && Distinct(rows) && (forall m :: m in rows <==> m in page) && Sorted(rows, Age(s))
    ensures Oldest(s, agent, rows, limit)
  {
    SameSize(page, rows);
  }

  lemma PageReordered(s: Scope, t: Scope, caller: Caller, page: seq<Id>, rows: seq<Id>, horizon: Time)
    requires AcknowledgedPage(s, t, caller, page) && (forall m :: m in rows <==> m in page) && Calm(s, caller, horizon)
    ensures AcknowledgedPage(s, t, caller, rows) && Calm(t, caller, horizon)
  {
    StillCalm(s, t, caller, page, horizon);
  }

  /** A round acknowledges the oldest page of the inbox and leaves the rest of it as it was. */
  lemma TurnTakes(s: Scope, caller: Caller, limit: nat, round: Round, horizon: Time)
    requires Inv(s) && Calm(s, caller, horizon) && limit > 0 && Prompt(s, round, horizon)
    ensures var (t, rows) := Turn(s, caller, limit, round);
            Oldest(s, caller.agent, rows, limit) && AcknowledgedPage(s, t, caller, rows) && Calm(t, caller, horizon)
  {
    hide Inv, Calm, ReserveInbox, CommitInbox, AcknowledgeMessages, Fair, Undisturbed, Holding, Oldest, DeliveredPage, AcknowledgedPage, Sorted;
    var held := ReserveInbox(s, caller, limit, round.reserve);
    ReserveTurn(s, caller, limit, round.reserve, horizon);
    if Inbox(s, caller.agent) == {} {
      NothingTaken(s, held.scope, caller, limit);
    } else {
      var hold := held.result.value.value;
      CommitTurn(s, held.scope, caller, limit, hold, round.commit, horizon);
      var committed := CommitInbox(held.scope, caller, hold.id, round.commit);
      AcknowledgeTurn(s, committed.scope, caller, hold.messages, committed.result.value, round.acknowledge, horizon);
      OldestReordered(s, caller.agent, hold.messages, committed.result.value, limit);
      PageReordered(s, AcknowledgeMessages(committed.scope, caller, committed.result.value, round.acknowledge).scope, caller, hold.messages, committed.result.value, horizon);
    }
  }

  lemma NothingTaken(s: Scope, t: Scope, caller: Caller, limit: nat)
    requires Inbox(s, caller.agent) == {} && Undisturbed(s, t, caller.agent, []) && Inv(t)
    ensures Oldest(s, caller.agent, [], limit) && AcknowledgedPage(s, t, caller, [])
  {
    hide Inv;
  }

  // ---- all rounds ----------------------------------------------------------------------------

  function DrainBy(s: Scope, caller: Caller, limit: nat, rounds: seq<Round>): (Scope, seq<Id>)
    decreases |rounds|
  {
    if rounds == [] then (s, []) else
      var (t, rows) := Turn(s, caller, limit, rounds[0]);
      var (u, rest) := DrainBy(t, caller, limit, rounds[1..]);
      (u, rows + rest)
  }

  ghost predicate AllPrompt(s: Scope, caller: Caller, limit: nat, rounds: seq<Round>, horizon: Time)
    decreases |rounds|
  {
    rounds == [] || (Prompt(s, rounds[0], horizon) && AllPrompt(Turn(s, caller, limit, rounds[0]).0, caller, limit, rounds[1..], horizon))
  }

  lemma LeavesIn(s: Scope, t: Scope, caller: Caller, rows: seq<Id>, m: Id)
    requires AcknowledgedPage(s, t, caller, rows) && forall x :: x in rows ==> x in Inbox(s, caller.agent)
    ensures m in Inbox(t, caller.agent) <==> m in Inbox(s, caller.agent) && m !in rows
  {
    hide Inv, MessageEvolved;
    SameEnds(s, t, caller.agent, rows);
  }

  lemma SizeWithout(all: set<Id>, rows: seq<Id>, left: set<Id>)
    requires Distinct(rows) && (forall m :: m in rows ==> m in all) && forall m :: m in left <==> m in all && m !in rows
    ensures |left| + |rows| == |all|
  {
    var taken := set m | m in rows;
    ListedSize(rows, taken);
    assert all == left + taken;
  }

  /** What is left of an inbox after some of it was acknowledged. */
  lemma InboxAfter(s: Scope, t: Scope, caller: Caller, rows: seq<Id>)
    requires AcknowledgedPage(s, t, caller, rows) && Distinct(rows) && forall m :: m in rows ==> m in Inbox(s, caller.agent)
    ensures forall m :: m in Inbox(t, caller.agent) <==> m in Inbox(s, caller.agent) && m !in rows
    ensures |Inbox(t, caller.agent)| + |rows| == |Inbox(s, caller.agent)|
  {
    hide Inv, AcknowledgedPage, Inbox;
    forall m ensures m in Inbox(t, caller.agent) <==> m in Inbox(s, caller.agent) && m !in rows {
      LeavesIn(s, t, caller, rows, m);
    }
    SizeWithout(Inbox(s, caller.agent), rows, Inbox(t, caller.agent));
  }

  lemma SameEnds(s: Scope, t: Scope, agent: Id, rows: seq<Id>)
    requires Undisturbed(s, t, agent, rows)
    ensures forall m :: m in s.messages ==> m in t.messages && t.messages[m].to == s.messages[m].to && Age(t)(m) == Age(s)(m)
  {
    forall m | m in s.messages ensures m in t.messages && t.messages[m].to == s.messages[m].to && t.messages[m].createdAt == s.messages[m].createdAt {
      assert MessageEvolved(s.messages[m], t.messages[m]);
    }
  }

  lemma InboxShrinks(s: Scope, t: Scope, caller: Caller, limit: nat, rows: seq<Id>)
    requires Oldest(s, caller.agent, rows, limit) && AcknowledgedPage(s, t, caller, rows)
    ensures forall m :: m in Inbox(t, caller.agent) <==> m in Inbox(s, caller.agent) && m !in rows
    ensures |Inbox(t, caller.agent)| + |rows| == |Inbox(s, caller.agent)|
    ensures forall m :: m in s.messages ==> Age(t)(m) == Age(s)(m)
  {
    hide Inv, Sorted, MessageEvolved;
    InboxAfter(s, t, caller, rows);
    SameEnds(s, t, caller.agent, rows);
  }

  lemma SortedJoin(s: Scope, t: Scope, agent: Id, limit: nat, rows: seq<Id>, rest: seq<Id>)
    requires Oldest(s, agent, rows, limit) && Sorted(rest, Age(t)) && Distinct(rest)
    requires forall m :: m in rest ==> m in Inbox(s, agent) && m !in rows
    requires forall m :: m in s.messages ==> Age(t)(m) == Age(s)(m)
    ensures Sorted(rows + rest, Age(s)) && Distinct(rows + rest)
  {
    var all := rows + rest;
    forall i, j | 0 <= i < j < |all| ensures Age(s)(all[i]) <= Age(s)(all[j]) && all[i] != all[j] {
      if j < |rows| {
        assert rows[i] in rows && rows[j] in rows;
      } else if i >= |rows| {
        assert rest[i - |rows|] in rest && rest[j - |rows|] in rest;
      } else {
        assert rows[i] in rows && rest[j - |rows|] in rest;
      }
    }
  }

  /** What a number of rounds leaves: the first pages of the inbox acknowledged, each message once, oldest first. */
  ghost predicate Drained(s: Scope, u: Scope, caller: Caller, rows: seq<Id>, reach: nat) {
    && Distinct(rows) && Sorted(rows, Age(s)) && AcknowledgedPage(s, u, caller, rows)
    && (forall m :: m in rows ==> m in Inbox(s, caller.agent))
    && |rows| == if reach < |Inbox(s, caller.agent)| then reach else |Inbox(s, caller.agent)|
  }

  lemma DrainedThen(s: Scope, t: Scope, u: Scope, caller: Caller, limit: nat, rows: seq<Id>, rest: seq<Id>, reach: nat)
    requires Oldest(s, caller.agent, rows, limit) && AcknowledgedPage(s, t, caller, rows) && Drained(t, u, caller, rest, reach)
    ensures Drained(s, u, caller, rows + rest, limit + reach)
  {
    hide Inv, Sorted, Oldest, MessageEvolved, AcknowledgedPage, Inbox, Age;
    InboxShrinks(s, t, caller, limit, rows);
    SortedJoin(s, t, caller.agent, limit, rows, rest);
    PageSize(s, caller.agent, rows, limit);
    PageLength(s, caller.agent, rows, limit);
    AcknowledgedThen(s, t, u, caller, rows, rest);
  }

  lemma AcknowledgedThen(s: Scope, t: Scope, u: Scope, caller: Caller, rows: seq<Id>, rest: seq<Id>)
    requires AcknowledgedPage(s, t, caller, rows) && AcknowledgedPage(t, u, caller, rest)
    ensures AcknowledgedPage(s, u, caller, rows + rest)
  {
    hide Inv, MessageEvolved;
    UndisturbedThen(s, t, u, caller.agent, rows, rest);
    forall m | m in rows ensures u.messages[m].state == Acknowledged {
      StaysAcknowledged(t.messages[m], u.messages[m]);
    }
  }

  lemma PageLength(s: Scope, agent: Id, rows: seq<Id>, limit: nat)
    requires Oldest(s, agent, rows, limit)
    ensures |rows| == if limit < |Inbox(s, agent)| then limit else |Inbox(s, agent)|
  {
  }

  lemma StaysAcknowledged(m: Message, n: Message)
    requires MessageEvolved(m, n) && m.state == Acknowledged
    ensures n.state == Acknowledged
  {
  }

  /** How many messages a number of rounds can take. */
  function Reach(rounds: nat, limit: nat): nat {
    rounds * limit
  }

  lemma FirstTurn(s: Scope, caller: Caller, limit: nat, rounds: seq<Round>, horizon: Time)
    requires Inv(s) && Calm(s, caller, horizon) && limit > 0 && rounds != [] && AllPrompt(s, caller, limit, rounds, horizon)
    ensures var (t, rows) := Turn(s, caller, limit, rounds[0]);
            && Oldest(s, caller.agent, rows, limit) && AcknowledgedPage(s, t, caller, rows)
            && Inv(t) && Calm(t, caller, horizon) && AllPrompt(t, caller, limit, rounds[1..], horizon)
  {
    hide Inv, Calm, Turn, AcknowledgedPage, Oldest, Prompt;
    TurnTakes(s, caller, limit, rounds[0], horizon);
    var (t, rows) := Turn(s, caller, limit, rounds[0]);
    PageInv(s, t, caller, rows);
  }

  lemma DrainByStep(s: Scope, caller: Caller, limit: nat, rounds: seq<Round>)
    ensures if rounds == [] then DrainBy(s, caller, limit, rounds) == (s, []) else
            var (t, rows) := Turn(s, caller, limit, rounds[0]);
            var (u, rest) := DrainBy(t, caller, limit, rounds[1..]);
            DrainBy(s, caller, limit, rounds) == (u, rows + rest)
  {
    hide Turn;
  }

  /** `n` rounds of at most `limit` messages acknowledge exactly the oldest `n * limit` of the inbox (or all of it),
      each once, in nondecreasing order of creation. */
  lemma {:induction false} RoundsDrain(s: Scope, caller: Caller, limit: nat, rounds: seq<Round>, horizon: Time)
    requires Inv(s) && Calm(s, caller, horizon) && limit > 0 && AllPrompt(s, caller, limit, rounds, horizon)
    ensures var (u, rows) := DrainBy(s, caller, limit, rounds);
            Drained(s, u, caller, rows, Reach(|rounds|, limit))
    decreases |rounds|
  {
    hide *;
    DrainByStep(s, caller, limit, rounds);
    if rounds == [] {
      DrainedNothing(s, caller, limit);
    } else {
      var (t, rows) := Turn(s, caller, limit, rounds[0]);
      FirstTurn(s, caller, limit, rounds, horizon);
      RoundsDrain(t, caller, limit, rounds[1..], horizon);
      var (u, rest) := DrainBy(t, caller, limit, rounds[1..]);
      DrainedThen(s, t, u, caller, limit, rows, rest, Reach(|rounds| - 1, limit));
      OneMore(|rounds|, limit);
    }
  }

  lemma OneMore(n: nat, limit: nat)
    requires n > 0
    ensures limit + Reach(n - 1, limit) == Reach(n, limit)
  {
  }

  lemma PageInv(s: Scope, t: Scope, caller: Caller, rows: seq<Id>)
    requires AcknowledgedPage(s, t, caller, rows)
    ensures Inv(t)
  {
  }

  lemma DrainedNothing(s: Scope, caller: Caller, limit: nat)
    requires Inv(s)
    ensures Drained(s, s, caller, [], Reach(0, limit))
  {
    hide Inv;
  }

  /** An inbox of n messages is empty after ceil(n / limit) rounds, and not before. */
  lemma InboxDrains(s: Scope, caller: Caller, limit: nat, rounds: seq<Round>, horizon: Time)
    requires Inv(s) && Calm(s, caller, horizon) && limit > 0 && AllPrompt(s, caller, limit, rounds, horizon)
    ensures var (u, rows) := DrainBy(s, caller, limit, rounds);
            && (Inbox(u, caller.agent) == {} <==> |Inbox(s, caller.agent)| <= Reach(|rounds|, limit))
            && (Inbox(u, caller.agent) == {} ==> Lists(rows, Inbox(s, caller.agent)))
            && Sorted(rows, Age(s))
            && (forall m :: m in rows ==> m in u.messages && u.messages[m].state == Acknowledged)
  {
    hide Inv, Calm, DrainBy, AllPrompt, MessageEvolved;
    RoundsDrain(s, caller, limit, rounds, horizon);
    var (u, rows) := DrainBy(s, caller, limit, rounds);
    DrainedLeaves(s, u, caller, rows, Reach(|rounds|, limit));
  }

  lemma DrainedLeaves(s: Scope, u: Scope, caller: Caller, rows: seq<Id>, reach: nat)
    requires Drained(s, u, caller, rows, reach)
    ensures forall m :: m in Inbox(u, caller.agent) <==> m in Inbox(s, caller.agent) && m !in rows
    ensures Inbox(u, caller.agent) == {} <==> |Inbox(s, caller.agent)| <= reach
  {
    hide Inv, Sorted, Inbox, AcknowledgedPage;
    InboxAfter(s, u, caller, rows);
  }
}
