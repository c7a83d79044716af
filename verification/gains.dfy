/** What the transactions that wake nobody can make available. */
module SilentGains {
  import opened Model
  import opened Logs
  import opened Scopes
  import opened RemoteWork
  import opened Invariants
  import opened Rows
  import opened Sweeps
  import opened BoardSteps
  import opened InboxSteps
  import opened RemoteSteps
  import opened Pruning
  import opened Runs
  import opened Drain
  import opened Wakeups

  /** Whatever became available was held by one of these reservations. */
  ghost predicate GainsFrom(s: Scope, t: Scope, freed: set<Id>) {
    forall x, id :: id in Inbox(t, x) && id !in Inbox(s, x) ==> HeldFrom(s, id, freed)
  }

  ghost predicate HeldFrom(s: Scope, id: Id, freed: set<Id>) {
    id in s.messages && s.messages[id].state == Reserved && s.messages[id].reservation.Some? && s.messages[id].reservation.value in freed
  }

  /** In addition nothing has been reserved anew. */
  ghost predicate Loosens(s: Scope, t: Scope, freed: set<Id>) {
    && GainsFrom(s, t, freed)
    && (forall id, r :: HeldFrom(t, id, r) ==> HeldFrom(s, id, r))
  }

  lemma LoosensThen(s: Scope, t: Scope, u: Scope, freed: set<Id>)
    requires Loosens(s, t, freed) && GainsFrom(t, u, freed)
    ensures GainsFrom(s, u, freed)
    ensures Loosens(t, u, freed) ==> Loosens(s, u, freed)
  {
    hide Inbox, HeldFrom;
  }

  lemma FreesMore(s: Scope, t: Scope, freed: set<Id>, more: set<Id>)
    requires Loosens(s, t, freed) && freed <= more
    ensures Loosens(s, t, more)
  {
    hide Inbox;
    forall x, id | id in Inbox(t, x) && id !in Inbox(s, x) ensures HeldFrom(s, id, more) {
      assert HeldFrom(s, id, freed);
    }
  }

  lemma SameInboxes(s: Scope, t: Scope, freed: set<Id>)
    requires t.messages == s.messages
    ensures Loosens(s, t, freed)
  {
  }

  lemma FewerInboxes(s: Scope, t: Scope, freed: set<Id>)
    requires t.messages.Keys <= s.messages.Keys && forall id :: id in t.messages ==> t.messages[id] == s.messages[id]
    ensures Loosens(s, t, freed)
  {
  }

  lemma ExpiryLoosens(s: Scope, now: Time, world: World, freed: set<Id>)
    requires Inv(s)
    ensures Loosens(s, Expire(s, now, world), freed) && Inv(Expire(s, now, world)) && Expire(s, now, world).reservations == s.reservations
  {
    hide Between, Evolves, Expire;
    ExpireKeeps(s, now, world, {});
  }

  lemma ReleaseLoosens(s: Scope, agent: Id, reservation: Id, now: Time, world: World)
    requires Inv(s)
    ensures Loosens(s, Release(s, agent, reservation, now, world), {reservation})
  {
    hide Between, Evolves, Release;
    ReleaseKeeps(s, agent, reservation, now, world, {});
    var held := Held(s, agent, reservation);
    assert Lists(world.order(held), held);
  }

  lemma {:induction false} ReleaseEachLoosens(s: Scope, ids: seq<Id>, tick: nat, world: World, freed: set<Id>)
    requires Inv(s) && forall id :: id in ids ==> id in freed
    ensures Loosens(s, ReleaseEach(s, ids, tick, world), freed) && Inv(ReleaseEach(s, ids, tick, world))
    decreases |ids|
  {
    hide Inv, Release, Loosens;
    if ids == [] {
      SameInboxes(s, s, freed);
    } else {
      var init, last := ids[..|ids| - 1], ids[|ids| - 1];
      assert ids == init + [last];
      ReleaseEachLoosens(s, init, tick, world, freed);
      EachKeeps(s, ids, tick, world);
      var t := ReleaseEach(s, init, tick, world);
      if last in t.reservations {
        var u := Release(t, t.reservations[last].agent, last, world.tick(tick + |init|), world);
        ReleaseLoosens(t, t.reservations[last].agent, last, world.tick(tick + |init|), world);
        FreesMore(t, u, {last}, freed);
        LoosensAll(s, t, u, freed);
      }
    }
  }

  lemma LoosensAll(s: Scope, t: Scope, u: Scope, freed: set<Id>)
    requires Loosens(s, t, freed) && Loosens(t, u, freed)
    ensures Loosens(s, u, freed)
  {
    hide GainsFrom;
    LoosensThen(s, t, u, freed);
  }

  // ---- the two that can ----------------------------------------------------------------------

  lemma TidiedLoosens(s: Scope, now: Time, world: World)
    requires Inv(s)
    ensures Loosens(s, Tidied(s, now, world), Lapsed(s, now)) && Inv(Tidied(s, now, world))
  {
    hide Inv, Expire, ReleaseEach, Loosens;
    var freed := Lapsed(s, now);
    ExpiryLoosens(s, now, world, freed);
    var s1 := Expire(s, now, world);
    assert Lapsed(s1, now) == freed;
    assert Lists(world.order(freed), freed);
    ReleaseEachLoosens(s1, world.order(freed), 1, world, freed);
    LoosensAll(s, s1, Tidied(s, now, world), freed);
  }

  lemma ReservingGainsNothing(s: Scope, page: seq<Id>, reservation: Id, row: Reservation, now: Time, freed: set<Id>)
    requires Inv(s) && reservation !in s.issued && Owns(s.agents, row.agent, row.maker)
    requires Distinct(page) && forall id :: id in page ==> id in s.messages && s.messages[id].state in {Queued, Delivered} && s.messages[id].to == Address(row.agent)
    ensures var t := s.(reservations := s.reservations[reservation := row], issued := s.issued + {reservation});
            GainsFrom(s, ReserveRows(t, page, reservation, now), freed)
  {
    hide Between, Evolves, ReserveRows, Owns;
    var t := s.(reservations := s.reservations[reservation := row], issued := s.issued + {reservation});
    AddReservationKeeps(s, reservation, row);
    KeptIsInv(s, t);
    ReserveRowsKeep(t, page, reservation, now, {});
  }

  lemma ReserveGains(s: Scope, caller: Caller, limit: nat, world: World)
    requires Inv(s) && Fair(world, s.clock, s.issued)
    ensures GainsFrom(s, ReserveInbox(s, caller, limit, world).scope, Lapsed(s, world.tick(0)))
  {
    hide Inv, Tidied, InboxPage, ReserveRows, Loosens, GainsFrom, Owns, Keeps;
    var now := world.tick(0);
    var freed := Lapsed(s, now);
    Unchanged(s, freed);
    if Current(s, caller, now) {
      var s1, page := Tidied(s, now, world), InboxPage(Tidied(s, now, world), caller.agent, limit, now, world);
      TidiedLoosens(s, now, world);
      LoosensGains(s, s1, freed);
      if page != [] {
        var id, row := world.mint(0), Reservation(caller.agent, now, now + RESERVATION_TTL, caller.execution);
        PageIsFree(s, caller, limit, world);
        ReservingGainsNothing(s1, page, id, row, now, freed);
        LoosensThen(s, s1, ReserveInbox(s, caller, limit, world).scope, freed);
      }
    }
  }

  /** What a reservation takes is its agent's own and is not reserved. */
  lemma PageIsFree(s: Scope, caller: Caller, limit: nat, world: World)
    requires Inv(s) && Fair(world, s.clock, s.issued) && Current(s, caller, world.tick(0))
    ensures var s1 := Tidied(s, world.tick(0), world);
            var page := InboxPage(s1, caller.agent, limit, world.tick(0), world);
            && world.mint(0) !in s1.issued && Owns(s1.agents, caller.agent, caller.execution)
            && Distinct(page) && (forall id :: id in page ==> id in s1.messages && s1.messages[id].state in {Queued, Delivered} && s1.messages[id].to == Address(caller.agent))
  {
    hide Inv, Keeps, Tidied, InboxPage;
    TidiedKeeps(s, world.tick(0), world);
    ClockIsPositive(s);
    PageRows(Tidied(s, world.tick(0), world), caller.agent, limit, world.tick(0), world);
  }

  lemma Unchanged(s: Scope, freed: set<Id>)
    ensures GainsFrom(s, s, freed)
  {
  }

  lemma LoosensGains(s: Scope, t: Scope, freed: set<Id>)
    requires Loosens(s, t, freed)
    ensures GainsFrom(s, t, freed)
  {
    hide GainsFrom;
  }

  /** A commit delivers what its reservation holds; a delivered message can be reserved again until it is acknowledged. */
  lemma CommitGains(s: Scope, caller: Caller, reservation: Id, world: World)
    requires Inv(s)
    ensures GainsFrom(s, CommitInbox(s, caller, reservation, world).scope, {reservation})
  {
    hide Inv, Expire, Release, DeliverRows, Loosens, GainsFrom, Held, Keeps;
    var freed := {reservation};
    Unchanged(s, freed);
    if !Current(s, caller, world.tick(0)) || reservation !in s.reservations || s.reservations[reservation].agent != caller.agent {
    } else if s.reservations[reservation].expiresAt <= world.tick(1) {
      ReleaseLoosens(s, caller.agent, reservation, world.tick(2), world);
      LoosensGains(s, CommitInbox(s, caller, reservation, world).scope, freed);
    } else {
      var s1 := Expire(s, world.tick(2), world);
      ExpiryLoosens(s, world.tick(2), world, freed);
      DeliveryGains(s1, caller.agent, reservation, world.tick(3), world);
      LoosensThen(s, s1, CommitInbox(s, caller, reservation, world).scope, freed);
    }
  }

  lemma DeliveryGains(s: Scope, agent: Id, reservation: Id, now: Time, world: World)
    requires Inv(s)
    ensures var t := DeliverRows(s, SortBy(world.order(Held(s, agent, reservation)), Age(s)), now);
            GainsFrom(s, t.(reservations := t.reservations - {reservation}), {reservation})
  {
    hide Inv, Keeps, DeliverRows;
    CommitRowsKeep(s, agent, reservation, now, world);
  }

  // ---- the others ----------------------------------------------------------------------------

  lemma EmitFrame(s: Scope, kind: EventKind, subject: Subject, attribute: Attribute, now: Time)
    ensures Emit(s, kind, subject, attribute, now).messages == s.messages
  {
    hide Append;
  }

  lemma MoveTaskFrame(s: Scope, id: Id, row: Task, kind: EventKind, now: Time)
    ensures MoveTask(s, id, row, kind, now).messages == s.messages
  {
    hide Emit;
    EmitFrame(s.(tasks := s.tasks[id := row]), kind, TaskSubject(id), TaskStatus(row.status), now);
  }

  lemma SameGains(s: Scope, t: Scope)
    requires t.messages == s.messages
    ensures GainsFrom(s, t, {})
  {
  }

  lemma StaleMovesNothing(s: Scope, now: Time, world: World)
    requires Inv(s)
    ensures ReleaseStale(s, now, world).messages == s.messages
  {
    hide Between, Evolves, ReleaseStale;
    ReleaseStaleKeeps(s, now, world, {});
  }

  lemma AddGainsNothing(s: Scope, creator: Option<Caller>, title: string, dependencies: seq<Id>, world: World)
    ensures GainsFrom(s, AddTask(s, creator, title, dependencies, world).scope, {})
  {
    hide GainsFrom, MoveTask, Unfinished, Unique, Current;
    var id, now := world.mint(0), world.tick(1);
    var row := Task(title, if creator.Some? then Some(creator.value.agent) else None, None, None, Open, Unique(dependencies), None, now, now);
    MoveTaskFrame(s.(issued := s.issued + {id}, progress := s.progress[id := []]), id, row, TaskCreated, now);
    SameGains(s, AddTask(s, creator, title, dependencies, world).scope);
  }

  lemma ClaimGainsNothing(s: Scope, caller: Caller, id: Id, world: World)
    requires Inv(s)
    ensures GainsFrom(s, ClaimTask(s, caller, id, world).scope, {})
  {
    hide GainsFrom, Inv, MoveTask, ReleaseStale, Unblocked, Current;
    var s1 := ReleaseStale(s, world.tick(1), world);
    StaleMovesNothing(s, world.tick(1), world);
    if id in s1.tasks {
      var row := s1.tasks[id].(status := Claimed, claimedBy := Some(caller.agent), claimedExecution := Some(caller.execution), updatedAt := world.tick(2));
      MoveTaskFrame(s1, id, row, TaskClaimed, world.tick(2));
    }
    SameGains(s, ClaimTask(s, caller, id, world).scope);
  }

  lemma FinishGainsNothing(s: Scope, caller: Caller, id: Id, note: Option<string>, world: World)
    ensures GainsFrom(s, CompleteTask(s, caller, id, note, world).scope, {})
    ensures GainsFrom(s, ReleaseTask(s, caller, id, world).scope, {})
  {
    hide GainsFrom, MoveTask, Current;
    if ClaimedBy(s, id, caller) {
      MoveTaskFrame(s, id, s.tasks[id].(status := Done, note := note, updatedAt := world.tick(1)), TaskCompleted, world.tick(1));
      MoveTaskFrame(s, id, AsReopened(s.tasks[id], world.tick(1)), TaskReleased, world.tick(1));
    }
    SameGains(s, CompleteTask(s, caller, id, note, world).scope);
    SameGains(s, ReleaseTask(s, caller, id, world).scope);
  }

  lemma ReportGainsNothing(s: Scope, caller: Caller, id: Id, text: string, world: World)
    ensures GainsFrom(s, AddTaskProgress(s, caller, id, text, world).scope, {})
  {
    hide GainsFrom, Emit, Current, ClaimedBy, TextBytes, MaxSequence;
    var rows, now := if id in s.progress then s.progress[id] else [], world.tick(0);
    EmitFrame(s.(progress := s.progress[id := rows + [Progress(MaxSequence(rows) + 1, caller.agent, caller.execution, text, now)]]),
              TaskProgressAdded, TaskSubject(id), Unstated, now);
    SameGains(s, AddTaskProgress(s, caller, id, text, world).scope);
  }

  lemma BoardGainsNothing(s: Scope, op: Op, world: World)
    requires Inv(s) && (op.Add? || op.Claim? || op.ListAll?)
    ensures GainsFrom(s, Apply(s, op, world), {})
  {
    hide GainsFrom, Inv, AddTask, ClaimTask, ReleaseStale;
    match op
    case Add(creator, title, dependencies) => AddGainsNothing(s, creator, title, dependencies, world);
    case Claim(caller, task) => ClaimGainsNothing(s, caller, task, world);
    case ListAll =>
      StaleMovesNothing(s, world.tick(0), world);
      SameGains(s, Apply(s, op, world));
  }

  lemma WorkGainsNothing(s: Scope, op: Op, world: World)
    requires op.Complete? || op.Reopen? || op.Report?
    ensures GainsFrom(s, Apply(s, op, world), {})
  {
    hide GainsFrom, CompleteTask, ReleaseTask, AddTaskProgress;
    match op
    case Complete(caller, task, note) => FinishGainsNothing(s, caller, task, note, world);
    case Reopen(caller, task) => FinishGainsNothing(s, caller, task, None, world);
    case Report(caller, task, text) => ReportGainsNothing(s, caller, task, text, world);
  }

  lemma BeatGainsNothing(s: Scope, caller: Caller, lifecycle: Lifecycle, ready: bool, lease: Time, world: World)
    ensures GainsFrom(s, Heartbeat(s, caller, lifecycle, ready, lease, world).scope, {})
  {
    hide GainsFrom, Emit;
    var now := world.tick(0);
    if Current(s, caller, now) {
      var row := s.agents[caller.agent].(lifecycle := lifecycle, ready := ready, leaseExpiresAt := now + lease, updatedAt := now);
      EmitFrame(s.(agents := s.agents[caller.agent := row]), LifecycleChanged, AgentSubject(caller.agent), Unstated, now);
    }
    SameGains(s, Heartbeat(s, caller, lifecycle, ready, lease, world).scope);
  }

  lemma LinkGainsNothing(s: Scope, left: Id, right: Id, world: World)
    ensures GainsFrom(s, LinkAgents(s, left, right, world).scope, {})
  {
    hide GainsFrom, Emit, OrderedPair, Linked;
    var pair := OrderedPair(left, right);
    EmitFrame(s.(links := s.links + {pair}), LinkCreated, LinkSubject(pair.0, pair.1), Unstated, world.tick(0));
    SameGains(s, LinkAgents(s, left, right, world).scope);
  }

  lemma SetStateGainsNothing(s: Scope, remote: RemoteCaller, task: Id, state: RemoteState, world: World)
    ensures GainsFrom(s, SetTaskState(s, remote, task, state, world).scope, {})
  {
    hide GainsFrom, Emit, CurrentRemote, ValidTransition;
    if task in s.remoteTasks {
      EmitFrame(s.(remoteTasks := s.remoteTasks[task := s.remoteTasks[task].(state := state, updatedAt := world.tick(0))]),
                RemoteTaskStateChanged, RemoteSubject(task), RemoteTaskState(state), world.tick(0));
    }
    SameGains(s, SetTaskState(s, remote, task, state, world).scope);
  }

  lemma PublishingGainsNothing(s: Scope, agent: Id, id: Id, enabled: bool, world: World)
    ensures GainsFrom(s, Publish(s, agent, world).scope, {}) && GainsFrom(s, SetPublication(s, id, enabled, world).scope, {})
  {
    hide GainsFrom, Emit;
    EmitFrame(s.(publications := s.publications[world.mint(0) := Publication(agent, true)], issued := s.issued + {world.mint(0)}),
              PublicationChanged, ScopeSubject, Unstated, world.tick(0));
    if id in s.publications {
      EmitFrame(s.(publications := s.publications[id := s.publications[id].(enabled := enabled)]), PublicationChanged, ScopeSubject, Unstated, world.tick(0));
    }
    SameGains(s, Publish(s, agent, world).scope);
    SameGains(s, SetPublication(s, id, enabled, world).scope);
  }

  lemma GrantingGainsNothing(s: Scope, publication: Id, id: Id, enabled: bool, world: World)
    ensures GainsFrom(s, IssueCredential(s, publication, world).scope, {}) && GainsFrom(s, SetCredential(s, id, enabled, world).scope, {})
  {
    hide GainsFrom, Emit;
    EmitFrame(s.(credentials := s.credentials[world.mint(0) := Credential(publication, true)], issued := s.issued + {world.mint(0)}),
              PublicationChanged, ScopeSubject, Unstated, world.tick(0));
    if id in s.credentials {
      EmitFrame(s.(credentials := s.credentials[id := s.credentials[id].(enabled := enabled)]), PublicationChanged, ScopeSubject, Unstated, world.tick(0));
    }
    SameGains(s, IssueCredential(s, publication, world).scope);
    SameGains(s, SetCredential(s, id, enabled, world).scope);
  }

  lemma AgentGainsNothing(s: Scope, op: Op, world: World)
    requires op.Beat? || op.Link? || op.SetState?
    ensures GainsFrom(s, Apply(s, op, world), {})
  {
    hide GainsFrom, Heartbeat, LinkAgents, SetTaskState;
    match op
    case SetState(remote, task, state) => SetStateGainsNothing(s, remote, task, state, world);
    case Beat(caller, lifecycle, ready, lease) => BeatGainsNothing(s, caller, lifecycle, ready, lease, world);
    case Link(left, right) => LinkGainsNothing(s, left, right, world);
  }

  lemma RemoteGainsNothing(s: Scope, op: Op, world: World)
    requires op.PublishAgent? || op.EnablePublication? || op.Issue? || op.EnableCredential?
    ensures GainsFrom(s, Apply(s, op, world), {})
  {
    hide GainsFrom, Publish, SetPublication, IssueCredential, SetCredential;
    match op
    case PublishAgent(agent) => PublishingGainsNothing(s, agent, 0, true, world);
    case EnablePublication(publication, enabled) => PublishingGainsNothing(s, 0, publication, enabled, world);
    case Issue(publication) => GrantingGainsNothing(s, publication, 0, true, world);
    case EnableCredential(credential, enabled) => GrantingGainsNothing(s, 0, credential, enabled, world);
  }

  lemma ReadingGainsNothing(s: Scope, op: Op, world: World)
    requires Inv(s) && (op.Read? || op.Inspect?)
    ensures GainsFrom(s, Apply(s, op, world), {})
  {
    hide Inv, Expire, Loosens, GainsFrom, Current, CurrentRemote;
    Unchanged(s, {});
    ExpiryLoosens(s, world.tick(0), world, {});
    ExpiryLoosens(s, world.tick(1), world, {});
    LoosensGains(s, Expire(s, world.tick(0), world), {});
    LoosensGains(s, Expire(s, world.tick(1), world), {});
  }

  lemma AcknowledgingGainsNothing(s: Scope, caller: Caller, ids: seq<Id>, world: World)
    requires Inv(s)
    ensures GainsFrom(s, AcknowledgeMessages(s, caller, ids, world).scope, {})
  {
    hide Inv, Expire, AcknowledgeRows, Loosens, GainsFrom;
    Unchanged(s, {});
    if Current(s, caller, world.tick(0)) {
      var s1 := Expire(s, world.tick(1), world);
      ExpiryLoosens(s, world.tick(1), world, {});
      AcknowledgedGains(s1, Unique(ids), caller.agent, world);
      LoosensThen(s, s1, AcknowledgeRows(s1, Unique(ids), caller.agent, 2, world), {});
    }
  }

  lemma AcknowledgedGains(s: Scope, ids: seq<Id>, agent: Id, world: World)
    requires Inv(s) && Distinct(ids)
    ensures GainsFrom(s, AcknowledgeRows(s, ids, agent, 2, world), {})
  {
    hide Between, Evolves, AcknowledgeRows;
    AcknowledgeRowsKeep(s, ids, agent, 2, world, {});
  }

  lemma PruningGainsNothing(s: Scope, before: Time, execute: bool, world: World)
    requires Inv(s)
    ensures GainsFrom(s, Prune(s, before, execute, world).0, {})
  {
    hide Inv, Expire, ReleaseStale, PlanFor, PruneLog, Loosens, GainsFrom, Evolves;
    var s1 := Expire(s, world.tick(0), world);
    ExpiryLoosens(s, world.tick(0), world, {});
    StaleMovesNothing(s1, world.tick(1), world);
    var s2 := Refreshed(s, world);
    SameInboxes(s1, s2, {});
    LoosensAll(s, s1, s2, {});
    var t := Prune(s, before, execute, world).0;
    FewerInboxes(s2, t, {});
    LoosensAll(s, s2, t, {});
    LoosensGains(s, t, {});
  }

  lemma RefusedSendIsNothing(s: Scope, sender: Participant, input: SendInput, notification: bool, tick: nat, mint: nat, world: World)
    requires SendIn(s, sender, input, notification, tick, mint, world).result.Refused?
    ensures SendIn(s, sender, input, notification, tick, mint, world).scope == s
  {
    hide Expire, Existing, Addressee, Backlog, Inserted, Answer, NewMessage;
  }

  /** A transaction that wakes someone only when it succeeds changes nothing when it fails. */
  lemma RefusedIsNothing(s: Scope, op: Op, world: World)
    requires Inv(s) && Fair(world, s.clock, s.issued) && Sensible(op) && Announces(s, op, world).None?
    requires op.Register? || op.Retire? || op.Send? || op.HumanSend? || op.Free? || op.Accept?
    ensures Apply(s, op, world) == s
  {
    hide Inv, Apply, Announces, Fair, Sensible;
    if op.Register? || op.Retire? || op.Free? {
      RefusedExecution(s, op, world);
    } else {
      RefusedSender(s, op, world);
    }
  }

  lemma RefusedExecution(s: Scope, op: Op, world: World)
    requires Inv(s) && Fair(world, s.clock, s.issued) && Sensible(op) && Announces(s, op, world).None? && (op.Register? || op.Retire? || op.Free?)
    ensures Apply(s, op, world) == s
  {
    hide Inv, OnlyFor, Expire, Release, RegisterAgent, RetireAgent, Fair;
    match op
    case Register(input) => RegisterMakes(s, input, world);
    case Retire(token) => RetireMakes(s, token, world);
    case Free(caller, reservation) =>
  }

  lemma RefusedSender(s: Scope, op: Op, world: World)
    requires Inv(s) && Fair(world, s.clock, s.issued) && Announces(s, op, world).None? && (op.Send? || op.HumanSend? || op.Accept?)
    ensures Apply(s, op, world) == s
  {
    hide Inv, OnlyFor, SendIn, AcceptMessage, Fair;
    match op
    case Send(caller, input) =>
      if Current(s, caller, world.tick(0)) {
        RefusedSendIsNothing(s, Address(caller.agent), input, false, 1, 0, world);
      }
    case HumanSend(human, input) => RefusedSendIsNothing(s, Participant(HumanKind, human), input, false, 0, 0, world);
    case Accept(remote, limits, input) =>
      AcceptMakes(s, remote, limits, input, world);
      RefusedAcceptIsNothing(s, remote, limits, input, world);
  }

  lemma RefusedAcceptIsNothing(s: Scope, caller: RemoteCaller, limits: Limits, input: AcceptInput, world: World)
    ensures AcceptMessage(s, caller, limits, input, world).result.Refused? ==> AcceptMessage(s, caller, limits, input, world).scope == s
  {
    hide Expire, TaskFor, SendIn, Correlate, OverBudget, Correlated, AcceptHash;
  }

  /** The reservations whose messages a transaction may put back without waking anyone. */
  function PutBack(s: Scope, op: Op, world: World): set<Id> {
    match op
    case Reserve(_, _) => Lapsed(s, world.tick(0))
    case Commit(_, reservation) => {reservation}
    case _ => {}
  }

  /** A transaction that wakes nobody makes nothing available, but for two: a reservation puts back what lapsed
      reservations held, and a commit what its own reservation held. */
  lemma SilentGain(s: Scope, op: Op, world: World)
    requires Inv(s) && Fair(world, s.clock, s.issued) && Sensible(op) && Announces(s, op, world).None? && !op.Rotate?
    ensures GainsFrom(s, Apply(s, op, world), PutBack(s, op, world))
  {
    hide Inv, GainsFrom, Fair, Sensible, Announces, Lapsed, Apply;
    Unchanged(s, {});
    if op.Register? || op.Retire? || op.Send? || op.HumanSend? || op.Free? || op.Accept? {
      RefusedIsNothing(s, op, world);
    } else if op.Add? || op.Claim? || op.ListAll? {
      BoardGainsNothing(s, op, world);
    } else if op.Complete? || op.Reopen? || op.Report? {
      WorkGainsNothing(s, op, world);
    } else if op.Reserve? || op.Commit? || op.Acknowledge? || op.PruneOld? {
      InboxGains(s, op, world);
    } else if op.Read? || op.Inspect? {
      ReadingGainsNothing(s, op, world);
    } else if op.Beat? || op.Link? || op.SetState? {
      AgentGainsNothing(s, op, world);
    } else {
      RemoteGainsNothing(s, op, world);
    }
  }

  lemma InboxGains(s: Scope, op: Op, world: World)
    requires Inv(s) && Fair(world, s.clock, s.issued) && (op.Reserve? || op.Commit? || op.Acknowledge? || op.PruneOld?)
    ensures GainsFrom(s, Apply(s, op, world), PutBack(s, op, world))
  {
    hide Inv, GainsFrom, Fair, Lapsed, ReserveInbox, CommitInbox, AcknowledgeMessages, Prune;
    match op
    case Reserve(caller, limit) => ReserveGains(s, caller, limit, world);
    case Commit(caller, reservation) => CommitGains(s, caller, reservation, world);
    case Acknowledge(caller, ids) => AcknowledgingGainsNothing(s, caller, ids, world);
    case PruneOld(before, execute) => PruningGainsNothing(s, before, execute, world);
  }
}
