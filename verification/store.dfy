/** The store as the program has it: tables that each transaction updates in place. Every method is proved
    to do what the function of the same transaction says (bus/store.go, bus/events.go, bus/retire.go,
    bus/scope_admin.go, bus/a2a_tasks.go, bus/task_progress.go, bus/storage.go). */
module Stores {
  import opened Model
  import opened Logs
  import opened Scopes
  import opened RemoteWork
  import opened Totals
  import opened Invariants
  import opened Rows
  import opened Sweeps
  import opened BoardSteps
  import opened InboxSteps
  import opened ExecutionSteps
  import opened RemoteSteps
  import opened Runs
  import opened Retention
  import opened Pruning
  import opened Units
  import opened Batches
  import opened Statements

  const BATCH: nat := 500

  class Store {
    var agents: map<Id, AgentRow>
    var links: set<(Id, Id)>
    var messages: map<Id, Message>
    var reservations: map<Id, Reservation>
    var tasks: map<Id, Task>
    var progress: map<Id, seq<Progress>>
    var publications: map<Id, Publication>
    var credentials: map<Id, Credential>
    var remoteTasks: map<Id, RemoteTask>
    var correlations: map<Id, Correlation>
    var events: seq<Event>
    var revision: nat
    var floor: nat
    const hosted: bool
    var clock: Time
    var issued: set<Id>

    /** What a transaction that starts now would read. */
    function Db(): Scope
      reads this
    {
      Scope(agents, links, messages, reservations, tasks, progress, publications, credentials, remoteTasks, correlations,
            Log(events, revision, floor, hosted), clock, issued)
    }

    constructor (hosted: bool)
      ensures Db() == Fresh(hosted) && Inv(Db())
    {
      agents, links, messages, reservations, tasks, progress := map[], {}, map[], map[], map[], map[];
      publications, credentials, remoteTasks, correlations := map[], map[], map[], map[];
      events, revision, floor, clock, issued := [], 0, 0, 0, {};
      this.hosted := hosted;
      new;
      FreshIsGood(hosted, Limits(0, 0));
    }

    /** A refused transaction leaves every table as it found it. */
    method Rollback(saved: Scope)
      requires saved.log.hosted == hosted
      modifies this
      ensures Db() == saved
    {
      RestoreAgents(saved);
      RestoreMessages(saved);
      RestoreTasks(saved);
      events, revision, floor := saved.log.events, saved.log.revision, saved.log.floor;
    }

    method RestoreAgents(saved: Scope)
      modifies this`agents, this`links, this`publications, this`credentials, this`clock, this`issued
      ensures agents == saved.agents && links == saved.links && publications == saved.publications && credentials == saved.credentials
      ensures clock == saved.clock && issued == saved.issued
    {
      agents, links, publications, credentials := saved.agents, saved.links, saved.publications, saved.credentials;
      clock, issued := saved.clock, saved.issued;
    }

    method RestoreMessages(saved: Scope)
      modifies this`messages, this`reservations, this`remoteTasks, this`correlations
      ensures messages == saved.messages && reservations == saved.reservations
      ensures remoteTasks == saved.remoteTasks && correlations == saved.correlations
    {
      messages, reservations, remoteTasks, correlations := saved.messages, saved.reservations, saved.remoteTasks, saved.correlations;
    }

    method RestoreTasks(saved: Scope)
      modifies this`tasks, this`progress
      ensures tasks == saved.tasks && progress == saved.progress
    {
      tasks, progress := saved.tasks, saved.progress;
    }

    // ---- events ------------------------------------------------------------------------------

    /** One INSERT of at most 128 events, and the trim of a hosted log. */
    method InsertEvents(batch: seq<Pending>, now: Time)
      requires |batch| <= CHUNK
      modifies this`events, this`revision, this`floor
      ensures Db() == old(Db()).(log := AppendBatch(old(Db()).log, batch, now))
    {
      ghost var log := Db().log;
      if |batch| == 0 {
        assert log.events + Numbered(log.revision, batch, now) == log.events;
        return;
      }
      revision := revision + |batch|;
      var rows: seq<Event> := [];
      for i := 0 to |batch|
        invariant rows == Numbered(log.revision, batch, now)[..i]
      {
        rows := rows + [Event(revision - |batch| + i + 1, batch[i], now)];
      }
      assert Numbered(log.revision, batch, now)[..|batch|] == Numbered(log.revision, batch, now);
      events := events + rows;
      if hosted && revision > HOSTED_HISTORY && (revision - |batch|) / 100 < revision / 100 {
        var point := revision / 100 * 100 - HOSTED_HISTORY;
        events := Kept(events, point);
        floor := Max(floor, point);
      }
    }

    method AppendEvent(kind: EventKind, subject: Subject, attribute: Attribute, now: Time)
      modifies this`events, this`revision, this`floor
      ensures Db() == Emit(old(Db()), kind, subject, attribute, now)
    {
      InsertEvents([Pending(kind, subject, attribute)], now);
    }

    /** However many events, they get the revisions and the retention they would get one at a time. */
    method AppendEvents(batch: seq<Pending>, now: Time)
      requires LogOk(Db().log) && Plain(batch)
      modifies this`events, this`revision, this`floor
      ensures Db() == old(Db()).(log := AppendAll(old(Db()).log, batch, now))
    {
      hide Covers, Bounded, AppendBatch;
      ghost var log := Db().log;
      var rest := batch;
      ghost var done: seq<Pending> := [];
      while |rest| > CHUNK
        invariant batch == done + rest
        invariant Db() == old(Db()).(log := AppendAll(log, done, now))
      {
        AppendChunk(log, done, rest[..CHUNK], now);
        InsertEvents(rest[..CHUNK], now);
        done, rest := done + rest[..CHUNK], rest[CHUNK..];
      }
      AppendChunk(log, done, rest, now);
      InsertEvents(rest, now);
      assert done + rest == batch;
    }

    // ---- remote tasks ------------------------------------------------------------------------

    /** bus/a2a_tasks.go transitionA2ATaskForMessage. */
    method TransitionRemote(message: Id, cause: Cause, now: Time)
      modifies this`remoteTasks, this`events, this`revision, this`floor
      ensures Db() == AdvanceRemote(old(Db()), message, cause, now)
    {
      if message !in correlations || correlations[message].task !in remoteTasks {
        return;
      }
      var task := correlations[message].task;
      var next := NextRemote(cause, remoteTasks[task].state);
      if next.None? || next.value == remoteTasks[task].state {
        return;
      }
      SetRemoteState(task, next.value, now);
    }

    method SetRemoteState(task: Id, state: RemoteState, now: Time)
      requires task in remoteTasks
      modifies this`remoteTasks, this`events, this`revision, this`floor
      ensures Db() == SetRemote(old(Db()), task, state, now)
    {
      remoteTasks := remoteTasks[task := remoteTasks[task].(state := state, updatedAt := now)];
      AppendEvent(RemoteTaskStateChanged, RemoteSubject(task), RemoteTaskState(state), now);
    }

    // ---- expiry and release ------------------------------------------------------------------

    /** UPDATE ... SET state='expired' for a row that the SELECT found, and what follows from it. */
    method ExpireOne(id: Id, row: Message, now: Time)
      requires id in Db().messages && Db().messages[id] == row
      modifies this
      ensures Db() == ExpireRow(old(Db()), id, now)
    {
      hide Append, AdvanceRemote, Db;
      if !Live(row.state) {
        return;
      }
      ghost var t := Db();
      SetMessage(id, AsExpired(row));
      if row.deliveredAt.None? {
        AdvanceFrame(t, id, Expiry, now);
        AdvanceElsewhere(t, Db().messages, t.reservations, id, Expiry, now);
        TransitionRemote(id, Expiry, now);
      }
      AppendEvent(MessageExpired, MessageSubject(id), MessageState(Expired), now);
    }

    method ExpireMessages(now: Time, world: World)
      modifies this
      ensures Db() == Expire(old(Db()), now, world)
    {
      hide ExpireRow, Db;
      ghost var s := Db();
      var rows := world.order(Due(Db(), now));
      assert Lists(rows, Due(s, now));
      for i := 0 to |rows|
        invariant forall id :: id in rows[..i] ==> id in s.messages
        invariant Db() == ExpireRows(s, rows[..i], now)
      {
        ExpireNext(s, rows, i, now);
        ExpireOne(rows[i], Db().messages[rows[i]], now);
      }
      assert rows[..|rows|] == rows;
    }

    /** The events of a release, one for each row as it was before. */
    method LogReleased(rows: seq<Id>, now: Time, s: Scope)
      requires Distinct(rows) && (forall id :: id in rows ==> id in s.messages) && Db().log == s.log
      modifies this`events, this`revision, this`floor
      ensures Db() == old(Db()).(log := FreeRows(s, rows, now).log)
    {
      hide Append, FreeRow;
      ghost var t := Db();
      assert rows[..0] == [];
      for i := 0 to |rows|
        invariant Db() == t.(log := FreeRows(s, rows[..i], now).log)
      {
        FreeOneMore(s, rows, i, now);
        AppendEvent(MessageReleased, MessageSubject(rows[i]), MessageState(AsFreed(s.messages[rows[i]]).state), now);
      }
      assert rows[..|rows|] == rows;
    }

    method DeleteReservation(agent: Id, reservation: Id)
      modifies this`reservations
      ensures Db() == DropReservation(old(Db()), agent, reservation)
    {
      if reservation in reservations && reservations[reservation].agent == agent {
        reservations := reservations - {reservation};
      }
    }

    method UpdateMessages(rows: seq<Id>, change: Message -> Message)
      modifies this`messages
      ensures Db() == old(Db()).(messages := Updated(old(Db()).messages, rows, change))
    {
      messages := Updated(messages, rows, change);
    }

    method ReleaseReservation(agent: Id, reservation: Id, now: Time, world: World)
      modifies this
      ensures Db() == Release(old(Db()), agent, reservation, now, world)
    {
      hide Append, FreeRow, FreeRows, Updated, Db, Held, Dropped;
      var s := Db();
      var rows := world.order(Held(s, agent, reservation));
      HeldRows(s, agent, reservation, world);
      UpdateMessages(rows, AsFreed);
      DeleteReservation(agent, reservation);
      LogReleased(rows, now, s);
      FreeRowsBulk(s, rows, now);
    }

    /** Release reservations one after another, each at its own clock reading. */
    method ReleaseReservations(ids: seq<Id>, tick: nat, world: World)
      modifies this
      ensures Db() == ReleaseEach(old(Db()), ids, tick, world)
    {
      hide Release, Db;
      ghost var s := Db();
      assert ids[..0] == [];
      for i := 0 to |ids|
        invariant Db() == ReleaseEach(s, ids[..i], tick, world)
      {
        ReleaseNext(s, ids, i, tick, world);
        var t := Db();
        if ids[i] in t.reservations {
          ReleaseReservation(t.reservations[ids[i]].agent, ids[i], world.tick(tick + i), world);
        }
      }
      assert ids[..|ids|] == ids;
    }

    // ---- the inbox ---------------------------------------------------------------------------

    method InsertReservation(id: Id, row: Reservation)
      modifies this`reservations, this`issued
      ensures Db() == old(Db()).(reservations := old(Db()).reservations[id := row], issued := old(Db()).issued + {id})
    {
      reservations, issued := reservations[id := row], issued + {id};
    }

    method SetMessage(id: Id, row: Message)
      modifies this`messages
      ensures Db() == old(Db()).(messages := old(Db()).messages[id := row])
    {
      messages := messages[id := row];
    }

    method WriteMessage(id: Id, row: Message, kind: EventKind, now: Time)
      modifies this`messages, this`events, this`revision, this`floor
      ensures Db() == MoveMessage(old(Db()), id, row, kind, now)
    {
      hide Db, Append;
      SetMessage(id, row);
      AppendEvent(kind, MessageSubject(id), MessageState(row.state), now);
    }

    method HoldMessages(agent: Id, page: seq<Id>, reservation: Id, now: Time)
      requires Distinct(page) && forall id :: id in page ==> id in Db().messages
      requires forall id :: id in page ==> Db().messages[id].to == Address(agent) && (Db().messages[id].state == Queued || Db().messages[id].state == Delivered)
      modifies this
      ensures Db() == ReserveRows(old(Db()), page, reservation, now)
    {
      hide Append, MoveMessage, Db;
      ghost var s := Db();
      assert page[..0] == [];
      for i := 0 to |page|
        invariant Db() == ReserveRows(s, page[..i], reservation, now)
      {
        ReserveNext(s, page, i, reservation, now);
        assert page[i] in page;
        var row := Db().messages[page[i]];
        if row.to == Address(agent) && (row.state == Queued || row.state == Delivered) {
          WriteMessage(page[i], AsReserved(row, reservation), MessageReserved, now);
        }
      }
      assert page[..|page|] == page;
    }

    method ReserveInbox(caller: Caller, limit: nat, world: World) returns (result: Result<Option<Hold>>)
      modifies this
      ensures Outcome(Db(), result) == Scopes.ReserveInbox(old(Db()), caller, limit, world)
    {
      hide Append, ReserveRows, ReleaseEach, Expire, InboxPage, Db;
      var now := world.tick(0);
      if !Current(Db(), caller, now) {
        return Refused(Unauthenticated);
      }
      ExpireMessages(now, world);
      ReleaseReservations(world.order(Lapsed(Db(), now)), 1, world);
      var page := InboxPage(Db(), caller.agent, limit, now, world);
      PageRows(Db(), caller.agent, limit, now, world);
      if |page| == 0 {
        return Ok(None);
      }
      var id := world.mint(0);
      InsertReservation(id, Reservation(caller.agent, now, now + RESERVATION_TTL, caller.execution));
      HoldMessages(caller.agent, page, id, now);
      result := Ok(Some(Hold(id, now + RESERVATION_TTL, page)));
    }

    method LogDelivered(rows: seq<Id>, now: Time, s: Scope)
      requires Distinct(rows) && (forall id :: id in rows ==> id in s.messages)
      requires Db() == s.(messages := Db().messages, reservations := Db().reservations)
      modifies this`remoteTasks, this`events, this`revision, this`floor
      ensures Db() == DeliverRows(s, rows, now).(messages := old(Db()).messages, reservations := old(Db()).reservations)
    {
      hide Append, AdvanceRemote, DeliverRow, Db;
      ghost var m, r := Db().messages, Db().reservations;
      assert rows[..0] == [];
      for i := 0 to |rows|
        invariant Db() == DeliverRows(s, rows[..i], now).(messages := m, reservations := r)
      {
        DeliverOneMore(s, rows, i, now);
        DeliverOnly(s, rows[..i + 1], now);
        ghost var t := DeliverRows(s, rows[..i], now);
        if s.messages[rows[i]].from.kind.RemoteKind? {
          AdvanceElsewhere(t, m, r, rows[i], Delivery, now);
          TransitionRemote(rows[i], Delivery, now);
        }
        AppendEvent(MessageDelivered, MessageSubject(rows[i]), MessageState(Delivered), now);
      }
      assert rows[..|rows|] == rows;
    }

    method CommitInbox(caller: Caller, reservation: Id, world: World) returns (result: Result<seq<Id>>)
      modifies this
      ensures Outcome(Db(), result) == Scopes.CommitInbox(old(Db()), caller, reservation, world)
    {
      hide Append, DeliverRows, Release, Expire, Db, Updated;
      var s := Db();
      if !Current(s, caller, world.tick(0)) {
        return Refused(Unauthenticated);
      }
      if reservation !in s.reservations || s.reservations[reservation].agent != caller.agent {
        return Refused(NotFound);
      }
      if s.reservations[reservation].expiresAt <= world.tick(1) {
        ReleaseReservation(caller.agent, reservation, world.tick(2), world);
        return Refused(Conflict);
      }
      ExpireMessages(world.tick(2), world);
      var rows := CommitHeld(caller.agent, reservation, world);
      result := Ok(rows);
    }

    method CommitHeld(agent: Id, reservation: Id, world: World) returns (rows: seq<Id>)
      modifies this
      ensures rows == SortBy(world.order(Held(old(Db()), agent, reservation)), Age(old(Db())))
      ensures var t := DeliverRows(old(Db()), rows, world.tick(3)); Db() == t.(reservations := t.reservations - {reservation})
    {
      hide Append, DeliverRows, Db, Updated;
      var s := Db();
      var held := Held(s, agent, reservation);
      rows := SortBy(world.order(held), Age(s));
      assert Lists(world.order(held), held);
      SortByLists(world.order(held), held, Age(s));
      var now := world.tick(3);
      UpdateMessages(rows, m => AsDelivered(m, now));
      ForgetReservation(reservation);
      LogDelivered(rows, now, s);
      DeliverRowsBulk(s, rows, now);
    }

    method ForgetReservation(reservation: Id)
      modifies this`reservations
      ensures Db() == old(Db()).(reservations := old(Db()).reservations - {reservation})
    {
      reservations := reservations - {reservation};
    }

    method ReleaseInbox(caller: Caller, reservation: Id, world: World) returns (result: Result<()>)
      modifies this
      ensures Outcome(Db(), result) == Scopes.ReleaseInbox(old(Db()), caller, reservation, world)
    {
      hide Release, Expire, Db;
      if !Current(Db(), caller, world.tick(0)) {
        return Refused(Unauthenticated);
      }
      ExpireMessages(world.tick(1), world);
      ReleaseReservation(caller.agent, reservation, world.tick(2), world);
      result := Ok(());
    }

    method AcknowledgeMessages(caller: Caller, ids: seq<Id>, world: World) returns (result: Result<nat>)
      modifies this
      ensures Outcome(Db(), result) == Scopes.AcknowledgeMessages(old(Db()), caller, ids, world)
    {
      hide Append, MoveMessage, Expire, AcknowledgeRows, CountAcknowledged, Db;
      if !Current(Db(), caller, world.tick(0)) {
        return Refused(Unauthenticated);
      }
      ExpireMessages(world.tick(1), world);
      var count := AcknowledgeListed(caller.agent, Unique(ids), 2, world);
      result := Ok(count);
    }

    method AcknowledgeListed(agent: Id, ids: seq<Id>, tick: nat, world: World) returns (count: nat)
      requires Distinct(ids)
      modifies this
      ensures Db() == AcknowledgeRows(old(Db()), ids, agent, tick, world) && count == CountAcknowledged(old(Db()), ids, agent)
    {
      hide Append, MoveMessage, Db;
      ghost var s := Db();
      assert ids[..0] == [];
      count := 0;
      for i := 0 to |ids|
        invariant Db() == AcknowledgeRows(s, ids[..i], agent, tick, world) && count == CountAcknowledged(s, ids[..i], agent)
      {
        AcknowledgeNext(s, ids, i, agent, tick, world);
        if Acknowledgeable(Db(), ids[i], agent) {
          WriteMessage(ids[i], AsAcknowledged(Db().messages[ids[i]], world.tick(tick + i)), MessageAcknowledged, world.tick(tick + i));
          count := count + 1;
        }
      }
      assert ids[..|ids|] == ids;
    }

    method Receipt(caller: Caller, id: Id, world: World) returns (result: Result<Message>)
      modifies this
      ensures Outcome(Db(), result) == Scopes.Receipt(old(Db()), caller, id, world)
    {
      hide Expire, Db;
      var saved := Db();
      if !Current(saved, caller, world.tick(0)) {
        return Refused(Unauthenticated);
      }
      ExpireMessages(world.tick(1), world);
      var s := Db();
      if id in s.messages && (s.messages[id].from == Address(caller.agent) || s.messages[id].to == Address(caller.agent)) {
        return Ok(s.messages[id]);
      }
      ExpireFrame(saved, world.tick(1), world);
      Undo(saved);
      result := Refused(NotFound);
    }

    /** Rollback of a transaction that has written. */
    method Undo(saved: Scope)
      requires saved.log.hosted == Db().log.hosted
      modifies this
      ensures Db() == saved
    {
      Rollback(saved);
    }

    // ---- sending -----------------------------------------------------------------------------

    /** The checks on replies, links and recipients, in the order the program makes them. */
    method CheckAddressee(sender: Participant, input: SendInput, notification: bool) returns (kind: Result<Kind>)
      ensures kind == Addressee(Db(), sender, input, notification)
    {
      var to := AgentKind;
      if ModeOf(input) == Response {
        if input.responseTo.None? {
          return Refused(InvalidArgument);
        }
        if input.responseTo.value !in messages || messages[input.responseTo.value].mode != Request {
          return Refused(NotFound);
        }
        var request := messages[input.responseTo.value];
        if request.to != sender || request.from.id != input.to {
          return Refused(NotFound);
        }
        if request.deliveredAt.None? || request.repliedAt.Some? {
          return Refused(Conflict);
        }
        to := request.from.kind;
      } else if input.responseTo.Some? {
        return Refused(InvalidArgument);
      }
      if sender.kind.AgentKind? && to.AgentKind? && !notification {
        if OrderedPair(sender.id, input.to) !in links {
          return Refused(PermissionDenied);
        }
      } else if to.AgentKind? && input.to !in agents {
        return Refused(NotFound);
      }
      kind := Ok(to);
    }

    method InsertMessage(id: Id, row: Message, now: Time)
      modifies this
      ensures Db() == Inserted(old(Db()), id, row, now)
    {
      hide Append;
      AppendEvent(MessageAccepted, MessageSubject(id), MessageState(row.state), now);
      messages, issued := messages[id := row], issued + {id};
    }

    method MarkReplied(request: Id, response: Id, now: Time)
      requires request in Db().messages
      modifies this`messages
      ensures Db() == old(Db()).(messages := old(Db()).messages[request := old(Db()).messages[request].(repliedAt := Some(now), response := Some(response))])
    {
      messages := messages[request := messages[request].(repliedAt := Some(now), response := Some(response))];
    }

    method MarkCorrelation(request: Id, response: Id, now: Time)
      modifies this`correlations
      ensures var s := old(Db());
              Db() == if request !in s.correlations then s
                      else s.(correlations := s.correlations[request := s.correlations[request].(response := Some(response), updatedAt := now)])
    {
      if request in correlations {
        correlations := correlations[request := correlations[request].(response := Some(response), updatedAt := now)];
      }
    }

    method AnswerRequest(request: Id, response: Id, kind: Kind, now: Time)
      requires request in Db().messages
      modifies this
      ensures Db() == Answer(old(Db()), request, response, kind, now)
    {
      hide Append, AdvanceRemote, Db;
      MarkReplied(request, response, now);
      AppendEvent(MessageReplied, MessageSubject(request), Unstated, now);
      if kind.RemoteKind? {
        MarkCorrelation(request, response, now);
        TransitionRemote(request, Reply, now);
      }
    }

    /** bus/store.go sendMessageTx; a refusal undoes whatever the caller's transaction had done by `saved`. */
    method Send(sender: Participant, input: SendInput, notification: bool, tick: nat, mint: nat, world: World) returns (result: Result<Id>)
      modifies this
      ensures Outcome(Db(), result) == SendIn(old(Db()), sender, input, notification, tick, mint, world)
    {
      hide Db, Expire, Existing, Addressee, HashOf, Inserted, Answer, NewMessage, Backlog;
      var saved := Db();
      var now := world.tick(tick);
      ExpireMessages(now, world);
      ExpireFrame(saved, now, world);
      var s := Db();
      var existing := Existing(s, sender, input, world);
      if existing.Some? {
        if existing.value in s.messages && s.messages[existing.value].hash == HashOf(input) {
          return Ok(existing.value);
        }
        Undo(saved);
        return Refused(Conflict);
      }
      var kind := CheckAddressee(sender, input, notification);
      if kind.Refused? {
        Undo(saved);
        return Refused(kind.error);
      }
      if |Backlog(s)| >= BACKLOG_CAP {
        Undo(saved);
        return Refused(Backpressure);
      }
      RequestExists(s, sender, input, notification, kind.value, world.mint(mint), now);
      var id := world.mint(mint);
      InsertMessage(id, NewMessage(sender, kind.value, input, now), now);
      if ModeOf(input) == Response {
        AnswerRequest(input.responseTo.value, id, kind.value, now);
      }
      result := Ok(id);
    }

    method SendMessage(caller: Caller, input: SendInput, world: World) returns (result: Result<Id>)
      modifies this
      ensures Outcome(Db(), result) == Scopes.SendMessage(old(Db()), caller, input, world)
    {
      hide Db, SendIn;
      if !Current(Db(), caller, world.tick(0)) {
        return Refused(Unauthenticated);
      }
      result := Send(Address(caller.agent), input, false, 1, 0, world);
    }

    // ---- the task board ----------------------------------------------------------------------

    method SetTask(id: Id, row: Task)
      modifies this`tasks
      ensures Db() == old(Db()).(tasks := old(Db()).tasks[id := row])
    {
      tasks := tasks[id := row];
    }

    method WriteTask(id: Id, row: Task, kind: EventKind, now: Time)
      modifies this`tasks, this`events, this`revision, this`floor
      ensures Db() == MoveTask(old(Db()), id, row, kind, now)
    {
      hide Db, Append;
      SetTask(id, row);
      AppendEvent(kind, TaskSubject(id), TaskStatus(row.status), now);
    }

    method ReleaseStaleClaims(now: Time, world: World)
      modifies this
      ensures Db() == ReleaseStale(old(Db()), now, world)
    {
      hide Db, MoveTask;
      ghost var s := Db();
      var rows := StaleRows(Db(), now, world);
      assert rows[..0] == [];
      for i := 0 to |rows|
        invariant Db() == ReopenRows(s, rows[..i], now)
      {
        ReopenNext(s, rows, i, now);
        var t := Db();
        if rows[i] in t.tasks && t.tasks[rows[i]].status == Claimed {
          WriteTask(rows[i], AsReopened(t.tasks[rows[i]], now), TaskReleased, now);
        }
      }
      assert rows[..|rows|] == rows;
    }

    method InsertTask(id: Id, row: Task, now: Time)
      modifies this
      ensures Db() == MoveTask(old(Db()).(issued := old(Db()).issued + {id}, progress := old(Db()).progress[id := []]), id, row, TaskCreated, now)
    {
      hide Append;
      issued, progress := issued + {id}, progress[id := []];
      WriteTask(id, row, TaskCreated, now);
    }

    method AddTask(caller: Option<Caller>, title: string, dependencies: seq<Id>, world: World) returns (result: Result<Id>)
      modifies this
      ensures Outcome(Db(), result) == Scopes.AddTask(old(Db()), caller, title, dependencies, world)
    {
      hide Db, MoveTask, Unfinished;
      var s := Db();
      if caller.Some? && !Current(s, caller.value, world.tick(0)) {
        return Refused(Unauthenticated);
      }
      if |Unfinished(s)| >= ACTIVE_TASK_CAP {
        return Refused(Backpressure);
      }
      var needed := Unique(dependencies);
      for i := 0 to |needed|
        invariant Db() == s
        invariant forall j :: 0 <= j < i ==> needed[j] in s.tasks
      {
        if needed[i] !in s.tasks {
          assert needed[i] in needed;
          return Refused(NotFound);
        }
      }
      assert forall d :: d in dependencies ==> d in needed;
      var creator := if caller.Some? then Some(caller.value.agent) else None;
      InsertTask(world.mint(0), Task(title, creator, None, None, Open, needed, None, world.tick(1), world.tick(1)), world.tick(1));
      result := Ok(world.mint(0));
    }

    method ClaimTask(caller: Caller, id: Id, world: World) returns (result: Result<()>)
      modifies this
      ensures Outcome(Db(), result) == Scopes.ClaimTask(old(Db()), caller, id, world)
    {
      hide Db, MoveTask, ReleaseStale;
      var saved := Db();
      if !Current(saved, caller, world.tick(0)) {
        return Refused(Unauthenticated);
      }
      ReleaseStaleClaims(world.tick(1), world);
      ReleaseStaleFrame(saved, world.tick(1), world);
      var s := Db();
      if id !in s.tasks {
        Undo(saved);
        return Refused(NotFound);
      }
      var row := s.tasks[id];
      if row.status != Open {
        Undo(saved);
        return Refused(Conflict);
      }
      for i := 0 to |row.dependencies|
        invariant Db() == s
        invariant forall j :: 0 <= j < i ==> row.dependencies[j] in s.tasks && s.tasks[row.dependencies[j]].status == Done
      {
        var d := row.dependencies[i];
        if d !in s.tasks || s.tasks[d].status != Done {
          assert d in row.dependencies;
          Undo(saved);
          return Refused(Conflict);
        }
      }
      assert Unblocked(s, row.dependencies);
      WriteTask(id, row.(status := Claimed, claimedBy := Some(caller.agent), claimedExecution := Some(caller.execution), updatedAt := world.tick(2)), TaskClaimed, world.tick(2));
      result := Ok(());
    }

    method CompleteTask(caller: Caller, id: Id, note: Option<string>, world: World) returns (result: Result<()>)
      modifies this
      ensures Outcome(Db(), result) == Scopes.CompleteTask(old(Db()), caller, id, note, world)
    {
      hide Db, MoveTask;
      var s := Db();
      if !Current(s, caller, world.tick(0)) {
        return Refused(Unauthenticated);
      }
      if !ClaimedBy(s, id, caller) {
        return Refused(Conflict);
      }
      WriteTask(id, s.tasks[id].(status := Done, note := note, updatedAt := world.tick(1)), TaskCompleted, world.tick(1));
      result := Ok(());
    }

    method ReleaseTask(caller: Caller, id: Id, world: World) returns (result: Result<()>)
      modifies this
      ensures Outcome(Db(), result) == Scopes.ReleaseTask(old(Db()), caller, id, world)
    {
      hide Db, MoveTask;
      var s := Db();
      if !Current(s, caller, world.tick(0)) {
        return Refused(Unauthenticated);
      }
      if !ClaimedBy(s, id, caller) {
        return Refused(Conflict);
      }
      WriteTask(id, AsReopened(s.tasks[id], world.tick(1)), TaskReleased, world.tick(1));
      result := Ok(());
    }

    method SetProgress(id: Id, rows: seq<Progress>)
      modifies this`progress
      ensures Db() == old(Db()).(progress := old(Db()).progress[id := rows])
    {
      progress := progress[id := rows];
    }

    /** SELECT COUNT(*), SUM(octet_length(text)), MAX(sequence) over a task's progress rows. */
    method SumProgress(rows: seq<Progress>) returns (bytes: nat, sequence: nat)
      ensures bytes == TextBytes(rows) && sequence == MaxSequence(rows)
    {
      bytes, sequence := 0, 0;
      assert rows[..0] == [];
      for i := 0 to |rows|
        invariant bytes == TextBytes(rows[..i]) && sequence == MaxSequence(rows[..i])
      {
        assert rows[..i + 1][..i] == rows[..i];
        bytes, sequence := bytes + |rows[i].text|, Max(sequence, rows[i].sequence);
      }
      assert rows[..|rows|] == rows;
    }

    method AddTaskProgress(caller: Caller, id: Id, text: string, world: World) returns (result: Result<nat>)
      modifies this
      ensures Outcome(Db(), result) == Scopes.AddTaskProgress(old(Db()), caller, id, text, world)
    {
      hide Db, Append, TextBytes, MaxSequence;
      var now, s := world.tick(0), Db();
      if !Current(s, caller, now) {
        return Refused(Unauthenticated);
      }
      if id !in s.tasks {
        return Refused(NotFound);
      }
      if !ClaimedBy(s, id, caller) {
        return Refused(Conflict);
      }
      var rows := if id in s.progress then s.progress[id] else [];
      var bytes, sequence := SumProgress(rows);
      if |rows| >= PROGRESS_CAP || bytes + |text| > PROGRESS_BYTES {
        return Refused(Backpressure);
      }
      SetProgress(id, rows + [Progress(sequence + 1, caller.agent, caller.execution, text, now)]);
      AppendEvent(TaskProgressAdded, TaskSubject(id), Unstated, now);
      result := Ok(sequence + 1);
    }

    // ---- executions --------------------------------------------------------------------------

    method SetAgent(id: Id, row: AgentRow)
      modifies this`agents
      ensures Db() == old(Db()).(agents := old(Db()).agents[id := row])
    {
      agents := agents[id := row];
    }

    method Issue(ids: set<Id>)
      modifies this`issued
      ensures Db() == old(Db()).(issued := old(Db()).issued + ids)
    {
      issued := issued + ids;
    }

    /** bus/retire.go releaseAgentReservations. */
    method ReleaseAgentReservations(agent: Id, tick: nat, world: World) returns (count: nat)
      modifies this
      ensures var rows := world.order(ReservationsOf(old(Db()), agent));
              Db() == ReleaseEach(old(Db()), rows, tick, world) && count == |rows|
    {
      hide Db, ReleaseEach;
      var rows := world.order(ReservationsOf(Db(), agent));
      ReleaseReservations(rows, tick, world);
      count := |rows|;
    }

    method InsertLinks(pairs: set<(Id, Id)>)
      modifies this`links
      ensures Db() == old(Db()).(links := old(Db()).links + pairs)
    {
      links := links + pairs;
    }

    /** bus/store.go linkRegisteredPeers: nothing is linked unless every peer can be. */
    method LinkRegisteredPeers(agent: Id, peers: seq<Id>, now: Time) returns (result: Result<()>)
      requires LogOk(Db().log)
      modifies this
      ensures Outcome(Db(), result) == LinkPeers(old(Db()), agent, peers, now)
    {
      hide Db, AppendAll, Covers, Bounded;
      var s := Db();
      for i := 0 to |peers|
        invariant Db() == s && agent !in peers[..i]
      {
        assert peers[..i + 1] == peers[..i] + [peers[i]];
        if peers[i] == agent {
          assert agent in peers;
          return Refused(InvalidArgument);
        }
      }
      assert peers[..|peers|] == peers;
      var pairs, batch := {}, [];
      assert peers[..0] == [];
      for i := 0 to |peers|
        invariant Db() == s && forall j :: 0 <= j < i ==> peers[j] in s.agents
        invariant pairs == PairsWith(agent, peers[..i]) && batch == LinkEvents(s, agent, peers[..i])
      {
        LinkEventsNext(s, agent, peers, i);
        assert peers[..i + 1] == peers[..i] + [peers[i]];
        if peers[i] !in s.agents {
          assert peers[i] in peers;
          return Refused(NotFound);
        }
        var pair := OrderedPair(agent, peers[i]);
        pairs := pairs + {pair};
        if pair !in s.links {
          batch := batch + [Pending(LinkCreated, LinkSubject(pair.0, pair.1), Unstated)];
        }
      }
      InsertLinks(pairs);
      LinkEventsUnstated(s, agent, peers);
      AppendEvents(batch, now);
      result := Ok(());
    }

    method TakeAgent(agent: Id, row: AgentRow, world: World)
      modifies this
      ensures Db() == TakeOver(old(Db()), agent, row, world)
    {
      hide Db, ReleaseEach, ReleaseStale;
      SetAgent(agent, row);
      Issue({row.execution, row.token});
      var count := ReleaseAgentReservations(agent, 1, world);
      ReleaseStaleClaims(world.tick(1 + count), world);
    }

    method RegisterAgent(input: RegisterInput, world: World) returns (result: Result<Caller>)
      requires Inv(Db()) && Fair(world, Db().clock, Db().issued) && input.lease > 0
      modifies this
      ensures Outcome(Db(), result) == Scopes.RegisterAgent(old(Db()), input, world)
    {
      hide Db, TakeOver, LinkPeers, Scopes.Reachable, Append, Covers, Bounded, Inv;
      var saved, now := Db(), world.tick(0);
      var agent := if input.agent.Some? then input.agent.value else world.mint(2);
      var row := AgentRow(world.mint(0), world.mint(1), Starting, false, now + input.lease, now, now);
      TakeAgent(agent, row, world);
      AppendEvent(AgentRegistered, AgentSubject(agent), Unstated, now);
      RegisteredLog(saved, agent, row, now, world);
      var s := Db();
      var nearby := if input.workspace then FirstRows(SortBy(world.order(Scopes.Reachable(s, agent, now)), ById()), PEER_CAP + 1) else [];
      var peers := Unique(input.connectTo + nearby);
      if input.workspace && |peers| > PEER_CAP {
        Undo(saved);
        return Refused(Backpressure);
      }
      var linked := LinkRegisteredPeers(agent, peers, now);
      if linked.Refused? {
        LinkFrame(s, agent, peers, now);
        Undo(saved);
        return Refused(linked.error);
      }
      result := Ok(Caller(agent, row.execution));
    }

    method LinkAgents(left: Id, right: Id, world: World) returns (result: Result<()>)
      modifies this
      ensures Outcome(Db(), result) == Scopes.LinkAgents(old(Db()), left, right, world)
    {
      hide Db, Append;
      var s := Db();
      if left == right {
        return Refused(InvalidArgument);
      }
      if left !in s.agents || right !in s.agents {
        return Refused(NotFound);
      }
      var pair := OrderedPair(left, right);
      if pair !in s.links {
        InsertLinks({pair});
        AppendEvent(LinkCreated, LinkSubject(pair.0, pair.1), Unstated, world.tick(0));
      }
      result := Ok(());
    }

    method Heartbeat(caller: Caller, lifecycle: Lifecycle, ready: bool, lease: Time, world: World) returns (result: Result<bool>)
      modifies this
      ensures Outcome(Db(), result) == Scopes.Heartbeat(old(Db()), caller, lifecycle, ready, lease, world)
    {
      hide Db, Append;
      var now, s := world.tick(0), Db();
      if !Current(s, caller, now) {
        return Refused(Unauthenticated);
      }
      var row := s.agents[caller.agent];
      SetAgent(caller.agent, row.(lifecycle := lifecycle, ready := ready, leaseExpiresAt := now + lease, updatedAt := now));
      var changed := row.lifecycle != lifecycle || row.ready != ready;
      if changed {
        AppendEvent(LifecycleChanged, AgentSubject(caller.agent), Unstated, now);
      }
      result := Ok(changed);
    }

    method RetireAgent(token: Id, world: World) returns (result: Result<Caller>)
      modifies this
      ensures Outcome(Db(), result) == Scopes.RetireAgent(old(Db()), token, world)
    {
      hide Db, Append, ReleaseEach, ReleaseStale;
      var s := Db();
      var holders := world.order(Holders(s, token));
      if |holders| == 0 || holders[0] !in s.agents {
        return Refused(Unauthenticated);
      }
      var agent, row := holders[0], s.agents[holders[0]];
      if row.leaseExpiresAt != 0 {
        SetAgent(agent, Rested(row, world.tick(0)));
        var count := ReleaseAgentReservations(agent, 1, world);
        ReleaseStaleClaims(world.tick(1 + count), world);
        AppendEvent(LifecycleChanged, AgentSubject(agent), Unstated, world.tick(0));
      }
      result := Ok(Caller(agent, row.execution));
    }

    method RestAgents(now: Time)
      modifies this`agents
      ensures Db() == RestAll(old(Db()), now)
    {
      agents := map id | id in agents :: Rested(agents[id], now);
    }

    method DisableCredentials()
      modifies this`credentials
      ensures Db() == DisableAll(old(Db()))
    {
      credentials := map id | id in credentials :: credentials[id].(enabled := false);
    }

    method ReleaseAgentsInTurn(ids: seq<Id>, tick: nat, world: World)
      modifies this
      ensures Db() == ReleaseAgents(old(Db()), ids, tick, world)
    {
      hide Db, ReleaseEach;
      ghost var s := Db();
      assert ids[..0] == [];
      for i := 0 to |ids|
        invariant Db() == ReleaseAgents(s, ids[..i], tick, world)
      {
        ReleaseAgentsNext(s, ids, i, tick, world);
        var _ := ReleaseAgentReservations(ids[i], tick, world);
      }
      assert ids[..|ids|] == ids;
    }

    method RotateScopeToken(world: World)
      modifies this
      ensures Db() == Scopes.RotateScopeToken(old(Db()), world)
    {
      hide Db, Append, ReleaseAgents, ReleaseStale, RestAll, DisableAll;
      var ids := world.order(Db().agents.Keys);
      RestAgents(world.tick(0));
      ReleaseAgentsInTurn(ids, 1, world);
      ReleaseStaleClaims(world.tick(1), world);
      DisableCredentials();
      AppendEvent(CredentialsRotated, ScopeSubject, Unstated, world.tick(0));
    }

    // ---- remote work -------------------------------------------------------------------------

    method SetTaskState(caller: RemoteCaller, task: Id, state: RemoteState, world: World) returns (result: Result<()>)
      modifies this
      ensures Outcome(Db(), result) == RemoteWork.SetTaskState(old(Db()), caller, task, state, world)
    {
      hide Append;
      if !CurrentRemote(Db(), caller) {
        return Refused(Unauthenticated);
      }
      if task !in remoteTasks || remoteTasks[task].principal != caller.principal {
        return Refused(NotFound);
      }
      if !ValidTransition(remoteTasks[task].state, state) {
        return Refused(Conflict);
      }
      if remoteTasks[task].state != state {
        SetRemoteState(task, state, world.tick(0));
      }
      result := Ok(());
    }

    /** SELECT SUM(length(body)) over a set of messages. */
    method SumBodies(ids: set<Id>, world: World) returns (bytes: nat)
      ensures bytes == Bytes(messages, ids)
    {
      var rows := world.order(ids);
      assert Lists(rows, ids);
      bytes := 0;
      for i := 0 to |rows|
        invariant bytes == Total(BodySize(messages), Elements(rows[..i]))
      {
        assert rows[..i + 1] == rows[..i] + [rows[i]];
        assert Elements(rows[..i + 1]) - {rows[i]} == Elements(rows[..i]);
        TotalWithout(BodySize(messages), Elements(rows[..i + 1]), rows[i]);
        bytes := bytes + if rows[i] in messages then |messages[rows[i]].body| else 0;
      }
      assert rows[..|rows|] == rows;
      assert Elements(rows) == ids;
    }

    method CheckBudget(caller: RemoteCaller, limits: Limits, size: nat, world: World) returns (over: bool)
      ensures over == OverBudget(Db(), caller, limits, size)
    {
      hide Bytes, UnfinishedWork, RemoteBacklog;
      var own, all := UnfinishedWork(Db(), caller.principal), RemoteBacklog(Db());
      var ownBytes := SumBodies(own, world);
      var allBytes := SumBodies(all, world);
      over := |own| >= limits.messages || ownBytes + size > limits.bytes || |all| >= REMOTE_BACKLOG || allBytes + size > REMOTE_BYTES;
    }

    method InsertRemoteTask(id: Id, row: RemoteTask, now: Time)
      modifies this
      ensures Db() == Started(old(Db()), id, row, now)
    {
      hide Append;
      remoteTasks, issued := remoteTasks[id := row], issued + {id};
      AppendEvent(RemoteTaskCreated, RemoteSubject(id), RemoteTaskState(row.state), now);
    }

    /** The task a remote message starts or continues. */
    method ChooseTask(caller: RemoteCaller, input: AcceptInput, now: Time, world: World) returns (result: Result<Id>)
      requires caller.publication in Db().publications
      modifies this
      ensures Outcome(Db(), result) == TaskFor(old(Db()), caller, input, now, world)
    {
      hide Db, Append;
      var s := Db();
      var target := s.publications[caller.publication].agent;
      if input.task.None? {
        var context := if input.context.Some? then input.context.value else world.mint(1);
        InsertRemoteTask(world.mint(0), RemoteTask(context, caller.principal, caller.publication, target, Submitted, now, now), now);
        return Ok(world.mint(0));
      }
      var id := input.task.value;
      if id !in s.remoteTasks || s.remoteTasks[id].principal != caller.principal {
        return Refused(NotFound);
      }
      var row := s.remoteTasks[id];
      if row.publication != caller.publication || row.target != target {
        return Refused(NotFound);
      }
      if Terminal(row.state) || row.state != InputRequired {
        return Refused(Conflict);
      }
      if input.context.Some? && input.context.value != row.context {
        return Refused(Conflict);
      }
      ContinueTask(id, now);
      result := Ok(id);
    }

    method ContinueTask(id: Id, now: Time)
      requires id in Db().remoteTasks
      modifies this
      ensures Db() == SetRemote(old(Db()), id, InProgress, now)
    {
      SetRemoteState(id, InProgress, now);
    }

    method InsertCorrelation(request: Id, row: Correlation, now: Time)
      modifies this
      ensures Db() == Correlate(old(Db()), request, row, now)
    {
      hide Append;
      correlations := correlations[request := row];
      if row.task in remoteTasks {
        remoteTasks := remoteTasks[row.task := remoteTasks[row.task].(updatedAt := now)];
      }
      AppendEvent(RemoteMessageAccepted, RemoteSubject(row.task), Unstated, now);
    }

    /** bus/a2a_tasks.go AcceptA2AMessage. */
    method AcceptMessage(caller: RemoteCaller, limits: Limits, input: AcceptInput, world: World) returns (result: Result<Id>)
      modifies this
      ensures Outcome(Db(), result) == RemoteWork.AcceptMessage(old(Db()), caller, limits, input, world)
    {
      hide Db, Expire, TaskFor, SendIn, Correlate, OverBudget;
      var saved := Db();
      if !CurrentRemote(saved, caller) {
        return Refused(Unauthenticated);
      }
      ExpireMessages(world.tick(0), world);
      ExpireFrame(saved, world.tick(0), world);
      var s := Db();
      var known := world.order(Correlated(s, caller.principal, input.client));
      if |known| > 0 && known[0] in s.correlations {
        if s.correlations[known[0]].hash != AcceptHash(input) {
          Undo(saved);
          return Refused(Conflict);
        }
        return Ok(s.correlations[known[0]].task);
      }
      if caller.publication !in s.publications || !s.publications[caller.publication].enabled {
        Undo(saved);
        return Refused(Unauthenticated);
      }
      var over := CheckBudget(caller, limits, |input.body|, world);
      if over {
        Undo(saved);
        return Refused(Backpressure);
      }
      result := AcceptWork(caller, input, saved, world);
    }

    /** The writes of an accepted message. A refusal restores `saved`. */
    method AcceptWork(caller: RemoteCaller, input: AcceptInput, saved: Scope, world: World) returns (result: Result<Id>)
      requires caller.publication in Db().publications && saved.log.hosted == Db().log.hosted
      modifies this
      ensures var s, now := old(Db()), world.tick(1);
              var chosen := TaskFor(s, caller, input, now, world);
              var send := SendInput(s.publications[caller.publication].agent, input.body, Some(Request), None, 0, "[]", Some(input.client));
              var sent := SendIn(chosen.scope, Participant(RemoteKind, caller.principal), send, false, 2, 2, world);
              Outcome(Db(), result) ==
                if chosen.result.Refused? then Outcome(saved, Refused(chosen.result.error))
                else if sent.result.Refused? then Outcome(saved, Refused(sent.result.error))
                else Outcome(Correlate(sent.scope, sent.result.value, Correlation(caller.principal, input.client, chosen.result.value, AcceptHash(input), None, now, now), now),
                             Ok(chosen.result.value))
    {
      hide Db, TaskFor, SendIn, Correlate;
      var s, now := Db(), world.tick(1);
      var chosen := ChooseTask(caller, input, now, world);
      TaskForHosted(s, caller, input, now, world);
      if chosen.Refused? {
        Undo(saved);
        return Refused(chosen.error);
      }
      var send := SendInput(s.publications[caller.publication].agent, input.body, Some(Request), None, 0, "[]", Some(input.client));
      var s2 := Db();
      var sent := Send(Participant(RemoteKind, caller.principal), send, false, 2, 2, world);
      SendHosted(s2, Participant(RemoteKind, caller.principal), send, false, 2, 2, world);
      if sent.Refused? {
        Undo(saved);
        return Refused(sent.error);
      }
      InsertCorrelation(sent.value, Correlation(caller.principal, input.client, chosen.value, AcceptHash(input), None, now, now), now);
      result := Ok(chosen.value);
    }

    // ---- retention ---------------------------------------------------------------------------

    method DeleteRows(table: Table, ids: set<Id>)
      modifies this`remoteTasks, this`correlations, this`messages, this`tasks, this`progress
      ensures Db() == Without(old(Db()), table, ids)
    {
      match table
      case RemoteTaskTable => remoteTasks, correlations := remoteTasks - ids, KeptWork(correlations, ids);
      case MessageTable => messages := messages - ids;
      case TaskTable => tasks, progress := tasks - ids, progress - ids;
    }

    /** bus/storage.go deleteRetentionRows: batches of at most five hundred. */
    method DeleteRetentionRows(table: Table, ids: seq<Id>)
      requires StaysClosed(Db(), table, ids)
      modifies this
      ensures Db() == Without(old(Db()), table, Elements(ids)) && ForeignKeys(Db())
    {
      hide Db, Without, Elements, ForeignKeys;
      ghost var s := Db();
      WithoutNothing(s, table);
      assert ids[..0] == [];
      var first := 0;
      while first < |ids|
        invariant first <= |ids| && Db() == Without(s, table, Elements(ids[..first])) && ForeignKeys(Db())
      {
        var next := if first + BATCH < |ids| then first + BATCH else |ids|;
        WithoutTwice(s, table, ids[..first], ids[first..next]);
        assert ids[..first] + ids[first..next] == ids[..next];
        DeleteRows(table, Elements(ids[first..next]));
        first := next;
      }
      assert ids[..|ids|] == ids;
    }

    /** The messages to delete, responses apart from the rest. */
    method SplitReplies(rows: seq<Id>) returns (replies: seq<Id>, requests: seq<Id>)
      requires forall id :: id in rows ==> id in Db().messages
      ensures Elements(replies) == Replies(Db(), Elements(rows)) && Elements(requests) == Elements(rows) - Replies(Db(), Elements(rows))
    {
      replies, requests := [], [];
      for i := 0 to |rows|
        invariant forall id :: id in replies <==> id in rows[..i] && id in messages && messages[id].mode == Response
        invariant forall id :: id in requests <==> id in rows[..i] && !(id in messages && messages[id].mode == Response)
      {
        assert rows[..i + 1] == rows[..i] + [rows[i]];
        assert rows[i] in rows;
        if messages[rows[i]].mode == Response {
          replies := replies + [rows[i]];
        } else {
          requests := requests + [rows[i]];
        }
      }
      assert rows[..|rows|] == rows;
    }

    /** SELECT COUNT(*) FROM task_progress, five hundred tasks at a time. */
    method CountProgress(ids: seq<Id>) returns (count: nat)
      requires Distinct(ids)
      ensures count == Total(ProgressCount(progress), Elements(ids))
    {
      hide Total;
      count := 0;
      assert ids[..0] == [];
      TotalOfNothing(progress);
      for i := 0 to |ids|
        invariant count == Total(ProgressCount(progress), Elements(ids[..i]))
      {
        assert ids[..i + 1] == ids[..i] + [ids[i]];
        assert Elements(ids[..i + 1]) - {ids[i]} == Elements(ids[..i]);
        TotalWithout(ProgressCount(progress), Elements(ids[..i + 1]), ids[i]);
        count := count + if ids[i] in progress then |progress[ids[i]]| else 0;
      }
      assert ids[..|ids|] == ids;
    }

    /** The delete statements of a prune, in the order that keeps every reference closed after each batch. */
    method DeletePlanned(units: seq<Id>, messageIds: seq<Id>, taskIds: seq<Id>, ghost plan: Plan)
      requires Inv(Db()) && ClosedPlan(Db(), plan)
      requires Elements(units) == plan.remoteTasks && Elements(messageIds) == plan.messages && Elements(taskIds) == plan.tasks
      modifies this
      ensures Db() == Remove(old(Db()), plan)
    {
      hide Db, Inv, WholeThreads, WholeUnits, WholeBoards, Remove, StaysClosed, Without, Elements, Replies, ForeignKeys, At;
      ghost var s := Db();
      ListsMessages(s, messageIds, plan);
      var replies, requests := SplitReplies(messageIds);
      RemoteStaysClosed(s, plan, units);
      DeleteRetentionRows(RemoteTaskTable, units);
      RepliesStayClosed(s, plan, replies);
      DeleteRetentionRows(MessageTable, replies);
      RequestsStayClosed(s, plan, requests);
      DeleteRetentionRows(MessageTable, requests);
      TasksStayClosed(s, plan, taskIds);
      DeleteRetentionRows(TaskTable, taskIds);
    }

    /** The delete of old events, and the floor that records it. */
    method DeleteEvents(before: Time)
      requires Covers(Db().log)
      modifies this`events, this`floor
      ensures Db() == old(Db()).(log := PruneLog(old(Db()).log, before))
    {
      PruneFloorInRange(Db().log, before);
      var point := PruneFloor(Db().log, before);
      if CountPruned(events, point) > 0 {
        events := Kept(events, point);
        floor := Max(floor, point);
      }
    }

    /** What a prune at this cutoff would remove. */
    method FindPlan(before: Time, world: World) returns (units: seq<Id>, work: nat, messageIds: set<Id>, taskIds: seq<Id>)
      requires Inv(Db())
      ensures var plan := PlanFor(Db(), before);
              && Lists(units, plan.remoteTasks) && messageIds == plan.messages && Lists(taskIds, plan.tasks)
              && work == |GoneWork(Db().correlations, plan.remoteTasks)|
    {
      hide Db, Inv, Joins, JoinOf, RemovableUnits, Unclaimed, TaskCandidates, MessageCandidates, GoneWork;
      var s := Db();
      assert Lists(world.order(s.messages.Keys), s.messages.Keys);
      var candidates := FindMessages(s.messages, before, world.order(s.messages.Keys));
      assert Lists(world.order(s.remoteTasks.Keys), s.remoteTasks.Keys);
      WorkHasTasks(s);
      QueryJoins(s, world.order(s.remoteTasks.Keys), world);
      units, work, messageIds := FindUnits(s, before, candidates, JoinOf(s, world.order(s.remoteTasks.Keys), world));
      assert Lists(world.order(s.tasks.Keys), s.tasks.Keys);
      taskIds := FindTasks(s.tasks, before, world.order(s.tasks.Keys));
    }

    /** bus/storage.go PruneScope. */
    method PruneScope(before: Time, execute: bool, world: World) returns (counts: Counts)
      requires Inv(Db())
      modifies this
      ensures (Db(), counts) == Prune(old(Db()), before, execute, world)
    {
      hide Db, Inv, Expire, ReleaseStale, PlanFor, Remove, PruneLog, ClosedPlan, GoneWork, Total, Elements, Keeps, Covers;
      ghost var saved := Db();
      RefreshedKeeps(saved, world);
      ExpireMessages(world.tick(0), world);
      ReleaseStaleClaims(world.tick(1), world);
      var s := Db();
      KeptInvariant(saved, s);
      ghost var plan := PlanFor(s, before);
      PlanIsClosed(s, before);
      var units, work, messageIds, taskIds := FindPlan(before, world);
      var progressCount := CountProgress(taskIds);
      ListedSize(units, plan.remoteTasks);
      ListedSize(taskIds, plan.tasks);
      ListedElements(units, plan.remoteTasks);
      ListedElements(taskIds, plan.tasks);
      ProgressOfDb(s);
      counts := Counts(|units|, work, |messageIds|, |taskIds|, progressCount, CountPruned(s.log.events, PruneFloor(s.log, before)));
      if execute {
        assert Lists(world.order(messageIds), messageIds);
        ListedElements(world.order(messageIds), messageIds);
        DeletePlanned(units, world.order(messageIds), taskIds, plan);
        LogAndProgress(s);
        RemoveKeepsLog(s, plan);
        DeleteEvents(before);
      }
    }

    lemma ProgressOfDb(s: Scope)
      requires Db() == s
      ensures progress == s.progress
    {
    }
  }

  lemma AppendChunk(log: Log, done: seq<Pending>, chunk: seq<Pending>, now: Time)
    requires LogOk(log) && Plain(done + chunk)
    ensures AppendBatch(AppendAll(log, done, now), chunk, now) == AppendAll(log, done + chunk, now)
  {
    assert Plain(done) && Plain(chunk) by {
      assert forall p :: p in done || p in chunk ==> p in done + chunk;
    }
    AppendAllCovers(log, done, now);
    AppendBatchIsAppendAll(AppendAll(log, done, now), chunk, now);
    AppendAllConcat(log, done, chunk, now);
  }

  lemma HeldRows(s: Scope, agent: Id, reservation: Id, world: World)
    ensures var rows := world.order(Held(s, agent, reservation)); Distinct(rows) && forall id :: id in rows ==> id in s.messages
  {
    assert Lists(world.order(Held(s, agent, reservation)), Held(s, agent, reservation));
  }

  // ---- what stays through a sweep ------------------------------------------------------------

  lemma AdvanceHosted(s: Scope, id: Id, cause: Cause, now: Time)
    ensures AdvanceRemote(s, id, cause, now).log.hosted == s.log.hosted
  {
  }

  lemma ExpireRowHosted(s: Scope, id: Id, now: Time)
    requires id in s.messages
    ensures ExpireRow(s, id, now).log.hosted == s.log.hosted
  {
    hide AdvanceRemote;
    AdvanceHosted(s, id, Expiry, now);
  }

  /** A sweep does not turn a hosted scope into another kind. */
  lemma {:induction false} ExpireRowsFrame(s: Scope, ids: seq<Id>, now: Time)
    requires forall id :: id in ids ==> id in s.messages
    ensures ExpireRows(s, ids, now).log.hosted == s.log.hosted
    decreases |ids|
  {
    hide ExpireRow;
    if ids != [] {
      var t := ExpireRows(s, ids[..|ids| - 1], now);
      ExpireRowsFrame(s, ids[..|ids| - 1], now);
      if ids[|ids| - 1] in t.messages {
        ExpireRowHosted(t, ids[|ids| - 1], now);
      }
    }
  }

  lemma ExpireFrame(s: Scope, now: Time, world: World)
    ensures Expire(s, now, world).log.hosted == s.log.hosted
  {
    assert Lists(world.order(Due(s, now)), Due(s, now));
    ExpireRowsFrame(s, world.order(Due(s, now)), now);
  }

  lemma {:induction false} ReopenRowsFrame(s: Scope, ids: seq<Id>, now: Time)
    ensures ReopenRows(s, ids, now).log.hosted == s.log.hosted
    decreases |ids|
  {
    if ids != [] {
      ReopenRowsFrame(s, ids[..|ids| - 1], now);
    }
  }

  lemma ReleaseStaleFrame(s: Scope, now: Time, world: World)
    ensures ReleaseStale(s, now, world).log.hosted == s.log.hosted
  {
    ReopenRowsFrame(s, StaleRows(s, now, world), now);
  }

  /** A response that passed the checks answers a request that is there. */
  lemma RequestExists(s: Scope, sender: Participant, input: SendInput, notification: bool, kind: Kind, id: Id, now: Time)
    requires Addressee(s, sender, input, notification) == Ok(kind)
    ensures ModeOf(input) == Response ==> input.responseTo.Some? && input.responseTo.value in Inserted(s, id, NewMessage(sender, kind, input, now), now).messages
  {
    hide Append;
  }

  /** The log stays sound up to the point where a registration links its peers. */
  lemma RegisteredLog(s: Scope, agent: Id, row: AgentRow, now: Time, world: World)
    requires Inv(s) && Fair(world, s.clock, s.issued) && row.execution == world.mint(0) && row.token == world.mint(1) && row.leaseExpiresAt >= now
    requires now == world.tick(0)
    ensures var t := Emit(TakeOver(s, agent, row, world), AgentRegistered, AgentSubject(agent), Unstated, now);
            LogOk(t.log) && t.log.hosted == s.log.hosted
  {
    hide Inv, TakeOver, Keeps, Covers, Bounded, Dispossessed, AppendBatch;
    ClockIsPositive(s);
    TakeOverKeeps(s, agent, row, world);
    var t := TakeOver(s, agent, row, world);
    KeptLog(s, t);
    LogGrows(t.log, Pending(AgentRegistered, AgentSubject(agent), Unstated), now);
    TakeOverHosted(s, agent, row, world);
    AppendHosted(t.log, Pending(AgentRegistered, AgentSubject(agent), Unstated), now);
  }

  lemma AppendHosted(log: Log, what: Pending, now: Time)
    ensures Append(log, what, now).hosted == log.hosted
  {
  }

  lemma KeptLog(s: Scope, t: Scope)
    requires Keeps(s, t)
    ensures LogOk(t.log)
  {
  }

  lemma {:induction false} FreeRowsHosted(s: Scope, ids: seq<Id>, now: Time)
    ensures FreeRows(s, ids, now).log.hosted == s.log.hosted
    decreases |ids|
  {
    if ids != [] {
      FreeRowsHosted(s, ids[..|ids| - 1], now);
    }
  }

  lemma {:induction false} ReleaseEachHosted(s: Scope, ids: seq<Id>, tick: nat, world: World)
    ensures ReleaseEach(s, ids, tick, world).log.hosted == s.log.hosted
    decreases |ids|
  {
    if ids != [] {
      var t, last := ReleaseEach(s, ids[..|ids| - 1], tick, world), ids[|ids| - 1];
      ReleaseEachHosted(s, ids[..|ids| - 1], tick, world);
      if last in t.reservations {
        FreeRowsHosted(t, world.order(Held(t, t.reservations[last].agent, last)), world.tick(tick + |ids| - 1));
      }
    }
  }

  lemma TakeOverHosted(s: Scope, agent: Id, row: AgentRow, world: World)
    ensures TakeOver(s, agent, row, world).log.hosted == s.log.hosted
  {
    hide ReleaseEach, ReleaseStale;
    var s1 := s.(agents := s.agents[agent := row], issued := s.issued + {row.execution, row.token});
    var rows := world.order(ReservationsOf(s1, agent));
    ReleaseEachHosted(s1, rows, 1, world);
    ReleaseStaleFrame(ReleaseEach(s1, rows, 1, world), world.tick(1 + |rows|), world);
  }

  lemma LinkFrame(s: Scope, agent: Id, peers: seq<Id>, now: Time)
    ensures LinkPeers(s, agent, peers, now).result.Refused? ==> LinkPeers(s, agent, peers, now).scope == s
  {
    hide AppendAll;
  }

  lemma EmitHosted(s: Scope, kind: EventKind, subject: Subject, attribute: Attribute, now: Time)
    ensures Emit(s, kind, subject, attribute, now).log.hosted == s.log.hosted
  {
  }

  lemma TaskForHosted(s: Scope, caller: RemoteCaller, input: AcceptInput, now: Time, world: World)
    requires caller.publication in s.publications
    ensures TaskFor(s, caller, input, now, world).scope.log.hosted == s.log.hosted
  {
    hide Emit;
    if input.task.None? {
      var context := if input.context.Some? then input.context.value else world.mint(1);
      var row := RemoteTask(context, caller.principal, caller.publication, s.publications[caller.publication].agent, Submitted, now, now);
      EmitHosted(s.(remoteTasks := s.remoteTasks[world.mint(0) := row], issued := s.issued + {world.mint(0)}),
                 RemoteTaskCreated, RemoteSubject(world.mint(0)), RemoteTaskState(Submitted), now);
    } else if input.task.value in s.remoteTasks {
      SetRemoteHosted(s, input.task.value, InProgress, now);
    }
  }

  lemma SetRemoteHosted(s: Scope, task: Id, state: RemoteState, now: Time)
    requires task in s.remoteTasks
    ensures SetRemote(s, task, state, now).log.hosted == s.log.hosted
  {
  }

  lemma AnswerHosted(s: Scope, request: Id, response: Id, kind: Kind, now: Time)
    requires request in s.messages
    ensures Answer(s, request, response, kind, now).log.hosted == s.log.hosted
  {
    hide AdvanceRemote;
    var s1 := s.(messages := s.messages[request := s.messages[request].(repliedAt := Some(now), response := Some(response))]);
    var s2 := Emit(s1, MessageReplied, MessageSubject(request), Unstated, now);
    var s3 := if request !in s2.correlations then s2
              else s2.(correlations := s2.correlations[request := s2.correlations[request].(response := Some(response), updatedAt := now)]);
    AdvanceHosted(s3, request, Reply, now);
  }

  lemma SendHosted(s: Scope, sender: Participant, input: SendInput, notification: bool, tick: nat, mint: nat, world: World)
    ensures SendIn(s, sender, input, notification, tick, mint, world).scope.log.hosted == s.log.hosted
  {
    hide Expire, Addressee, Existing, Answer, NewMessage, Backlog, HashOf, Inserted;
    var now := world.tick(tick);
    ExpireFrame(s, now, world);
    var s1 := Expire(s, now, world);
    if Existing(s1, sender, input, world).None? && Addressee(s1, sender, input, notification).Ok? {
      var kind := Addressee(s1, sender, input, notification).value;
      var s2 := Inserted(s1, world.mint(mint), NewMessage(sender, kind, input, now), now);
      InsertedHosted(s1, world.mint(mint), NewMessage(sender, kind, input, now), now);
      RequestExists(s1, sender, input, notification, kind, world.mint(mint), now);
      if ModeOf(input) == Response {
        AnswerHosted(s2, input.responseTo.value, world.mint(mint), kind, now);
      }
    }
  }

  lemma InsertedHosted(s: Scope, id: Id, row: Message, now: Time)
    ensures Inserted(s, id, row, now).log.hosted == s.log.hosted
  {
  }

  lemma WithoutNothing(s: Scope, table: Table)
    ensures Without(s, table, Elements([])) == s
  {
    assert Elements([]) == {};
    assert KeptWork(s.correlations, {}) == s.correlations;
  }

  lemma WithoutTwice(s: Scope, table: Table, first: seq<Id>, more: seq<Id>)
    ensures Without(Without(s, table, Elements(first)), table, Elements(more)) == Without(s, table, Elements(first + more))
  {
    var a, b := Elements(first), Elements(more);
    assert Elements(first + more) == a + b;
    match table
    case RemoteTaskTable =>
      assert KeptWork(KeptWork(s.correlations, a), b) == KeptWork(s.correlations, a + b);
    case MessageTable =>
      assert s.messages - a - b == s.messages - (a + b);
    case TaskTable =>
      assert s.tasks - a - b == s.tasks - (a + b) && s.progress - a - b == s.progress - (a + b);
  }

  lemma TotalOfNothing(progress: map<Id, seq<Progress>>)
    ensures Total(ProgressCount(progress), Elements([])) == 0
  {
    assert Elements([]) == {};
  }

  lemma ListsMessages(s: Scope, ids: seq<Id>, plan: Plan)
    requires ClosedPlan(s, plan) && Elements(ids) == plan.messages
    ensures forall id :: id in ids ==> id in s.messages
  {
    forall id | id in ids ensures id in s.messages {
      assert id in Elements(ids);
    }
  }

  lemma ListedElements(rows: seq<Id>, ids: set<Id>)
    requires Lists(rows, ids)
    ensures Elements(rows) == ids
  {
  }

  lemma WorkHasTasks(s: Scope)
    requires Inv(s)
    ensures forall c :: c in s.correlations ==> s.correlations[c].task in s.remoteTasks
  {
    forall c | c in s.correlations ensures s.correlations[c].task in s.remoteTasks {
      assert CorrelationRow(s, c);
    }
  }
}
