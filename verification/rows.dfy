/** Each single-row write keeps the invariant and evolves the scope. */
module Rows {
  import opened Model
  import opened Logs
  import opened Scopes
  import opened RemoteWork
  import opened Invariants

  // ---- emitting events -----------------------------------------------------------------------

  ghost predicate Unmarked(kind: EventKind) {
    !kind.ScopeImported?
  }

  lemma LogGrows(log: Log, what: Pending, now: Time)
    requires LogOk(log) && Unmarked(what.kind)
    ensures LogOk(Append(log, what, now))
    ensures Append(log, what, now).revision == log.revision + 1 && Append(log, what, now).floor >= log.floor
    ensures LogEvolved(log, Append(log, what, now))
  {
    hide Covers, Bounded, LogEvolved;
    AppendBatchCovers(log, [what], now);
    AppendBatchBounded(log, [what], now);
    ActEvolves(log, Writes([what], now));
  }

  /** An event keeps agreement about everything but what it states. */
  lemma AgreementKept(s: Scope, what: Pending, now: Time)
    requires LogOk(s.log) && Unmarked(what.kind)
    requires forall id :: id in s.messages && what.subject != MessageSubject(id) ==> Agrees(s.log, MessageSubject(id), MessageState(s.messages[id].state))
    requires forall id :: id in s.tasks && what.subject != TaskSubject(id) ==> Agrees(s.log, TaskSubject(id), TaskStatus(s.tasks[id].status))
    requires forall id :: id in s.remoteTasks && what.subject != RemoteSubject(id) ==> Agrees(s.log, RemoteSubject(id), RemoteTaskState(s.remoteTasks[id].state))
    requires match what.subject
             case MessageSubject(id) => id in s.messages ==> Says(s.log, what, MessageState(s.messages[id].state))
             case TaskSubject(id) => id in s.tasks ==> Says(s.log, what, TaskStatus(s.tasks[id].status))
             case RemoteSubject(id) => id in s.remoteTasks ==> Says(s.log, what, RemoteTaskState(s.remoteTasks[id].state))
             case _ => true
    ensures Agreement(s.(log := Append(s.log, what, now)))
  {
    forall id | id in s.messages ensures Agrees(Append(s.log, what, now), MessageSubject(id), MessageState(s.messages[id].state)) {
      AppendAgrees(s.log, what, now, MessageSubject(id), MessageState(s.messages[id].state));
    }
    forall id | id in s.tasks ensures Agrees(Append(s.log, what, now), TaskSubject(id), TaskStatus(s.tasks[id].status)) {
      AppendAgrees(s.log, what, now, TaskSubject(id), TaskStatus(s.tasks[id].status));
    }
    forall id | id in s.remoteTasks ensures Agrees(Append(s.log, what, now), RemoteSubject(id), RemoteTaskState(s.remoteTasks[id].state)) {
      AppendAgrees(s.log, what, now, RemoteSubject(id), RemoteTaskState(s.remoteTasks[id].state));
    }
  }

  /** The event states the attribute, or states nothing about a row the log already agrees with. */
  ghost predicate Says(log: Log, what: Pending, attribute: Attribute) {
    if what.attribute.Unstated? then Agrees(log, what.subject, attribute) else what.attribute == attribute
  }

  /** An event that states nothing keeps everything. */
  lemma EmitKeeps(s: Scope, kind: EventKind, subject: Subject, now: Time, out: set<Id>)
    requires Core(s, out) && Unmarked(kind)
    ensures Core(Emit(s, kind, subject, Unstated, now), out)
    ensures RemoteRows(s) ==> RemoteRows(Emit(s, kind, subject, Unstated, now))
    ensures Evolves(s, Emit(s, kind, subject, Unstated, now))
  {
    hide Core, Evolves, RemoteRows, Append;
    EmitCore(s, kind, subject, now, out);
    LogOf(s, out);
    LogGrows(s.log, Pending(kind, subject, Unstated), now);
    EvolvesLog(s, Emit(s, kind, subject, Unstated, now));
    KeepRemote(s, Emit(s, kind, subject, Unstated, now));
  }

  lemma EmitCore(s: Scope, kind: EventKind, subject: Subject, now: Time, out: set<Id>)
    requires Core(s, out) && Unmarked(kind)
    ensures Core(Emit(s, kind, subject, Unstated, now), out)
  {
    hide LogOk, LogEvolved, Agreement, Append, MessageRows, KeysUnique, ReservationRows, AgentRows, TaskRows, Board, ProgressRows, LinkRows;
    LogGrows(s.log, Pending(kind, subject, Unstated), now);
    UnstatedAgrees(s, kind, subject, now);
  }

  lemma UnstatedAgrees(s: Scope, kind: EventKind, subject: Subject, now: Time)
    requires LogOk(s.log) && Unmarked(kind) && Agreement(s)
    ensures Agreement(s.(log := Append(s.log, Pending(kind, subject, Unstated), now)))
  {
    hide LogOk, Agrees, Append;
    AgreementKept(s, Pending(kind, subject, Unstated), now);
  }

  lemma EvolvesLog(s: Scope, t: Scope)
    requires t == s.(log := t.log) && LogEvolved(s.log, t.log)
    ensures Evolves(s, t)
  {
    hide LogEvolved;
  }

  /** Remote rows do not depend on the log or on tables outside remote work. */
  lemma KeepRemote(s: Scope, t: Scope)
    requires t.correlations == s.correlations && t.remoteTasks == s.remoteTasks && t.publications == s.publications
    requires t.messages == s.messages && s.agents.Keys <= t.agents.Keys
    ensures RemoteRows(s) ==> RemoteRows(t)
  {
    if RemoteRows(s) {
      forall id | id in t.correlations ensures CorrelationRow(t, id) {
        assert CorrelationRow(s, id);
      }
    }
  }

  lemma HandedOf(s: Scope, out: set<Id>)
    requires Core(s, out)
    ensures Handed(s)
  {
  }

  // ---- message rows --------------------------------------------------------------------------

  /** A change of delivery state: the reply columns stay, and the stamps fit the new state. */
  ghost predicate Redelivers(m: Message, n: Message) {
    MessageEvolved(m, n) && n.repliedAt == m.repliedAt && n.response == m.response && Stamped(n)
  }

  lemma ThreadsKept(messages: map<Id, Message>, id: Id, row: Message)
    requires Threads(messages) && id in messages && Redelivers(messages[id], row)
    ensures Threads(messages[id := row])
  {
    var after := messages[id := row];
    forall x | x in after ensures RepliesWell(after, x) && RepliedWell(after, x) {
      assert RepliesWell(messages, x) && RepliedWell(messages, x);
    }
  }

  lemma RemoteRowsKept(s: Scope, id: Id, row: Message)
    requires RemoteRows(s) && id in s.messages && Redelivers(s.messages[id], row)
    ensures RemoteRows(s.(messages := s.messages[id := row]))
  {
    var t := s.(messages := s.messages[id := row]);
    forall x | x in t.correlations ensures CorrelationRow(t, x) {
      assert CorrelationRow(s, x);
    }
  }

  /** What the invariant says of one message row. */
  lemma RowFacts(s: Scope, out: set<Id>, id: Id)
    requires Core(s, out) && id in s.messages
    ensures Stamped(s.messages[id]) && HeldBy(s.messages[id], s.reservations) && Ends(s.messages[id], s.agents) && id in s.issued
    ensures LogOk(s.log)
  {
  }

  lemma MoveKeepsCore(s: Scope, id: Id, row: Message, kind: EventKind, now: Time, out: set<Id>)
    requires Core(s, out) && id in s.messages && Unmarked(kind)
    requires Redelivers(s.messages[id], row) && HeldBy(row, s.reservations)
    ensures Core(MoveMessage(s, id, row, kind, now), out)
  {
    hide Covers, Bounded, Agrees, MessageRows, KeysUnique, Redelivers, HeldBy, ReservationRows, AgentRows, TaskRows, Board, ProgressRows, LinkRows, Append;
    var s1 := s.(messages := s.messages[id := row]);
    var what := Pending(kind, MessageSubject(id), MessageState(row.state));
    LogGrows(s.log, what, now);
    AgreementKept(s1, what, now);
    MovedRows(s.messages, s.reservations, s.agents, id, row);
  }

  lemma MovedRows(messages: map<Id, Message>, reservations: map<Id, Reservation>, agents: map<Id, AgentRow>, id: Id, row: Message)
    requires MessageRows(messages, reservations, agents) && KeysUnique(messages) && id in messages
    requires Redelivers(messages[id], row) && HeldBy(row, reservations)
    ensures MessageRows(messages[id := row], reservations, agents) && KeysUnique(messages[id := row])
  {
  }

  lemma MoveKeeps(s: Scope, id: Id, row: Message, kind: EventKind, now: Time, out: set<Id>)
    requires Between(s, out) && id in s.messages && Unmarked(kind)
    requires Redelivers(s.messages[id], row) && HeldBy(row, s.reservations)
    ensures Between(MoveMessage(s, id, row, kind, now), out)
    ensures Evolves(s, MoveMessage(s, id, row, kind, now))
  {
    hide Core, Threads, RemoteRows, LogOk, Append;
    RowFacts(s, out, id);
    MoveKeepsCore(s, id, row, kind, now, out);
    ThreadsKept(s.messages, id, row);
    RemoteRowsKept(s, id, row);
    KeepRemote(s.(messages := s.messages[id := row]), MoveMessage(s, id, row, kind, now));
    LogGrows(s.log, Pending(kind, MessageSubject(id), MessageState(row.state)), now);
  }

  // ---- remote task rows ----------------------------------------------------------------------

  lemma SetRemoteRows(s: Scope, task: Id, row: RemoteTask)
    requires RemoteRows(s) && task in s.remoteTasks
    requires row.principal == s.remoteTasks[task].principal && row.target == s.remoteTasks[task].target && row.publication == s.remoteTasks[task].publication
    ensures RemoteRows(s.(remoteTasks := s.remoteTasks[task := row]))
  {
    var s1 := s.(remoteTasks := s.remoteTasks[task := row]);
    forall id | id in s1.correlations ensures CorrelationRow(s1, id) {
      assert CorrelationRow(s, id);
    }
  }

  lemma SetRemoteCore(s: Scope, task: Id, state: RemoteState, now: Time, out: set<Id>)
    requires Core(s, out) && task in s.remoteTasks
    ensures Core(SetRemote(s, task, state, now), out)
  {
    hide Covers, Bounded, Agrees, Append, MessageRows, KeysUnique, ReservationRows, AgentRows, TaskRows, Board, ProgressRows, LinkRows;
    var s1 := s.(remoteTasks := s.remoteTasks[task := s.remoteTasks[task].(state := state, updatedAt := now)]);
    var what := Pending(RemoteTaskStateChanged, RemoteSubject(task), RemoteTaskState(state));
    LogGrows(s.log, what, now);
    AgreementKept(s1, what, now);
  }

  lemma SetRemoteKeeps(s: Scope, task: Id, state: RemoteState, now: Time, out: set<Id>)
    requires Core(s, out) && task in s.remoteTasks && ValidTransition(s.remoteTasks[task].state, state)
    ensures Core(SetRemote(s, task, state, now), out)
    ensures RemoteRows(s) ==> RemoteRows(SetRemote(s, task, state, now))
    ensures Evolves(s, SetRemote(s, task, state, now))
  {
    hide Core, Covers, Bounded, RemoteRows, Append;
    LogOf(s, out);
    LogGrows(s.log, Pending(RemoteTaskStateChanged, RemoteSubject(task), RemoteTaskState(state)), now);
    SetRemoteCore(s, task, state, now, out);
    if RemoteRows(s) {
      var row := s.remoteTasks[task].(state := state, updatedAt := now);
      SetRemoteRows(s, task, row);
      KeepRemote(s.(remoteTasks := s.remoteTasks[task := row]), SetRemote(s, task, state, now));
    }
  }

  lemma LogOf(s: Scope, out: set<Id>)
    requires Core(s, out)
    ensures LogOk(s.log)
  {
  }

  lemma AdvanceFrame(s: Scope, message: Id, cause: Cause, now: Time)
    ensures var t := AdvanceRemote(s, message, cause, now);
            t == s.(remoteTasks := t.remoteTasks, log := t.log)
  {
  }

  /** Every automatic move of a remote task is a valid transition. */
  lemma NextRemoteIsValid(cause: Cause, state: RemoteState)
    ensures NextRemote(cause, state).Some? ==> ValidTransition(state, NextRemote(cause, state).value)
  {
  }

  lemma AdvanceKeeps(s: Scope, message: Id, cause: Cause, now: Time, out: set<Id>)
    requires Core(s, out)
    ensures Core(AdvanceRemote(s, message, cause, now), out)
    ensures RemoteRows(s) ==> RemoteRows(AdvanceRemote(s, message, cause, now))
    ensures Evolves(s, AdvanceRemote(s, message, cause, now))
    ensures var t := AdvanceRemote(s, message, cause, now); t == s.(remoteTasks := t.remoteTasks, log := t.log)
  {
    hide Core, RemoteRows, Evolves, SetRemote, NextRemote, ValidTransition;
    AdvanceFrame(s, message, cause, now);
    EvolvesReflexive(s);
    if message in s.correlations && s.correlations[message].task in s.remoteTasks {
      var task := s.correlations[message].task;
      var next := NextRemote(cause, s.remoteTasks[task].state);
      if next.Some? && next.value != s.remoteTasks[task].state {
        NextRemoteIsValid(cause, s.remoteTasks[task].state);
        SetRemoteKeeps(s, task, next.value, now, out);
      }
    }
  }

  // ---- the rows of the message operations ----------------------------------------------------

  lemma ExpireRowKeeps(s: Scope, id: Id, now: Time, out: set<Id>)
    requires Between(s, out) && id in s.messages && s.messages[id].expiresAt.Some?
    ensures Between(ExpireRow(s, id, now), out) && Evolves(s, ExpireRow(s, id, now))
  {
    hide Core, Threads, RemoteRows, Evolves, Append, AdvanceRemote;
    EvolvesReflexive(s);
    RowFacts(s, out, id);
    HandedOf(s, out);
    var row := s.messages[id];
    if Live(row.state) {
      AdvanceKeeps(s, id, Expiry, now, out);
      var s1 := if row.deliveredAt.None? then AdvanceRemote(s, id, Expiry, now) else s;
      MoveKeeps(s1, id, AsExpired(row), MessageExpired, now, out);
      EvolvesTransitive(s, s1, ExpireRow(s, id, now));
    }
  }

  lemma FreeRowKeeps(s: Scope, id: Id, now: Time, out: set<Id>)
    requires Between(s, out) && id in s.messages && s.messages[id].state == Reserved
    ensures Between(FreeRow(s, id, now), out) && Evolves(s, FreeRow(s, id, now))
  {
    hide Core, Threads, RemoteRows, Evolves, Append;
    RowFacts(s, out, id);
    var row := s.messages[id];
    MoveKeeps(s, id, AsFreed(row), MessageReleased, now, out);
  }

  lemma ReserveRowKeeps(s: Scope, id: Id, reservation: Id, now: Time, out: set<Id>)
    requires Between(s, out) && id in s.messages && s.messages[id].state in {Queued, Delivered}
    requires reservation in s.reservations && s.messages[id].to == Address(s.reservations[reservation].agent)
    ensures Between(ReserveRow(s, id, reservation, now), out) && Evolves(s, ReserveRow(s, id, reservation, now))
  {
    hide Core, Threads, RemoteRows, Evolves, Append;
    RowFacts(s, out, id);
    MoveKeeps(s, id, AsReserved(s.messages[id], reservation), MessageReserved, now, out);
  }

  lemma DeliverRowKeeps(s: Scope, id: Id, now: Time, out: set<Id>)
    requires Between(s, out) && id in s.messages && s.messages[id].state == Reserved
    ensures Between(DeliverRow(s, id, now), out) && Evolves(s, DeliverRow(s, id, now))
  {
    hide Core, Threads, RemoteRows, Evolves, Append, AdvanceRemote;
    EvolvesReflexive(s);
    RowFacts(s, out, id);
    HandedOf(s, out);
    var row := s.messages[id];
    AdvanceKeeps(s, id, Delivery, now, out);
    var s1 := if row.from.kind.RemoteKind? then AdvanceRemote(s, id, Delivery, now) else s;
    MoveKeeps(s1, id, AsDelivered(row, now), MessageDelivered, now, out);
    EvolvesTransitive(s, s1, DeliverRow(s, id, now));
  }

  lemma AcknowledgeRowKeeps(s: Scope, id: Id, agent: Id, now: Time, out: set<Id>)
    requires Between(s, out)
    ensures Between(AcknowledgeRow(s, id, agent, now), out) && Evolves(s, AcknowledgeRow(s, id, agent, now))
  {
    hide Core, Threads, RemoteRows, Evolves, Append;
    EvolvesReflexive(s);
    if Acknowledgeable(s, id, agent) {
      RowFacts(s, out, id);
      MoveKeeps(s, id, AsAcknowledged(s.messages[id], now), MessageAcknowledged, now, out);
    }
  }

  /** A change outside the tables that evolve. */
  lemma EvolvesApart(s: Scope, t: Scope)
    requires t.messages == s.messages && t.tasks == s.tasks && t.remoteTasks == s.remoteTasks && t.correlations == s.correlations
    requires t.agents == s.agents && s.issued <= t.issued && t.clock == s.clock && t.log == s.log
    requires NewCredentials(s.credentials, t.credentials, s.issued)
    ensures Evolves(s, t)
  {
  }

  lemma DropRows(s: Scope, reservation: Id, out: set<Id>)
    requires MessageRows(s.messages, s.reservations, s.agents) && ReservationRows(s.reservations, s.agents, out)
    requires forall id :: id in s.messages ==> s.messages[id].reservation != Some(reservation)
    ensures MessageRows(s.messages, s.reservations - {reservation}, s.agents)
    ensures ReservationRows(s.reservations - {reservation}, s.agents, out)
  {
  }

  /** Dropping a reservation that no message names any more. */
  lemma DropKeeps(s: Scope, agent: Id, reservation: Id, out: set<Id>)
    requires Between(s, out)
    requires forall id :: id in s.messages ==> s.messages[id].reservation != Some(reservation)
    ensures Between(DropReservation(s, agent, reservation), out) && Evolves(s, DropReservation(s, agent, reservation))
  {
    hide MessageRows, ReservationRows, LogOk, KeysUnique, AgentRows, TaskRows, Board, ProgressRows, LinkRows, RemoteRows, Threads, Agrees, Evolves;
    EvolvesApart(s, DropReservation(s, agent, reservation));
    DropRows(s, reservation, out);
    KeepRemote(s, DropReservation(s, agent, reservation));
  }
}
