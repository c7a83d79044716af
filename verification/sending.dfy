/** Sending a message, and answering one, keep the invariant. */
module SendSteps {
  import opened Model
  import opened Logs
  import opened Scopes
  import opened RemoteWork
  import opened Invariants
  import opened Rows
  import opened Sweeps
  import opened Totals
  import opened InboxSteps

  // ---- a new row -----------------------------------------------------------------------------

  /** A row that may enter the table under a fresh identifier. */
  ghost predicate Enters(s: Scope, id: Id, row: Message) {
    && id !in s.issued && Stamped(row) && row.reservation.None? && row.response.None? && row.repliedAt.None? && Ends(row, s.agents)
    && (row.key.Some? ==> Keyed(s, row.from, row.key.value) == {})
  }

  lemma InsertRows(s: Scope, id: Id, row: Message, out: set<Id>)
    requires Core(s, out) && Enters(s, id, row)
    ensures MessageRows(s.messages[id := row], s.reservations, s.agents) && KeysUnique(s.messages[id := row])
    ensures id !in s.messages
  {
    hide ReservationRows, AgentRows, TaskRows, Board, ProgressRows, Agreement, LogOk, LinkRows;
    if row.key.Some? {
      forall a | a in s.messages ensures !(s.messages[a].key == row.key && s.messages[a].from == row.from) {
        assert a !in Keyed(s, row.from, row.key.value);
      }
    }
  }

  lemma InsertCore(s: Scope, id: Id, row: Message, now: Time, out: set<Id>)
    requires Core(s, out) && Enters(s, id, row)
    ensures Core(Inserted(s, id, row, now), out)
  {
    hide Covers, Bounded, Agrees, Append, MessageRows, KeysUnique, ReservationRows, TaskRows, Board, ProgressRows, LinkRows;
    var s1 := s.(messages := s.messages[id := row], issued := s.issued + {id});
    var what := Pending(MessageAccepted, MessageSubject(id), MessageState(row.state));
    InsertRows(s, id, row, out);
    LogGrows(s.log, what, now);
    AgreementKept(s1, what, now);
  }

  lemma InsertEvolves(s: Scope, id: Id, row: Message, now: Time)
    requires id !in s.issued && id !in s.messages && LogOk(s.log) && NewSender(row, s.credentials)
    ensures Evolves(s, Inserted(s, id, row, now))
  {
    hide Covers, Bounded, Append;
    LogGrows(s.log, Pending(MessageAccepted, MessageSubject(id), MessageState(row.state)), now);
  }

  lemma InsertRemote(s: Scope, id: Id, row: Message, now: Time)
    requires RemoteRows(s) && id !in s.messages && !row.from.kind.RemoteKind?
    ensures RemoteRows(Inserted(s, id, row, now))
  {
    hide Append;
    var t := Inserted(s, id, row, now);
    forall x | x in t.correlations ensures CorrelationRow(t, x) {
      assert CorrelationRow(s, x);
    }
  }

  lemma InsertThreads(messages: map<Id, Message>, id: Id, row: Message)
    requires Threads(messages) && id !in messages
    requires row.mode != Response && row.responseTo.None? && row.response.None? && row.repliedAt.None?
    ensures Threads(messages[id := row])
  {
    var after := messages[id := row];
    forall x | x in after ensures RepliesWell(after, x) && RepliedWell(after, x) {
      if x != id {
        assert RepliesWell(messages, x) && RepliedWell(messages, x);
      }
    }
  }

  // ---- an answer -----------------------------------------------------------------------------

  function AsAnswered(m: Message, response: Id, now: Time): Message {
    m.(repliedAt := Some(now), response := Some(response))
  }

  lemma AnswerRowCore(s: Scope, request: Id, response: Id, now: Time, out: set<Id>)
    requires Core(s, out) && request in s.messages
    ensures Core(s.(messages := s.messages[request := AsAnswered(s.messages[request], response, now)]), out)
  {
    hide LogOk, Agrees, MessageRows, KeysUnique, ReservationRows, AgentRows, TaskRows, Board, ProgressRows, LinkRows;
    AnsweredRows(s.messages, s.reservations, s.agents, request, response, now);
  }

  lemma AnsweredRows(messages: map<Id, Message>, reservations: map<Id, Reservation>, agents: map<Id, AgentRow>, request: Id, response: Id, now: Time)
    requires MessageRows(messages, reservations, agents) && KeysUnique(messages) && request in messages
    ensures var after := messages[request := AsAnswered(messages[request], response, now)];
            MessageRows(after, reservations, agents) && KeysUnique(after) && after.Keys == messages.Keys
  {
  }

  lemma AnswerEvolves(s: Scope, request: Id, response: Id, now: Time)
    requires request in s.messages && s.messages[request].repliedAt.None? && s.messages[request].response.None?
    ensures Evolves(s, s.(messages := s.messages[request := AsAnswered(s.messages[request], response, now)]))
  {
  }

  /** The reply is written on the request and, for a remote request, on its correlation. */
  lemma AnswerRemote(s: Scope, request: Id, response: Id, kind: Kind, now: Time)
    requires RemoteRows(s) && request in s.messages && s.messages[request].from.kind == kind
    ensures var c := if request in s.correlations then s.correlations[request := s.correlations[request].(response := Some(response), updatedAt := now)] else s.correlations;
            RemoteRows(s.(messages := s.messages[request := AsAnswered(s.messages[request], response, now)],
                          correlations := if kind.RemoteKind? then c else s.correlations))
  {
    var c := if request in s.correlations then s.correlations[request := s.correlations[request].(response := Some(response), updatedAt := now)] else s.correlations;
    var t := s.(messages := s.messages[request := AsAnswered(s.messages[request], response, now)],
                correlations := if kind.RemoteKind? then c else s.correlations);
    forall x | x in t.correlations ensures CorrelationRow(t, x) {
      assert CorrelationRow(s, x);
    }
  }

  lemma CorrelationMoves(s: Scope, request: Id, response: Id, now: Time, out: set<Id>)
    requires Core(s, out) && request in s.correlations && s.correlations[request].response.None?
    ensures var t := s.(correlations := s.correlations[request := s.correlations[request].(response := Some(response), updatedAt := now)]);
            Core(t, out) && Evolves(s, t)
  {
    hide Covers, Bounded, Agrees, MessageRows, KeysUnique, ReservationRows, AgentRows, TaskRows, Board, ProgressRows, LinkRows;
    assert s.correlations[request := s.correlations[request].(response := Some(response), updatedAt := now)].Keys == s.correlations.Keys;
  }

  lemma AnswerKeeps(s: Scope, request: Id, response: Id, kind: Kind, now: Time, out: set<Id>)
    requires Core(s, out) && RemoteRows(s) && request in s.messages && s.messages[request].from.kind == kind
    requires s.messages[request].repliedAt.None? && s.messages[request].response.None?
    ensures Core(Answer(s, request, response, kind, now), out) && RemoteRows(Answer(s, request, response, kind, now))
    ensures Evolves(s, Answer(s, request, response, kind, now))
  {
    hide Core, RemoteRows, Evolves, Append, AdvanceRemote;
    var s1 := s.(messages := s.messages[request := AsAnswered(s.messages[request], response, now)]);
    var s2 := Emit(s1, MessageReplied, MessageSubject(request), Unstated, now);
    AnswerRowCore(s, request, response, now, out);
    AnswerEvolves(s, request, response, now);
    AnswerRemote(s, request, response, kind, now);
    EmitKeeps(s1, MessageReplied, MessageSubject(request), now, out);
    HandedOf(s, out);
    EvolvesTransitive(s, s1, s2);
    if kind.RemoteKind? {
      var s3 := if request !in s2.correlations then s2
                else s2.(correlations := s2.correlations[request := s2.correlations[request].(response := Some(response), updatedAt := now)]);
      if request in s2.correlations {
        CorrelationIsOpen(s, request);
        CorrelationMoves(s2, request, response, now, out);
      } else {
        EvolvesReflexive(s2);
      }
      AnsweredRemote(s, s3, request, response, kind, now);
      EvolvesTransitive(s, s2, s3);
      AdvanceKeeps(s3, request, Reply, now, out);
      EvolvesTransitive(s, s3, AdvanceRemote(s3, request, Reply, now));
    }
  }

  /** What an answer leaves alone. */
  lemma AnswerFrame(s: Scope, request: Id, response: Id, kind: Kind, now: Time)
    requires request in s.messages
    ensures var t := Answer(s, request, response, kind, now);
            && t == s.(messages := s.messages[request := AsAnswered(s.messages[request], response, now)],
                       correlations := t.correlations, remoteTasks := t.remoteTasks, log := t.log)
            && t.correlations.Keys == s.correlations.Keys
  {
    hide Append, AdvanceRemote;
    var s1 := s.(messages := s.messages[request := AsAnswered(s.messages[request], response, now)]);
    var s2 := Emit(s1, MessageReplied, MessageSubject(request), Unstated, now);
    var s3 := if request !in s2.correlations then s2
              else s2.(correlations := s2.correlations[request := s2.correlations[request].(response := Some(response), updatedAt := now)]);
    AdvanceFrame(s3, request, Reply, now);
  }

  lemma CorrelationIsOpen(s: Scope, request: Id)
    requires RemoteRows(s) && request in s.correlations && request in s.messages
    ensures s.correlations[request].response == s.messages[request].response
  {
    assert CorrelationRow(s, request);
  }

  lemma AnsweredRemote(s: Scope, t: Scope, request: Id, response: Id, kind: Kind, now: Time)
    requires RemoteRows(s) && request in s.messages && s.messages[request].from.kind == kind && kind.RemoteKind?
    requires t.messages == s.messages[request := AsAnswered(s.messages[request], response, now)]
    requires t.correlations == if request in s.correlations then s.correlations[request := s.correlations[request].(response := Some(response), updatedAt := now)] else s.correlations
    requires t.remoteTasks == s.remoteTasks && t.publications == s.publications && t.agents == s.agents
    ensures RemoteRows(t)
  {
    hide RemoteRows;
    AnswerRemote(s, request, response, kind, now);
    KeepRemote(s.(messages := t.messages, correlations := t.correlations), t);
  }

  /** A response and the mark on its request, together, keep the pairing. */
  lemma ResponseThreads(messages: map<Id, Message>, id: Id, row: Message, now: Time)
    requires Threads(messages) && id !in messages && row.mode == Response && row.responseTo.Some?
    requires row.response.None? && row.repliedAt.None?
    requires row.responseTo.value in messages && messages[row.responseTo.value].mode == Request
    requires var request := messages[row.responseTo.value];
             request.to == row.from && request.from == row.to && request.deliveredAt.Some? && request.repliedAt.None?
    ensures Threads(messages[id := row][row.responseTo.value := AsAnswered(messages[row.responseTo.value], id, now)])
  {
    var r := row.responseTo.value;
    var after := messages[id := row][r := AsAnswered(messages[r], id, now)];
    assert RepliedWell(messages, r);
    forall x | x in after ensures RepliesWell(after, x) && RepliedWell(after, x) {
      if x != id {
        assert RepliesWell(messages, x) && RepliedWell(messages, x);
      }
    }
  }

  // ---- the transaction -----------------------------------------------------------------------

  /** The checks before a send leave a row that may enter. */
  lemma NewMessageEnters(s: Scope, sender: Participant, kind: Kind, input: SendInput, notification: bool, now: Time, id: Id, out: set<Id>)
    requires Core(s, out) && id !in s.issued
    requires sender.kind.AgentKind? ==> sender.id in s.agents
    requires Addressee(s, sender, input, notification) == Ok(kind)
    requires input.key.Some? ==> Keyed(s, sender, input.key.value) == {}
    ensures Enters(s, id, NewMessage(sender, kind, input, now))
  {
    hide MessageRows, KeysUnique, ReservationRows, AgentRows, TaskRows, Board, ProgressRows, Agreement, LogOk;
    if kind.AgentKind? && sender.kind.AgentKind? && !notification {
      assert OrderedPair(sender.id, input.to) in s.links;
    }
  }

  lemma AbsentKey(s: Scope, sender: Participant, input: SendInput, world: World)
    requires Existing(s, sender, input, world).None? && input.key.Some?
    ensures Keyed(s, sender, input.key.value) == {}
  {
    var ids := Keyed(s, sender, input.key.value);
    assert Lists(world.order(ids), ids);
    ListedSize(world.order(ids), ids);
  }

  /** Everything but the correlation of a remote sender's own message. */
  ghost predicate AlmostKeeps(s: Scope, t: Scope, id: Id) {
    && Core(t, {}) && Threads(t.messages) && Evolves(s, t)
    && t.agents == s.agents && t.clock == s.clock && id in t.issued && id !in s.issued && id in t.messages && t.correlations.Keys <= s.correlations.Keys && StaysWithin(s, t)
  }

  lemma InsertedWithin(s: Scope, id: Id, row: Message, now: Time)
    requires |Backlog(s)| < BACKLOG_CAP
    ensures |Backlog(Inserted(s, id, row, now))| <= BACKLOG_CAP && Inserted(s, id, row, now).tasks == s.tasks
    ensures StaysWithin(s, Inserted(s, id, row, now))
  {
    hide Append;
    SizeGrows(Backlog(Inserted(s, id, row, now)), Backlog(s) + {id});
  }

  lemma AnsweredWithin(s: Scope, t: Scope, u: Scope, request: Id, response: Id, now: Time)
    requires |Backlog(t)| <= BACKLOG_CAP && t.tasks == s.tasks && u.tasks == t.tasks && request in t.messages
    requires u.messages == t.messages[request := AsAnswered(t.messages[request], response, now)]
    ensures StaysWithin(s, u)
  {
    assert Backlog(u) == Backlog(t);
  }

  lemma FreshSend(s: Scope, sender: Participant, kind: Kind, input: SendInput, notification: bool, now: Time, id: Id)
    requires Inv(s) && id !in s.issued && (sender.kind.AgentKind? ==> sender.id in s.agents)
    requires sender.kind.RemoteKind? ==> sender.id in s.credentials
    requires Addressee(s, sender, input, notification) == Ok(kind)
    requires input.key.Some? ==> Keyed(s, sender, input.key.value) == {}
    requires |Backlog(s)| < BACKLOG_CAP
    ensures var s2 := Inserted(s, id, NewMessage(sender, kind, input, now), now);
            && (ModeOf(input) != Response ==> AlmostKeeps(s, s2, id) && (!sender.kind.RemoteKind? ==> RemoteRows(s2)))
            && (ModeOf(input) == Response ==> input.responseTo.Some? && input.responseTo.value in s2.messages)
            && (ModeOf(input) == Response && !sender.kind.RemoteKind? ==> Keeps(s, Answer(s2, input.responseTo.value, id, kind, now)))
  {
    hide Core, Threads, RemoteRows, Evolves, Enters, Append, Answer, StaysWithin, Backlog;
    var row := NewMessage(sender, kind, input, now);
    InsertedWithin(s, id, row, now);
    var s2 := Inserted(s, id, row, now);
    NewMessageEnters(s, sender, kind, input, notification, now, id, {});
    FreshIsAbsent(s, id);
    InsertCore(s, id, row, now, {});
    LogOf(s, {});
    InsertEvolves(s, id, row, now);
    if !sender.kind.RemoteKind? {
      InsertRemote(s, id, row, now);
    }
    if ModeOf(input) != Response {
      InsertThreads(s.messages, id, row);
    } else if !sender.kind.RemoteKind? {
      var request := input.responseTo.value;
      ReplyIsOpen(s.messages, request);
      AnswerKeeps(s2, request, id, kind, now, {});
      AnswerFrame(s2, request, id, kind, now);
      AnsweredWithin(s, s2, Answer(s2, request, id, kind, now), request, id, now);
      ResponseThreads(s.messages, id, row, now);
      HandedOf(s, {});
      EvolvesTransitive(s, s2, Answer(s2, request, id, kind, now));
    }
  }

  lemma FreshIsAbsent(s: Scope, id: Id)
    requires Inv(s) && id !in s.issued
    ensures id !in s.messages
  {
    HandedOf(s, {});
  }

  lemma ReplyIsOpen(messages: map<Id, Message>, request: Id)
    requires Threads(messages) && request in messages
    ensures messages[request].repliedAt.None? <==> messages[request].response.None?
  {
    assert RepliedWell(messages, request);
  }

  lemma SendInKeeps(s: Scope, sender: Participant, input: SendInput, notification: bool, tick: nat, mint: nat, world: World)
    requires Inv(s) && world.mint(mint) !in s.issued && !sender.kind.RemoteKind?
    requires sender.kind.AgentKind? ==> sender.id in s.agents
    ensures Keeps(s, SendIn(s, sender, input, notification, tick, mint, world).scope)
  {
    hide Between, Evolves, Expire, Addressee, Existing, Answer, Inserted, Backlog, NewMessage, HashOf, ModeOf, Keyed, Core, Threads, RemoteRows;
    KeepsNothing(s);
    var now := world.tick(tick);
    var s1 := Expire(s, now, world);
    ExpireKeeps(s, now, world, {});
    if Existing(s1, sender, input, world).None? {
      var kind := Addressee(s1, sender, input, notification);
      if kind.Ok? && |Backlog(s1)| < BACKLOG_CAP {
        var id := world.mint(mint);
        if input.key.Some? {
          AbsentKey(s1, sender, input, world);
        }
        FreshSend(s1, sender, kind.value, input, notification, now, id);
        var s2 := Inserted(s1, id, NewMessage(sender, kind.value, input, now), now);
        if ModeOf(input) == Response {
          KeepsThen(s, s1, Answer(s2, input.responseTo.value, id, kind.value, now));
        } else {
          AlmostIsKeeps(s1, s2, id);
          KeepsThen(s, s1, s2);
        }
      }
    }
  }

  lemma AlmostIsKeeps(s: Scope, t: Scope, id: Id)
    requires AlmostKeeps(s, t, id) && RemoteRows(t)
    ensures Keeps(s, t)
  {
    hide Core, Threads, RemoteRows, Evolves, StaysWithin;
  }
}
