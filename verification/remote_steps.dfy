/** Work from remote principals keeps the invariant, arrives once, and stays within its budgets. */
module RemoteSteps {
  import opened Model
  import opened Logs
  import opened Scopes
  import opened RemoteWork
  import opened Invariants
  import opened Rows
  import opened Sweeps
  import opened InboxSteps
  import opened SendSteps
  import opened ExecutionSteps

  // ---- remote tasks --------------------------------------------------------------------------

  lemma SetRemoteAlone(s: Scope, task: Id, state: RemoteState, now: Time)
    requires Inv(s) && task in s.remoteTasks && ValidTransition(s.remoteTasks[task].state, state)
    ensures Keeps(s, SetRemote(s, task, state, now))
  {
    hide Core, Threads, RemoteRows, Evolves, Append;
    SetRemoteKeeps(s, task, state, now, {});
  }

  lemma SetTaskStateKeeps(s: Scope, caller: RemoteCaller, task: Id, state: RemoteState, world: World)
    requires Inv(s)
    ensures Keeps(s, SetTaskState(s, caller, task, state, world).scope)
  {
    hide Inv, Keeps, SetRemote, CurrentRemote;
    KeepsNothing(s);
    if task in s.remoteTasks && ValidTransition(s.remoteTasks[task].state, state) {
      SetRemoteAlone(s, task, state, world.tick(0));
    }
  }

  lemma ExpireAlone(s: Scope, now: Time, world: World)
    requires Inv(s)
    ensures var t := Expire(s, now, world);
            && Keeps(s, t) && t.issued == s.issued && t.clock == s.clock && t.agents == s.agents
            && t.correlations == s.correlations && t.publications == s.publications && t.credentials == s.credentials
            && t.messages.Keys == s.messages.Keys
  {
    hide Between, Evolves, Expire;
    ExpireKeeps(s, now, world, {});
  }

  lemma ReadTaskKeeps(s: Scope, caller: RemoteCaller, task: Id, world: World)
    requires Inv(s)
    ensures Keeps(s, ReadTask(s, caller, task, world).scope)
  {
    hide Inv, Keeps, Expire, CurrentRemote;
    KeepsNothing(s);
    ExpireAlone(s, world.tick(0), world);
  }

  /** A task row that may enter under a fresh identifier. */
  ghost predicate MayStart(s: Scope, id: Id, row: RemoteTask) {
    id !in s.issued && row.publication in s.publications && row.target in s.agents
  }

  function Started(s: Scope, id: Id, row: RemoteTask, now: Time): Scope {
    Emit(s.(remoteTasks := s.remoteTasks[id := row], issued := s.issued + {id}), RemoteTaskCreated, RemoteSubject(id), RemoteTaskState(row.state), now)
  }

  lemma StartedCore(s: Scope, id: Id, row: RemoteTask, now: Time)
    requires Core(s, {}) && MayStart(s, id, row)
    ensures Core(Started(s, id, row, now), {})
  {
    hide Covers, Bounded, Agrees, Append, MessageRows, KeysUnique, ReservationRows, AgentRows, TaskRows, Board, ProgressRows, LinkRows;
    MoreIssued(s.agents, s.issued, {id});
    var s1 := s.(remoteTasks := s.remoteTasks[id := row], issued := s.issued + {id});
    var what := Pending(RemoteTaskCreated, RemoteSubject(id), RemoteTaskState(row.state));
    LogGrows(s.log, what, now);
    AgreementKept(s1, what, now);
  }

  lemma StartedRows(s: Scope, id: Id, row: RemoteTask, now: Time)
    requires RemoteRows(s) && MayStart(s, id, row) && id !in s.remoteTasks
    ensures RemoteRows(Started(s, id, row, now))
  {
    hide Append;
    var t := Started(s, id, row, now);
    forall x | x in t.correlations ensures CorrelationRow(t, x) {
      assert CorrelationRow(s, x);
    }
  }

  lemma StartedEvolves(s: Scope, id: Id, row: RemoteTask, now: Time)
    requires id !in s.issued && id !in s.remoteTasks && LogOk(s.log)
    ensures Evolves(s, Started(s, id, row, now))
  {
    hide Covers, Bounded, Append;
    LogGrows(s.log, Pending(RemoteTaskCreated, RemoteSubject(id), RemoteTaskState(row.state)), now);
  }

  lemma StartedKeeps(s: Scope, id: Id, row: RemoteTask, now: Time)
    requires Inv(s) && MayStart(s, id, row)
    ensures Keeps(s, Started(s, id, row, now))
  {
    hide Core, RemoteRows, Threads, Evolves, Append;
    LogOf(s, {});
    HandedInv(s);
    StartedCore(s, id, row, now);
    StartedRows(s, id, row, now);
    StartedEvolves(s, id, row, now);
  }

  lemma PublicationTarget(s: Scope, publication: Id)
    requires Inv(s) && publication in s.publications
    ensures s.publications[publication].agent in s.agents
  {
  }

  /** What a step to a remote task leaves alone. */
  ghost predicate TouchesTask(s: Scope, t: Scope, id: Id) {
    && t == s.(remoteTasks := t.remoteTasks, log := t.log, issued := t.issued) && t.issued <= s.issued + {id} && s.issued <= t.issued
  }

  lemma StartedTouches(s: Scope, id: Id, row: RemoteTask, now: Time)
    ensures TouchesTask(s, Started(s, id, row, now), id) && id in Started(s, id, row, now).remoteTasks && Started(s, id, row, now).remoteTasks[id] == row
  {
    hide Append;
  }

  lemma SetRemoteTouches(s: Scope, task: Id, state: RemoteState, now: Time, id: Id)
    requires task in s.remoteTasks
    ensures TouchesTask(s, SetRemote(s, task, state, now), id) && task in SetRemote(s, task, state, now).remoteTasks
    ensures SetRemote(s, task, state, now).remoteTasks[task] == s.remoteTasks[task].(state := state, updatedAt := now)
  {
    hide Append;
  }

  lemma TaskForIs(s: Scope, caller: RemoteCaller, input: AcceptInput, now: Time, world: World)
    requires caller.publication in s.publications
    ensures var target := s.publications[caller.publication].agent;
            var t := TaskFor(s, caller, input, now, world);
            if input.task.None? then
              var context := if input.context.Some? then input.context.value else world.mint(1);
              t == Outcome(Started(s, world.mint(0), RemoteTask(context, caller.principal, caller.publication, target, Submitted, now, now), now), Ok(world.mint(0)))
            else if t.result.Ok? then
              && t.result.value == input.task.value && input.task.value in s.remoteTasks && s.remoteTasks[input.task.value].state == InputRequired
              && s.remoteTasks[input.task.value].principal == caller.principal && s.remoteTasks[input.task.value].target == target
              && t.scope == SetRemote(s, input.task.value, InProgress, now)
            else t.scope == s
  {
    hide Append;
  }

  lemma NewTaskKeeps(s: Scope, caller: RemoteCaller, context: Id, now: Time, id: Id)
    requires Inv(s) && caller.publication in s.publications && id !in s.issued
    ensures var row := RemoteTask(context, caller.principal, caller.publication, s.publications[caller.publication].agent, Submitted, now, now);
            var t := Started(s, id, row, now);
            Keeps(s, t) && TouchesTask(s, t, id) && id in t.remoteTasks && OwnOpenTask(t, caller, id)
  {
    hide Inv, Keeps, Started;
    PublicationTarget(s, caller.publication);
    var row := RemoteTask(context, caller.principal, caller.publication, s.publications[caller.publication].agent, Submitted, now, now);
    StartedKeeps(s, id, row, now);
    StartedTouches(s, id, row, now);
  }

  lemma ResumedTaskKeeps(s: Scope, caller: RemoteCaller, task: Id, now: Time, id: Id)
    requires Inv(s) && caller.publication in s.publications && task in s.remoteTasks && s.remoteTasks[task].state == InputRequired
    requires s.remoteTasks[task].principal == caller.principal && s.remoteTasks[task].target == s.publications[caller.publication].agent
    ensures var t := SetRemote(s, task, InProgress, now);
            Keeps(s, t) && TouchesTask(s, t, id) && task in t.remoteTasks && OwnOpenTask(t, caller, task)
  {
    hide Inv, Keeps, SetRemote;
    SetRemoteAlone(s, task, InProgress, now);
    SetRemoteTouches(s, task, InProgress, now, id);
  }

  /** The task a remote message goes to takes one valid step. */
  lemma TaskForKeeps(s: Scope, caller: RemoteCaller, input: AcceptInput, now: Time, world: World)
    requires Inv(s) && caller.publication in s.publications && world.mint(0) !in s.issued
    ensures var t := TaskFor(s, caller, input, now, world);
            && Keeps(s, t.scope) && TouchesTask(s, t.scope, world.mint(0))
            && (t.result.Ok? ==> t.result.value in t.scope.remoteTasks && OwnOpenTask(t.scope, caller, t.result.value))
  {
    hide Inv, Keeps, Started, SetRemote, TaskFor, TouchesTask, OwnOpenTask;
    TaskForIs(s, caller, input, now, world);
    if input.task.None? {
      NewTaskKeeps(s, caller, if input.context.Some? then input.context.value else world.mint(1), now, world.mint(0));
    } else if TaskFor(s, caller, input, now, world).result.Ok? {
      ResumedTaskKeeps(s, caller, input.task.value, now, world.mint(0));
    } else {
      KeepsNothing(s);
      TouchesNothing(s, world.mint(0));
    }
  }

  lemma TouchesNothing(s: Scope, id: Id)
    ensures TouchesTask(s, s, id)
  {
  }

  /** A task of the caller's own, for the agent its publication names, that has not ended. */
  ghost predicate OwnOpenTask(s: Scope, caller: RemoteCaller, task: Id)
    requires task in s.remoteTasks
  {
    && caller.publication in s.publications
    && s.remoteTasks[task].principal == caller.principal && s.remoteTasks[task].target == s.publications[caller.publication].agent
    && !Terminal(s.remoteTasks[task].state)
  }

  // ---- the correlation that completes an accepted message ------------------------------------

  lemma CorrelatedRows(s: Scope, t: Scope, u: Scope, id: Id, row: Correlation)
    requires RemoteRows(s) && id in t.messages && id !in s.correlations && id !in s.messages
    requires t.messages == s.messages[id := t.messages[id]] && t.correlations == s.correlations && t.remoteTasks == s.remoteTasks
    requires t.publications == s.publications && t.agents == s.agents && row.task in s.remoteTasks
    requires t.messages[id].mode == Request && t.messages[id].from == Participant(RemoteKind, row.principal) && t.messages[id].key == Some(row.client)
    requires t.messages[id].to == Address(s.remoteTasks[row.task].target) && t.messages[id].response == row.response
    requires s.remoteTasks[row.task].principal == row.principal
    requires u == t.(correlations := t.correlations[id := row], remoteTasks := u.remoteTasks, log := u.log)
    requires exists now :: u.remoteTasks == t.remoteTasks[row.task := t.remoteTasks[row.task].(updatedAt := now)]
    ensures RemoteRows(u)
  {
    forall x | x in u.correlations ensures CorrelationRow(u, x) {
      if x != id {
        assert CorrelationRow(s, x);
      }
    }
  }

  lemma CorrelateCore(s: Scope, id: Id, row: Correlation, now: Time)
    requires Core(s, {}) && id in s.issued
    ensures Core(s.(correlations := s.correlations[id := row],
                 remoteTasks := if row.task in s.remoteTasks then s.remoteTasks[row.task := s.remoteTasks[row.task].(updatedAt := now)] else s.remoteTasks), {})
  {
    hide Covers, Bounded, Agrees, Append, MessageRows, KeysUnique, ReservationRows, AgentRows, TaskRows, Board, ProgressRows, LinkRows;
  }

  lemma CorrelateEvolves(s: Scope, id: Id, row: Correlation, now: Time, before: Scope)
    requires Handed(before) && Evolves(before, s) && id !in before.issued && id !in s.correlations
    ensures Evolves(before, s.(correlations := s.correlations[id := row],
                 remoteTasks := if row.task in s.remoteTasks then s.remoteTasks[row.task := s.remoteTasks[row.task].(updatedAt := now)] else s.remoteTasks))
  {
  }

  lemma CorrelateKeeps(s: Scope, t: Scope, id: Id, row: Correlation, now: Time)
    requires Inv(s) && AlmostKeeps(s, t, id) && id !in s.correlations
    requires RemoteRows(Correlate(t, id, row, now))
    ensures Inv(Correlate(t, id, row, now)) && Evolves(s, Correlate(t, id, row, now))
  {
    hide Core, RemoteRows, Threads, Evolves, Append;
    HandedInv(s);
    var u := t.(correlations := t.correlations[id := row],
                remoteTasks := if row.task in t.remoteTasks then t.remoteTasks[row.task := t.remoteTasks[row.task].(updatedAt := now)] else t.remoteTasks);
    CorrelateCore(t, id, row, now);
    CorrelateEvolves(t, id, row, now, s);
    EmitKeeps(u, RemoteMessageAccepted, RemoteSubject(row.task), now, {});
    EvolvesTransitive(s, u, Correlate(t, id, row, now));
  }

  // ---- accepting a remote message ------------------------------------------------------------

  /** A key of a remote principal names a message only through its correlation. */
  lemma KeyedIsCorrelated(s: Scope, principal: Id, client: Id, id: Id)
    requires Inv(s) && id in Keyed(s, Participant(RemoteKind, principal), client)
    ensures id in Correlated(s, principal, client)
  {
    hide Core, Threads;
    assert CorrelationRow(s, id);
  }

  lemma NoKeyWithoutCorrelation(s: Scope, principal: Id, input: SendInput, client: Id, world: World)
    requires Inv(s) && input.key == Some(client) && Correlated(s, principal, client) == {}
    ensures Existing(s, Participant(RemoteKind, principal), input, world).None?
  {
    hide Inv;
    var ids := Keyed(s, Participant(RemoteKind, principal), client);
    if ids != {} {
      var id :| id in ids;
      KeyedIsCorrelated(s, principal, client, id);
    }
    assert Lists(world.order(ids), ids);
    ListedSize(world.order(ids), ids);
  }

  lemma FirstListed(rows: seq<Id>, ids: set<Id>)
    requires Lists(rows, ids) && rows != []
    ensures rows[0] in ids
  {
    assert rows[0] in rows;
  }

  lemma NoneCorrelated(s: Scope, principal: Id, client: Id, world: World)
    requires !(|world.order(Correlated(s, principal, client))| > 0 && world.order(Correlated(s, principal, client))[0] in s.correlations)
    ensures Correlated(s, principal, client) == {}
  {
    var ids := Correlated(s, principal, client);
    var rows := world.order(ids);
    assert Lists(rows, ids);
    ListedSize(rows, ids);
    if rows != [] {
      FirstListed(rows, ids);
    }
  }

  /** The send inside an accept either is refused or queues one new request to the published agent. */
  lemma AcceptedSend(s: Scope, caller: RemoteCaller, send: SendInput, client: Id, world: World)
    requires Inv(s) && world.mint(2) !in s.issued && send.key == Some(client) && send.mode == Some(Request) && send.responseTo.None?
    requires Correlated(s, caller.principal, client) == {} && caller.principal in s.credentials
    ensures var sent := SendIn(s, Participant(RemoteKind, caller.principal), send, false, 2, 2, world);
            var s1 := Expire(s, world.tick(2), world);
            sent.result.Ok? ==>
              && sent.result.value == world.mint(2) && send.to in s.agents
              && AlmostKeeps(s1, sent.scope, world.mint(2))
              && sent.scope == Inserted(s1, world.mint(2), NewMessage(Participant(RemoteKind, caller.principal), AgentKind, send, world.tick(2)), world.tick(2))
  {
    hide Inv, Keeps, Expire, Backlog, Inserted, NewMessage, Existing, Keyed, AlmostKeeps, Core, Threads, RemoteRows, Evolves;
    var sender := Participant(RemoteKind, caller.principal);
    var s1 := Expire(s, world.tick(2), world);
    ExpireAlone(s, world.tick(2), world);
    KeptIsInv(s, s1);
    CredentialStays(s, s1, caller.principal);
    assert Correlated(s1, caller.principal, client) == {};
    NoKeyWithoutCorrelation(s1, caller.principal, send, client, world);
    AbsentKey(s1, sender, send, world);
    if SendIn(s, sender, send, false, 2, 2, world).result.Ok? {
      FreshSend(s1, sender, AgentKind, send, false, world.tick(2), world.mint(2));
    }
  }

  lemma CredentialStays(s: Scope, t: Scope, principal: Id)
    requires Evolves(s, t) && principal in s.credentials
    ensures principal in t.credentials
  {
  }

  lemma KeptIsInv(s: Scope, t: Scope)
    requires Keeps(s, t)
    ensures Inv(t) && Evolves(s, t)
  {
  }

  lemma {:induction false} ExpireRowsKeepTasks(s: Scope, ids: seq<Id>, now: Time)
    requires forall id :: id in ids ==> id in s.messages
    ensures ExpireRows(s, ids, now).remoteTasks.Keys == s.remoteTasks.Keys
    decreases |ids|
  {
    hide Append;
    if ids != [] {
      ExpireRowsKeepTasks(s, ids[..|ids| - 1], now);
    }
  }

  /** The new bus request is correlated with the caller's task. */
  lemma AcceptedRows(s2: Scope, caller: RemoteCaller, send: SendInput, input: AcceptInput, task: Id, now: Time, world: World)
    requires Inv(s2) && task in s2.remoteTasks && OwnOpenTask(s2, caller, task) && send.to == s2.remoteTasks[task].target
    requires send.mode == Some(Request) && send.key == Some(input.client) && world.mint(2) !in s2.issued
    ensures var s3 := Expire(s2, world.tick(2), world);
            var s4 := Inserted(s3, world.mint(2), NewMessage(Participant(RemoteKind, caller.principal), AgentKind, send, world.tick(2)), world.tick(2));
            var row := Correlation(caller.principal, input.client, task, AcceptHash(input), None, now, now);
            RemoteRows(Correlate(s4, world.mint(2), row, now)) && task in s4.remoteTasks
  {
    hide Inv, Keeps, Expire, Core, Threads, RemoteRows, Append;
    var id := world.mint(2);
    var s3 := Expire(s2, world.tick(2), world);
    ExpireAlone(s2, world.tick(2), world);
    KeptIsInv(s2, s3);
    RemoteOfInv(s3, id);
    ExpireKeepsTasks(s2, world.tick(2), world);
    var s4 := Inserted(s3, id, NewMessage(Participant(RemoteKind, caller.principal), AgentKind, send, world.tick(2)), world.tick(2));
    var row := Correlation(caller.principal, input.client, task, AcceptHash(input), None, now, now);
    assert RemoteEvolved(s2.remoteTasks[task], s3.remoteTasks[task]);
    CorrelatedRows(s3, s4, Correlate(s4, id, row, now), id, row);
  }

  lemma ExpireKeepsTasks(s: Scope, now: Time, world: World)
    ensures Expire(s, now, world).remoteTasks.Keys == s.remoteTasks.Keys
  {
    assert Lists(world.order(Due(s, now)), Due(s, now));
    ExpireRowsKeepTasks(s, world.order(Due(s, now)), now);
  }

  lemma RemoteOfInv(s: Scope, id: Id)
    requires Inv(s) && id !in s.issued
    ensures RemoteRows(s) && id !in s.messages && id !in s.correlations
  {
    HandedInv(s);
  }

  /** What accepting a remote message does besides keeping the invariant: it records exactly one new
      bus request for the remote message, or nothing. */
  ghost predicate Accepts(s: Scope, t: Scope, caller: RemoteCaller, input: AcceptInput, id: Id) {
    && id !in s.issued && t.correlations.Keys == s.correlations.Keys + {id} && id in t.correlations && id in t.messages
    && t.correlations[id].principal == caller.principal && t.correlations[id].client == input.client
    && t.messages[id].body == input.body && t.clock == s.clock && StaysWithin(s, t)
  }

  /** The second half: the request is sent and correlated with its task. */
  lemma WorkForTask(s: Scope, caller: RemoteCaller, send: SendInput, input: AcceptInput, task: Id, now: Time, world: World)
    requires Inv(s) && task in s.remoteTasks && OwnOpenTask(s, caller, task) && send.to == s.remoteTasks[task].target
    requires send.mode == Some(Request) && send.key == Some(input.client) && send.responseTo.None? && send.body == input.body
    requires world.mint(2) !in s.issued && Correlated(s, caller.principal, input.client) == {} && caller.principal in s.credentials
    ensures var sent := SendIn(s, Participant(RemoteKind, caller.principal), send, false, 2, 2, world);
            sent.result.Ok? ==>
              var t := Correlate(sent.scope, sent.result.value, Correlation(caller.principal, input.client, task, AcceptHash(input), None, now, now), now);
              Inv(t) && Evolves(s, t) && sent.result.value == world.mint(2) && Accepts(s, t, caller, input, world.mint(2))
  {
    hide Inv, Keeps, Expire, SendIn, Correlate, Inserted, NewMessage, Evolves, RemoteRows, OwnOpenTask, Append, Accepts, Correlated, AcceptHash;
    var id := world.mint(2);
    AcceptedSend(s, caller, send, input.client, world);
    var sent := SendIn(s, Participant(RemoteKind, caller.principal), send, false, 2, 2, world);
    if sent.result.Ok? {
      var s3 := Expire(s, world.tick(2), world);
      ExpireAlone(s, world.tick(2), world);
      KeptIsInv(s, s3);
      AcceptedRows(s, caller, send, input, task, now, world);
      var row := Correlation(caller.principal, input.client, task, AcceptHash(input), None, now, now);
      RemoteOfInv(s3, id);
      CorrelateKeeps(s3, sent.scope, id, row, now);
      HandedInv(s);
      EvolvesTransitive(s, s3, Correlate(sent.scope, id, row, now));
      AlmostWithin(s3, sent.scope, id);
      CorrelateAccepts(s3, caller, send, input, id, row, now, world.tick(2));
      KeptWithin(s, s3);
      AcceptsAfter(s, s3, Correlate(sent.scope, id, row, now), caller, input, id);
    }
  }

  lemma AlmostWithin(s: Scope, t: Scope, id: Id)
    requires AlmostKeeps(s, t, id)
    ensures StaysWithin(s, t)
  {
  }

  lemma KeptWithin(s: Scope, t: Scope)
    requires Keeps(s, t)
    ensures StaysWithin(s, t)
  {
  }

  lemma AcceptsAfter(s: Scope, t: Scope, u: Scope, caller: RemoteCaller, input: AcceptInput, id: Id)
    requires Accepts(t, u, caller, input, id) && t.correlations.Keys == s.correlations.Keys && s.issued <= t.issued && t.clock == s.clock
    requires StaysWithin(s, t) && Evolves(t, u)
    ensures Accepts(s, u, caller, input, id)
  {
    hide Evolves, StaysWithin;
    StaysWithinThen(s, t, u);
  }

  lemma NewWorkKeeps(s: Scope, caller: RemoteCaller, input: AcceptInput, world: World)
    requires Inv(s) && caller.publication in s.publications && Correlated(s, caller.principal, input.client) == {} && caller.principal in s.credentials
    requires Fair(world, s.clock, s.issued)
    ensures var now := world.tick(1);
            var chosen := TaskFor(s, caller, input, now, world);
            var send := SendInput(s.publications[caller.publication].agent, input.body, Some(Request), None, 0, "[]", Some(input.client));
            chosen.result.Ok? ==>
              var sent := SendIn(chosen.scope, Participant(RemoteKind, caller.principal), send, false, 2, 2, world);
              sent.result.Ok? ==>
                var row := Correlation(caller.principal, input.client, chosen.result.value, AcceptHash(input), None, now, now);
                var t := Correlate(sent.scope, sent.result.value, row, now);
                Inv(t) && Evolves(s, t) && sent.result.value == world.mint(2) && Accepts(s, t, caller, input, world.mint(2))
  {
    hide Inv, Keeps, Expire, TaskFor, SendIn, Correlate, Evolves, OwnOpenTask, Append, Accepts;
    var now := world.tick(1);
    var chosen := TaskFor(s, caller, input, now, world);
    var send := SendInput(s.publications[caller.publication].agent, input.body, Some(Request), None, 0, "[]", Some(input.client));
    TaskForKeeps(s, caller, input, now, world);
    if chosen.result.Ok? {
      var s2, task := chosen.scope, chosen.result.value;
      KeptIsInv(s, s2);
      TaskTarget(s, s2, caller, task);
      CredentialStays(s, s2, caller.principal);
      WorkForTask(s2, caller, send, input, task, now, world);
      var sent := SendIn(s2, Participant(RemoteKind, caller.principal), send, false, 2, 2, world);
      if sent.result.Ok? {
        var row := Correlation(caller.principal, input.client, task, AcceptHash(input), None, now, now);
        HandedInv(s);
        EvolvesTransitive(s, s2, Correlate(sent.scope, sent.result.value, row, now));
        KeptWithin(s, s2);
        AcceptsAfter(s, s2, Correlate(sent.scope, sent.result.value, row, now), caller, input, sent.result.value);
      }
    }
  }

  lemma TaskTarget(s: Scope, t: Scope, caller: RemoteCaller, task: Id)
    requires task in t.remoteTasks && OwnOpenTask(t, caller, task) && t.publications == s.publications
    ensures t.remoteTasks[task].target == s.publications[caller.publication].agent
  {
  }

  lemma CorrelateAccepts(s: Scope, caller: RemoteCaller, send: SendInput, input: AcceptInput, id: Id, row: Correlation, now: Time, later: Time)
    requires id !in s.issued && row.principal == caller.principal && row.client == input.client && send.body == input.body
    requires StaysWithin(s, Inserted(s, id, NewMessage(Participant(RemoteKind, caller.principal), AgentKind, send, later), later))
    ensures var s4 := Inserted(s, id, NewMessage(Participant(RemoteKind, caller.principal), AgentKind, send, later), later);
            Accepts(s, Correlate(s4, id, row, now), caller, input, id)
  {
    hide Append, StaysWithin;
    var s4 := Inserted(s, id, NewMessage(Participant(RemoteKind, caller.principal), AgentKind, send, later), later);
    SameWork(s, s4, Correlate(s4, id, row, now));
  }

  lemma SameWork(s: Scope, t: Scope, u: Scope)
    requires StaysWithin(s, t) && u.messages == t.messages && u.tasks == t.tasks
    ensures StaysWithin(s, u)
  {
    assert Backlog(u) == Backlog(t) && Unfinished(u) == Unfinished(t);
  }

  /** Accepting a remote message keeps the invariant. It leaves the remote requests as they were, or
      adds exactly one for this message when the budgets had room for it. */
  lemma AcceptMessageKeeps(s: Scope, caller: RemoteCaller, limits: Limits, input: AcceptInput, world: World)
    requires Inv(s) && Fair(world, s.clock, s.issued)
    ensures var t := AcceptMessage(s, caller, limits, input, world).scope;
            var s1 := Expire(s, world.tick(0), world);
            Inv(t) && Evolves(s, t) && (Keeps(s, t) || (Evolves(s1, t) && Accepts(s1, t, caller, input, world.mint(2)) && !OverBudget(s1, caller, limits, |input.body|)))
  {
    hide Inv, Keeps, Expire, TaskFor, SendIn, Correlate, Evolves, Append, Accepts, OverBudget;
    KeepsNothing(s);
    KeptIsInv(s, s);
    if CurrentRemote(s, caller) {
      var s1 := Expire(s, world.tick(0), world);
      ExpireAlone(s, world.tick(0), world);
      KeptIsInv(s, s1);
      var known := world.order(Correlated(s1, caller.principal, input.client));
      if !(|known| > 0 && known[0] in s1.correlations) && caller.publication in s1.publications {
        NoneCorrelated(s1, caller.principal, input.client, world);
        CredentialStays(s, s1, caller.principal);
        NewWorkKeeps(s1, caller, input, world);
        AcceptEvolves(s, s1, AcceptMessage(s, caller, limits, input, world).scope);
      }
    }
  }

  lemma AcceptEvolves(s: Scope, t: Scope, u: Scope)
    requires Inv(s) && Evolves(s, t)
    ensures Evolves(t, u) ==> Evolves(s, u)
  {
    hide Inv, Evolves;
    HandedInv(s);
    if Evolves(t, u) {
      EvolvesTransitive(s, t, u);
    }
  }

  /** A remote message reaches the bus at most once: its principal and its own identifier name one request. */
  lemma OneRequestForEach(s: Scope, a: Id, b: Id)
    requires Inv(s) && a in s.correlations && b in s.correlations
    requires s.correlations[a].principal == s.correlations[b].principal && s.correlations[a].client == s.correlations[b].client
    ensures a == b
  {
    assert CorrelationRow(s, a) && CorrelationRow(s, b);
  }

  // ---- publications and credentials ----------------------------------------------------------

  lemma PublicationsKeep(s: Scope, publications: map<Id, Publication>, issued: set<Id>)
    requires Inv(s) && s.publications.Keys <= publications.Keys <= issued && s.issued <= issued
    requires forall id :: id in publications ==> publications[id].agent in s.agents
    requires forall a, b :: a in publications && b in publications && publications[a].agent == publications[b].agent ==> a == b
    ensures Keeps(s, s.(publications := publications, issued := issued))
  {
    hide MessageRows, ReservationRows, KeysUnique, AgentRows, TaskRows, Board, ProgressRows, LogOk, Agrees, LinkRows, RemoteRows, Threads, Evolves;
    var t := s.(publications := publications, issued := issued);
    EvolvesApart(s, t);
    assert s.issued + issued == issued;
    MoreIssued(s.agents, s.issued, issued);
    PublicationRows(s, t);
  }

  lemma PublicationRows(s: Scope, t: Scope)
    requires RemoteRows(s) && t == s.(publications := t.publications, issued := t.issued) && s.publications.Keys <= t.publications.Keys
    requires forall id :: id in t.publications ==> t.publications[id].agent in s.agents
    requires forall a, b :: a in t.publications && b in t.publications && t.publications[a].agent == t.publications[b].agent ==> a == b
    ensures RemoteRows(t)
  {
    forall x | x in t.correlations ensures CorrelationRow(t, x) {
      assert CorrelationRow(s, x);
    }
  }

  lemma PublishKeeps(s: Scope, agent: Id, world: World)
    requires Inv(s) && world.mint(0) !in s.issued
    ensures Keeps(s, Publish(s, agent, world).scope)
  {
    hide Inv, Keeps, Emit;
    KeepsNothing(s);
    if agent in s.agents && !exists p :: p in s.publications && s.publications[p].agent == agent {
      PublishedKeeps(s, agent, world.mint(0), world.tick(0));
    }
  }

  lemma PublishedKeeps(s: Scope, agent: Id, id: Id, now: Time)
    requires Inv(s) && id !in s.issued && agent in s.agents && forall p :: p in s.publications ==> s.publications[p].agent != agent
    ensures Keeps(s, Emit(s.(publications := s.publications[id := Publication(agent, true)], issued := s.issued + {id}),
                          PublicationChanged, ScopeSubject, Unstated, now))
  {
    hide Inv, Keeps, Emit;
    PublicationFacts(s);
    var t := s.(publications := s.publications[id := Publication(agent, true)], issued := s.issued + {id});
    PublicationsKeep(s, t.publications, t.issued);
    KeptIsInv(s, t);
    EmitKeepsBetween(t, PublicationChanged, ScopeSubject, now);
    KeepsThen(s, t, Emit(t, PublicationChanged, ScopeSubject, Unstated, now));
  }

  lemma PublicationFacts(s: Scope)
    requires Inv(s)
    ensures s.publications.Keys + s.credentials.Keys <= s.issued
    ensures forall id :: id in s.publications ==> s.publications[id].agent in s.agents
    ensures forall a, b :: a in s.publications && b in s.publications && s.publications[a].agent == s.publications[b].agent ==> a == b
  {
  }

  lemma SetPublicationKeeps(s: Scope, id: Id, enabled: bool, world: World)
    requires Inv(s)
    ensures Keeps(s, SetPublication(s, id, enabled, world).scope)
  {
    hide Inv, Keeps, Append;
    KeepsNothing(s);
    if id in s.publications && s.publications[id].enabled != enabled {
      PublicationFacts(s);
      var t := s.(publications := s.publications[id := s.publications[id].(enabled := enabled)]);
      assert t.publications.Keys == s.publications.Keys;
      PublicationsKeep(s, t.publications, s.issued);
      assert s.(publications := t.publications, issued := s.issued) == t;
      KeptIsInv(s, t);
      EmitKeepsBetween(t, PublicationChanged, ScopeSubject, world.tick(0));
      KeepsThen(s, t, Emit(t, PublicationChanged, ScopeSubject, Unstated, world.tick(0)));
    }
  }

  lemma IssuedKeeps(s: Scope, id: Id, row: Credential)
    requires Inv(s) && id !in s.issued
    ensures Keeps(s, s.(credentials := s.credentials[id := row], issued := s.issued + {id}))
  {
    hide MessageRows, ReservationRows, KeysUnique, AgentRows, TaskRows, Board, ProgressRows, LogOk, Agrees, LinkRows, RemoteRows, Threads, Evolves;
    var t := s.(credentials := s.credentials[id := row], issued := s.issued + {id});
    EvolvesApart(s, t);
    MoreIssued(s.agents, s.issued, {id});
    KeepRemote(s, t);
  }

  lemma IssueCredentialKeeps(s: Scope, publication: Id, world: World)
    requires Inv(s) && world.mint(0) !in s.issued
    ensures Keeps(s, IssueCredential(s, publication, world).scope)
  {
    hide Inv, Keeps, Append;
    KeepsNothing(s);
    if publication in s.publications {
      var id := world.mint(0);
      var t := s.(credentials := s.credentials[id := Credential(publication, true)], issued := s.issued + {id});
      IssuedKeeps(s, id, Credential(publication, true));
      KeptIsInv(s, t);
      EmitKeepsBetween(t, PublicationChanged, ScopeSubject, world.tick(0));
      KeepsThen(s, t, Emit(t, PublicationChanged, ScopeSubject, Unstated, world.tick(0)));
    }
  }

  lemma SetCredentialKeeps(s: Scope, id: Id, enabled: bool, world: World)
    requires Inv(s)
    ensures Keeps(s, SetCredential(s, id, enabled, world).scope)
  {
    hide Inv, Keeps, Append;
    KeepsNothing(s);
    if id in s.credentials && s.credentials[id].enabled != enabled {
      PublicationFacts(s);
      var t := s.(credentials := s.credentials[id := s.credentials[id].(enabled := enabled)]);
      CredentialsKeep(s, t.credentials);
      KeptIsInv(s, t);
      EmitKeepsBetween(t, PublicationChanged, ScopeSubject, world.tick(0));
      KeepsThen(s, t, Emit(t, PublicationChanged, ScopeSubject, Unstated, world.tick(0)));
    }
  }
}
