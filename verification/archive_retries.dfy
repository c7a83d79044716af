/** What an import does to keyed retries, and what a hand-written archive may hold that an export never does. */
module ArchiveRetries {
  import opened Model
  import opened Logs
  import opened Scopes
  import opened RemoteWork
  import opened Invariants
  import opened Rows
  import opened InboxSteps
  import opened SendSteps
  import opened RemoteSteps
  import opened Tables
  import opened Archives
  import opened ArchiveChecks
  import opened ArchiveLaws
  import opened TaskSearch

  // ---- digests -------------------------------------------------------------------------------

  /** An import keeps a message's digest if and only if the message does not go to a remote principal
      whose name the archive replaces. */
  lemma HashSurvives(m: Message, naming: Naming)
    requires Stamped(m)
    ensures Reborn(m, naming).hash == m.hash <==> (m.to.kind.RemoteKind? ==> naming.portable(m.to.id))
  {
    assert naming.portable(naming.Archived(m.to.id));
  }

  /** The input that a sender would repeat to retry a message it keyed. */
  function RetryOf(m: Message): SendInput
    requires m.expiresAt.Some? ==> m.expiresAt.value > m.createdAt
  {
    SendInput(m.to.id, m.body, Some(m.mode), m.responseTo, if m.expiresAt.Some? then m.expiresAt.value - m.createdAt else 0, m.context, m.key)
  }

  lemma RetryHash(m: Message)
    requires Stamped(m)
    ensures HashOf(RetryOf(m)) == m.hash
  {
  }

  lemma FindsIt(t: Scope, id: Id, input: SendInput, world: World)
    requires Inv(t) && id in t.messages && t.messages[id].key.Some? && input.key == t.messages[id].key
    ensures Existing(t, t.messages[id].from, input, world) == Some(id)
  {
    hide Inv;
    var ids := Keyed(t, t.messages[id].from, t.messages[id].key.value);
    OnlyKeyed(t, id);
    assert id in ids;
    assert ids == {id};
    assert Lists(world.order(ids), ids);
    ListedSize(world.order(ids), ids);
    assert world.order(ids)[0] in world.order(ids);
  }

  lemma SentStamped(s: Scope, id: Id)
    requires Inv(s) && id in s.messages
    ensures Stamped(s.messages[id])
  {
  }

  lemma ImportedRow(s: Scope, t: Scope, naming: Naming, id: Id)
    requires Imports(s, t, naming) && id in s.messages
    ensures id in t.messages && t.messages[id] == Reborn(s.messages[id], naming)
  {
    hide Reborn;
  }

  /** In an imported scope a keyed retry by an agent or a human finds its message again, and is recognised as
      the same request exactly when the message does not go to a remote principal whose name was replaced. */
  lemma RetriesAfterImport(s: Scope, t: Scope, naming: Naming, id: Id, world: World)
    requires Inv(s) && Inv(t) && Imports(s, t, naming) && id in s.messages && s.messages[id].key.Some? && !s.messages[id].from.kind.RemoteKind?
    ensures s.messages[id].expiresAt.Some? ==> s.messages[id].expiresAt.value > s.messages[id].createdAt
    ensures Existing(t, s.messages[id].from, RetryOf(s.messages[id]), world) == Some(id) && id in t.messages
    ensures t.messages[id].hash == HashOf(RetryOf(s.messages[id])) <==> (s.messages[id].to.kind.RemoteKind? ==> naming.portable(s.messages[id].to.id))
  {
    hide Inv, Reborn, HashOf, Imports, Existing;
    var m := s.messages[id];
    SentStamped(s, id);
    RetryHash(m);
    HashSurvives(m, naming);
    RebornEnds(m, naming);
    ImportedRow(s, t, naming, id);
    FindsIt(t, id, RetryOf(m), world);
  }

  lemma OnlyKeyed(t: Scope, id: Id)
    requires Inv(t) && id in t.messages && t.messages[id].key.Some?
    ensures forall x :: x in Keyed(t, t.messages[id].from, t.messages[id].key.value) ==> x == id
  {
    hide MessageRows, ReservationRows, AgentRows, TaskRows, Board, ProgressRows, Agreement, LogOk, LinkRows, Threads, RemoteRows;
  }

  /** What a keyed retry gets in an imported scope: its message, or a conflict when the message goes to a remote
      principal whose name was replaced. */
  lemma ImportedRetry(s: Scope, t: Scope, naming: Naming, id: Id, input: SendInput, notification: bool, tick: nat, mint: nat, world: World)
    requires Inv(s) && Inv(t) && Imports(s, t, naming) && id in s.messages && s.messages[id].key.Some? && !s.messages[id].from.kind.RemoteKind?
    requires input.key == s.messages[id].key && HashOf(input) == s.messages[id].hash
    ensures SendIn(t, s.messages[id].from, input, notification, tick, mint, world).result
         == if s.messages[id].to.kind.RemoteKind? && !naming.portable(s.messages[id].to.id) then Refused(Conflict) else Ok(id)
  {
    hide Inv, Reborn, HashOf, Imports, Existing, Expire, Keeps, Addressee, Backlog, Inserted, Answer;
    var m, now := s.messages[id], world.tick(tick);
    SentStamped(s, id);
    HashSurvives(m, naming);
    RebornEnds(m, naming);
    ImportedRow(s, t, naming, id);
    var swept := Expire(t, now, world);
    ExpireAlone(t, now, world);
    KeptRow(t, swept, id);
    FindsIt(swept, id, input, world);
  }

  lemma KeptRow(t: Scope, u: Scope, id: Id)
    requires Keeps(t, u) && id in t.messages && id in u.messages
    ensures Inv(u) && u.messages[id].from == t.messages[id].from && u.messages[id].key == t.messages[id].key && u.messages[id].hash == t.messages[id].hash
  {
    hide Inv;
  }

  /** So it goes for every agent that answers a remote request under a key, in whatever good scope: the very request that
      succeeded is refused as a different one after an export and an import, exactly when the name of the principal
      is one that the archive replaces. */
  lemma AnsweredThenImported(s: Scope, caller: Caller, input: SendInput, world: World, t: Scope, naming: Naming, world': World)
    requires Inv(s) && Fair(world, s.clock, s.issued) && input.key.Some? && input.mode == Some(Response)
    requires Scopes.SendMessage(s, caller, input, world).result == Ok(world.mint(0))
    requires input.responseTo.Some? && input.responseTo.value in s.messages && s.messages[input.responseTo.value].from.kind.RemoteKind?
    requires Imports(Scopes.SendMessage(s, caller, input, world).scope, t, naming) && Inv(t)
    ensures SendIn(t, Address(caller.agent), input, false, 1, 0, world').result
         == if naming.portable(input.to) then Ok(world.mint(0)) else Refused(Conflict)
  {
    hide Inv, Imports, SendIn, Keeps, HashOf, Fair;
    SentAnswer(s, caller, input, world);
    var after := Scopes.SendMessage(s, caller, input, world).scope;
    SendInKeeps(s, Address(caller.agent), input, false, 1, 0, world) by { FreshMintOf(s, world); }
    assert Inv(after) by { KeptIsInv(s, after); }
    ImportedRetry(after, t, naming, world.mint(0), input, false, 1, 0, world');
  }

  lemma FreshMintOf(s: Scope, world: World)
    requires Fair(world, s.clock, s.issued)
    ensures world.mint(0) !in s.issued
  {
  }

  /** The answer as it is stored. */
  lemma SentAnswer(s: Scope, caller: Caller, input: SendInput, world: World)
    requires Inv(s) && Fair(world, s.clock, s.issued) && input.key.Some? && input.mode == Some(Response)
    requires Scopes.SendMessage(s, caller, input, world).result == Ok(world.mint(0))
    requires input.responseTo.Some? && input.responseTo.value in s.messages && s.messages[input.responseTo.value].from.kind.RemoteKind?
    ensures var after := Scopes.SendMessage(s, caller, input, world).scope; var id := world.mint(0);
            && id in after.messages && after.messages[id].from == Address(caller.agent) && after.messages[id].to == Participant(RemoteKind, input.to)
            && after.messages[id].key == input.key && after.messages[id].hash == HashOf(input)
            && Current(s, caller, world.tick(0))
  {
    hide Inv, Expire, Existing, Backlog, Inserted, HashOf, Append, Keeps, Answer;
    var now, sender := world.tick(1), Address(caller.agent);
    var s1, id := Expire(s, now, world), world.mint(0);
    ExpireAlone(s, now, world);
    KeptRow(s, s1, input.responseTo.value);
    if Existing(s1, sender, input, world).Some? {
      ExistingIsThere(s1, sender, input, world);
      FreshIsAbsent(s, id) by { FreshMintOf(s, world); }
    } else {
      var kind := Addressee(s1, sender, input, false).value;
      var s2 := Inserted(s1, id, NewMessage(sender, kind, input, now), now);
      InsertedRow(s1, id, NewMessage(sender, kind, input, now), now);
      AnswerFrame(s2, input.responseTo.value, id, kind, now);
    }
  }

  lemma InsertedRow(s: Scope, id: Id, row: Message, now: Time)
    ensures Inserted(s, id, row, now).messages == s.messages[id := row]
  {
    hide Append;
  }

  lemma ExistingIsThere(s: Scope, sender: Participant, input: SendInput, world: World)
    requires Existing(s, sender, input, world).Some?
    ensures Existing(s, sender, input, world).value in s.messages
  {
    var ids := Keyed(s, sender, input.key.value);
    assert Lists(world.order(ids), ids) && world.order(ids)[0] in world.order(ids);
  }

  // ---- states ---------------------------------------------------------------------------------

  /** An import returns reserved messages to their inbox and claimed tasks to the board, and changes the
      state of nothing else. */
  lemma ImportedStates(s: Scope, t: Scope, naming: Naming, id: Id)
    requires Inv(s) && Imports(s, t, naming)
    ensures id in s.messages && s.messages[id].state != Reserved ==> t.messages[id].state == s.messages[id].state
    ensures id in s.messages && s.messages[id].state == Reserved ==>
              t.messages[id].state == (if s.messages[id].deliveredAt.Some? then Delivered else Queued)
    ensures id in s.tasks ==> t.tasks[id].status == if s.tasks[id].status == Claimed then Open else s.tasks[id].status
    ensures id in s.remoteTasks ==> t.remoteTasks[id].state == s.remoteTasks[id].state
  {
  }

  // ---- hand-written archives -----------------------------------------------------------------

  function Author(): Entry<AgentRecord> {
    Entry(1, AgentRecord(5, 5))
  }

  /** A finished task that depends on an open one. */
  function OutOfOrder(): Archive {
    Archive([Author()], {}, [],
            [Entry(2, TaskRecord("first", None, None, Open, [], None, 5, 5)),
             Entry(3, TaskRecord("second", None, Some(1), Done, [2], None, 6, 6))],
            [], [], [], [])
  }

  lemma OutOfOrderTasks()
    ensures ValidTasks({1}, OutOfOrder().tasks) && ValidGraph(OutOfOrder().tasks)
    ensures TableOf(OutOfOrder().tasks).Keys == {2, 3} && TableOf(OutOfOrder().tasks)[2].status == Open && TableOf(OutOfOrder().tasks)[3].status == Done
    ensures TableOf(OutOfOrder().tasks)[3].dependencies == [2]
  {
    var entries := OutOfOrder().tasks;
    TableIds(entries);
    TableAt(entries, 0);
    TableAt(entries, 1);
    assert entries[0].id == 2 && entries[1].id == 3;
    assert IdsOf(entries) == {2, 3} by {
      assert entries[0].id in IdsOf(entries) && entries[1].id in IdsOf(entries);
    }
    assert entries[..1][..0] == [] && entries[..1] == [entries[0]];
    assert CountOpen(entries[..1]) == 1;
    assert entries[..|entries| - 1] == entries[..1];
    var rank: map<Id, nat> := map[2 := 0, 3 := 1];
    assert Topological(rank, Graph(entries));
  }

  lemma OutOfOrderIsValid()
    ensures Valid(OutOfOrder()) && !Conflicting(OutOfOrder())
  {
    hide ValidGraph, ValidTasks;
    var a := OutOfOrder();
    OutOfOrderTasks();
    assert IdsOf(a.agents) == {1} by {
      assert a.agents[0].id in IdsOf(a.agents);
    }
    assert IdsOf(a.publications) == {};
  }

  lemma OutOfOrderBoard(tasks: map<Id, Task>)
    requires tasks == TasksIn(OutOfOrder().tasks)
    ensures !Board(tasks)
  {
    hide OutOfOrder, Acyclic;
    OutOfOrderTasks();
    assert 2 in tasks[3].dependencies;
    assert !Resolved(tasks, 3);
  }

  lemma InsertedTasks(a: Archive, hosted: bool, now: Time, world: World)
    ensures InsertArchive(a, hosted, now, world).tasks == TasksIn(a.tasks)
  {
    hide Append, TasksIn;
  }

  /** The validator accepts an archive that no export can produce: a done task whose dependency is open.
      Imported, it breaks the promise that a done task has its dependencies done. */
  lemma ValidIsWeaker(hosted: bool, world: World)
    ensures Valid(OutOfOrder()) && !Conflicting(OutOfOrder())
    ensures !Board(InsertArchive(OutOfOrder(), hosted, world.tick(0), world).tasks)
  {
    hide Valid, Conflicting, Board, InsertArchive, OutOfOrder, TasksIn;
    OutOfOrderIsValid();
    InsertedTasks(OutOfOrder(), hosted, world.tick(0), world);
    OutOfOrderBoard(TasksIn(OutOfOrder().tasks));
  }
}
