/** The import as the program does it: row by row into a new scope (bus/archive.go insertArchive). */
module ArchiveStores {
  import opened Model
  import opened Logs
  import opened Scopes
  import opened RemoteWork
  import opened Runs
  import opened Tables
  import opened Archives
  import opened Stores

  /** A message is first inserted without its reference to a request. */
  function WithoutReference(m: MessageRecord): Message {
    RecordToMessage(m).(responseTo := None)
  }

  /** The messages once the references of the first `n` are written. */
  ghost predicate Referenced(table: map<Id, Message>, entries: seq<Entry<MessageRecord>>, n: nat) {
    && table.Keys == IdsOf(entries)
    && (forall i :: 0 <= i < |entries| ==>
          table[entries[i].id] == if i < n then RecordToMessage(entries[i].row) else WithoutReference(entries[i].row))
  }

  lemma AgentsMore(agents: seq<Entry<AgentRecord>>, i: nat, world: World)
    requires i < |agents|
    ensures ImportedAgents(agents[..i + 1], world)
         == ImportedAgents(agents[..i], world)[
              agents[i].id := AgentRow(world.mint(2 * i), world.mint(2 * i + 1), Offline, false, 0, agents[i].row.registeredAt, agents[i].row.updatedAt)]
  {
    assert agents[..i + 1][..i] == agents[..i];
  }

  method InsertAgents(store: Store, agents: seq<Entry<AgentRecord>>, world: World)
    requires store.agents == map[]
    modifies store`agents
    ensures store.agents == ImportedAgents(agents, world)
  {
    assert ImportedAgents(agents[..0], world) == map[];
    hide ImportedAgents;
    for i := 0 to |agents|
      invariant store.agents == ImportedAgents(agents[..i], world)
    {
      AgentsMore(agents, i, world);
      var row := agents[i].row;
      store.agents := store.agents[agents[i].id := AgentRow(world.mint(2 * i), world.mint(2 * i + 1), Offline, false, 0, row.registeredAt, row.updatedAt)];
    }
    assert agents[..|agents|] == agents;
  }

  lemma MoreIds<T>(entries: seq<Entry<T>>, i: nat)
    requires i < |entries|
    ensures IdsOf(entries[..i + 1]) == IdsOf(entries[..i]) + {entries[i].id}
  {
    var more, less := entries[..i + 1], entries[..i];
    forall id ensures id in IdsOf(more) <==> id in IdsOf(less) || id == entries[i].id {
      if id in IdsOf(less) {
        var j :| 0 <= j < |less| && less[j].id == id;
        assert more[j].id == id;
      }
      assert more[i].id == entries[i].id;
    }
  }

  lemma ReferencedIsTable(table: map<Id, Message>, entries: seq<Entry<MessageRecord>>)
    requires UniqueIds(entries) && Referenced(table, entries, |entries|)
    ensures table == MessagesIn(entries)
  {
    hide RecordToMessage;
    TableIds(entries);
    forall id | id in table ensures table[id] == MessagesIn(entries)[id] {
      var i := TableRow(entries, id);
    }
  }

  /** One pass inserts the rows, a second one writes their references, whatever refers to what. */
  method InsertMessages(store: Store, entries: seq<Entry<MessageRecord>>)
    requires store.messages == map[] && UniqueIds(entries)
    modifies store`messages
    ensures store.messages == MessagesIn(entries)
  {
    hide RecordToMessage, WithoutReference;
    for i := 0 to |entries|
      invariant store.messages.Keys == IdsOf(entries[..i])
      invariant forall j :: 0 <= j < i ==> entries[j].id in store.messages && store.messages[entries[j].id] == WithoutReference(entries[j].row)
    {
      MoreIds(entries, i);
      store.messages := store.messages[entries[i].id := WithoutReference(entries[i].row)];
    }
    assert entries[..|entries|] == entries;
    for i := 0 to |entries|
      invariant Referenced(store.messages, entries, i)
    {
      var m := entries[i].row;
      assert entries[i].id in IdsOf(entries);
      if m.responseTo.Some? {
        Refer(m);
        store.messages := store.messages[entries[i].id := store.messages[entries[i].id].(responseTo := m.responseTo)];
      } else {
        NoReference(m);
      }
    }
    ReferencedIsTable(store.messages, entries);
  }

  lemma Refer(m: MessageRecord)
    ensures WithoutReference(m).(responseTo := m.responseTo) == RecordToMessage(m)
  {
  }

  lemma NoReference(m: MessageRecord)
    requires m.responseTo.None?
    ensures WithoutReference(m) == RecordToMessage(m)
  {
  }

  lemma TableMore<T>(entries: seq<Entry<T>>, i: nat)
    requires i < |entries|
    ensures TableOf(entries[..i + 1]) == TableOf(entries[..i])[entries[i].id := entries[i].row]
  {
    assert entries[..i + 1][..i] == entries[..i];
  }

  method InsertTasks(store: Store, entries: seq<Entry<TaskRecord>>)
    requires store.tasks == map[] && store.progress == map[]
    modifies store`tasks, store`progress
    ensures store.tasks == TasksIn(entries) && store.progress == ProgressIn(IdsOf(entries), [])
  {
    hide RecordToTask, TableOf, IdsOf;
    NothingIn(entries);
    for i := 0 to |entries|
      invariant store.tasks == TasksIn(entries[..i]) && store.progress == ProgressIn(IdsOf(entries[..i]), [])
    {
      TableMore(entries, i);
      MoreIds(entries, i);
      store.tasks := store.tasks[entries[i].id := RecordToTask(entries[i].row)];
      store.progress := store.progress[entries[i].id := []];
    }
    assert entries[..|entries|] == entries;
  }

  lemma NothingIn<T>(entries: seq<Entry<T>>)
    ensures TableOf(entries[..0]) == map[] && IdsOf(entries[..0]) == {}
  {
  }

  lemma ProgressMore(records: seq<ProgressRecord>, i: nat, task: Id)
    requires i < |records|
    ensures ProgressOf(records[..i + 1], task)
         == if records[i].task == task then InSequence(ProgressOf(records[..i], task), RecordToProgress(records[i])) else ProgressOf(records[..i], task)
  {
    assert records[..i + 1][..i] == records[..i];
    var rows := RowsOf(records[..i + 1], task);
    if records[i].task == task {
      assert rows[..|rows| - 1] == RowsOf(records[..i], task);
    } else {
      assert rows == RowsOf(records[..i], task);
    }
  }

  lemma ProgressStep(tasks: set<Id>, records: seq<ProgressRecord>, i: nat)
    requires i < |records| && records[i].task in tasks
    ensures ProgressIn(tasks, records[..i + 1])
         == ProgressIn(tasks, records[..i])[records[i].task := InSequence(ProgressOf(records[..i], records[i].task), RecordToProgress(records[i]))]
  {
    hide ProgressOf, InSequence;
    forall task | task in tasks ensures ProgressIn(tasks, records[..i + 1])[task]
      == if task == records[i].task then InSequence(ProgressOf(records[..i], task), RecordToProgress(records[i])) else ProgressOf(records[..i], task) {
      ProgressMore(records, i, task);
    }
  }

  /** Progress rows go to tasks that are there, and are read by their numbers. */
  method InsertProgress(store: Store, tasks: set<Id>, records: seq<ProgressRecord>)
    requires store.progress == ProgressIn(tasks, []) && forall i :: 0 <= i < |records| ==> records[i].task in tasks
    modifies store`progress
    ensures store.progress == ProgressIn(tasks, records)
  {
    hide ProgressOf, InSequence;
    assert records[..0] == [];
    for i := 0 to |records|
      invariant store.progress == ProgressIn(tasks, records[..i])
    {
      var p := records[i];
      ProgressStep(tasks, records, i);
      store.progress := store.progress[p.task := InSequence(store.progress[p.task], RecordToProgress(p))];
    }
    assert records[..|records|] == records;
  }

  method InsertPublications(store: Store, entries: seq<Entry<Id>>)
    requires store.publications == map[]
    modifies store`publications
    ensures store.publications == PublicationsIn(entries)
  {
    hide TableOf;
    NothingIn(entries);
    for i := 0 to |entries|
      invariant store.publications == PublicationsIn(entries[..i])
    {
      TableMore(entries, i);
      store.publications := store.publications[entries[i].id := Publication(entries[i].row, false)];
    }
    assert entries[..|entries|] == entries;
  }

  method InsertRemoteTasks(store: Store, entries: seq<Entry<RemoteTask>>)
    requires store.remoteTasks == map[]
    modifies store`remoteTasks
    ensures store.remoteTasks == TableOf(entries)
  {
    hide TableOf;
    NothingIn(entries);
    for i := 0 to |entries|
      invariant store.remoteTasks == TableOf(entries[..i])
    {
      TableMore(entries, i);
      store.remoteTasks := store.remoteTasks[entries[i].id := entries[i].row];
    }
    assert entries[..|entries|] == entries;
  }

  method InsertCorrelations(store: Store, entries: seq<Entry<CorrelationRecord>>)
    requires store.correlations == map[]
    modifies store`correlations
    ensures store.correlations == WorkIn(entries)
  {
    hide TableOf, RecordToCorrelation;
    NothingIn(entries);
    for i := 0 to |entries|
      invariant store.correlations == WorkIn(entries[..i])
    {
      TableMore(entries, i);
      store.correlations := store.correlations[entries[i].id := RecordToCorrelation(entries[i].row)];
    }
    assert entries[..|entries|] == entries;
  }

  /** The scope as the import has it before its event. */
  function ImportedTables(a: Archive, hosted: bool, now: Time, world: World): Scope {
    Scope(ImportedAgents(a.agents, world), a.links, MessagesIn(a.messages), map[], TasksIn(a.tasks), ProgressIn(IdsOf(a.tasks), a.progress),
          PublicationsIn(a.publications), map[], TableOf(a.remoteTasks), WorkIn(a.correlations),
          Log([], 0, 0, hosted), now, ArchivedIds(a) + MintedFor(|a.agents|, world))
  }

  method InsertLocal(store: Store, a: Archive, world: World)
    requires store.agents == map[] && store.messages == map[] && store.tasks == map[] && store.progress == map[]
    requires UniqueIds(a.messages) && forall i :: 0 <= i < |a.progress| ==> a.progress[i].task in IdsOf(a.tasks)
    modifies store`agents, store`links, store`messages, store`tasks, store`progress
    ensures store.agents == ImportedAgents(a.agents, world) && store.links == a.links && store.messages == MessagesIn(a.messages)
    ensures store.tasks == TasksIn(a.tasks) && store.progress == ProgressIn(IdsOf(a.tasks), a.progress)
  {
    hide *;
    InsertAgents(store, a.agents, world);
    store.links := a.links;
    InsertMessages(store, a.messages);
    InsertTasks(store, a.tasks);
    InsertProgress(store, IdsOf(a.tasks), a.progress);
  }

  method InsertRemoteWork(store: Store, a: Archive)
    requires store.publications == map[] && store.remoteTasks == map[] && store.correlations == map[]
    modifies store`publications, store`remoteTasks, store`correlations
    ensures store.publications == PublicationsIn(a.publications) && store.remoteTasks == TableOf(a.remoteTasks) && store.correlations == WorkIn(a.correlations)
  {
    hide *;
    InsertPublications(store, a.publications);
    InsertRemoteTasks(store, a.remoteTasks);
    InsertCorrelations(store, a.correlations);
  }

  method InsertTables(store: Store, a: Archive, now: Time, world: World)
    requires store.Db() == Fresh(store.hosted)
    requires UniqueIds(a.messages) && forall i :: 0 <= i < |a.progress| ==> a.progress[i].task in IdsOf(a.tasks)
    modifies store
    ensures store.Db() == ImportedTables(a, store.hosted, now, world)
  {
    hide *;
    NewStore(store);
    InsertLocal(store, a, world);
    InsertRest(store, a, now, world);
    AllTables(store, a, now, world);
  }

  method InsertRest(store: Store, a: Archive, now: Time, world: World)
    requires store.publications == map[] && store.remoteTasks == map[] && store.correlations == map[]
    modifies store`publications, store`remoteTasks, store`correlations, store`clock, store`issued
    ensures store.publications == PublicationsIn(a.publications) && store.remoteTasks == TableOf(a.remoteTasks) && store.correlations == WorkIn(a.correlations)
    ensures store.clock == now && store.issued == ArchivedIds(a) + MintedFor(|a.agents|, world)
  {
    hide *;
    InsertRemoteWork(store, a);
    store.clock := now;
    store.issued := ArchivedIds(a) + MintedFor(|a.agents|, world);
  }

  lemma NewStore(store: Store)
    requires store.Db() == Fresh(store.hosted)
    ensures store.agents == map[] && store.messages == map[] && store.reservations == map[] && store.tasks == map[] && store.progress == map[]
    ensures store.publications == map[] && store.credentials == map[] && store.remoteTasks == map[] && store.correlations == map[]
    ensures store.events == [] && store.revision == 0 && store.floor == 0
  {
  }

  lemma AllTables(store: Store, a: Archive, now: Time, world: World)
    requires store.agents == ImportedAgents(a.agents, world) && store.links == a.links && store.messages == MessagesIn(a.messages)
    requires store.reservations == map[] && store.tasks == TasksIn(a.tasks) && store.progress == ProgressIn(IdsOf(a.tasks), a.progress)
    requires store.publications == PublicationsIn(a.publications) && store.credentials == map[] && store.remoteTasks == TableOf(a.remoteTasks)
    requires store.correlations == WorkIn(a.correlations) && store.events == [] && store.revision == 0 && store.floor == 0
    requires store.clock == now && store.issued == ArchivedIds(a) + MintedFor(|a.agents|, world)
    ensures store.Db() == ImportedTables(a, store.hosted, now, world)
  {
    hide ImportedAgents, MessagesIn, TasksIn, ProgressIn, PublicationsIn, WorkIn, TableOf, IdsOf, ArchivedIds, MintedFor;
  }

  /** bus/archive.go insertArchive, of an archive whose message identifiers differ and whose progress rows have a task. */
  method InsertArchive(store: Store, a: Archive, now: Time, world: World)
    requires store.Db() == Fresh(store.hosted)
    requires UniqueIds(a.messages) && forall i :: 0 <= i < |a.progress| ==> a.progress[i].task in IdsOf(a.tasks)
    modifies store
    ensures store.Db() == Archives.InsertArchive(a, store.hosted, now, world)
  {
    InsertTables(store, a, now, world);
    store.AppendEvent(ScopeImported, ScopeSubject, Unstated, now);
    assert Archives.InsertArchive(a, store.hosted, now, world)
        == Emit(ImportedTables(a, store.hosted, now, world), ScopeImported, ScopeSubject, Unstated, now) by {
      hide Emit;
    }
  }
}
