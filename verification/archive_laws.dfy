/** Exporting and importing: an export of a reachable scope is valid, importing it gives a good scope, and
    exporting that again gives the same archive. */
module ArchiveLaws {
  import opened Model
  import opened Logs
  import opened Scopes
  import opened RemoteWork
  import opened Invariants
  import opened Rows
  import opened Sweeps
  import opened InboxSteps
  import opened RemoteSteps
  import opened Runs
  import opened TaskSearch
  import opened Tables
  import opened Archives
  import opened ArchiveChecks

  // ---- what an import makes of an export -----------------------------------------------------

  function Reborn(m: Message, naming: Naming): Message {
    RecordToMessage(MessageToRecord(m, naming))
  }

  function Reattributed(rows: seq<Progress>): (imported: seq<Progress>)
    ensures |imported| == |rows|
    ensures forall i :: 0 <= i < |rows| ==> imported[i] == rows[i].(execution := IMPORTED)
  {
    seq(|rows|, i requires 0 <= i < |rows| => rows[i].(execution := IMPORTED))
  }

  lemma WrittenReads<T>(table: map<Id, T>, key: Id -> Time, world: World)
    ensures UniqueIds(Written(table, key, world)) && TableOf(Written(table, key, world)) == table && IdsOf(Written(table, key, world)) == table.Keys
  {
    ListedIsSorted(table.Keys, key, world);
    ReadBack(table, Listed(table.Keys, key, world));
    TableIds(Written(table, key, world));
  }

  lemma {:induction false} ProgressConcat(a: seq<ProgressRecord>, b: seq<ProgressRecord>, task: Id)
    ensures RowsOf(a + b, task) == RowsOf(a, task) + RowsOf(b, task)
    decreases |b|
  {
    if b == [] {
      assert a + b == a;
    } else {
      assert (a + b)[..|a + b| - 1] == a + b[..|b| - 1];
      ProgressConcat(a, b[..|b| - 1], task);
    }
  }

  lemma {:induction false} ProgressOfTask(task: Id, rows: seq<Progress>, other: Id)
    ensures RowsOf(ProgressToRecords(task, rows), other) == if other == task then Reattributed(rows) else []
    decreases |rows|
  {
    if rows != [] {
      var init := rows[..|rows| - 1];
      assert ProgressToRecords(task, rows)[..|rows| - 1] == ProgressToRecords(task, init);
      ProgressOfTask(task, init, other);
      assert Reattributed(rows) == Reattributed(init) + [rows[|rows| - 1].(execution := IMPORTED)];
    }
  }

  /** Reading a task's progress rows back from the archive. */
  lemma {:induction false} ProgressReads(progress: map<Id, seq<Progress>>, tasks: seq<Id>, task: Id)
    requires Distinct(tasks)
    ensures RowsOf(ProgressRecords(progress, tasks), task) == if task in tasks && task in progress then Reattributed(progress[task]) else []
    decreases |tasks|
  {
    if tasks != [] {
      var init, last := tasks[..|tasks| - 1], tasks[|tasks| - 1];
      SplitLast(tasks);
      ProgressReads(progress, init, task);
      var tail := if last in progress then ProgressToRecords(last, progress[last]) else [];
      ProgressConcat(ProgressRecords(progress, init), tail, task);
      if last in progress {
        ProgressOfTask(last, progress[last], task);
      }
    }
  }

  /** The imported row of the i-th agent. */
  ghost predicate AgentAt(agents: map<Id, AgentRow>, entries: seq<Entry<AgentRecord>>, i: nat, world: World)
    requires i < |entries|
  {
    && entries[i].id in agents
    && agents[entries[i].id] == AgentRow(world.mint(2 * i), world.mint(2 * i + 1), Offline, false, 0, entries[i].row.registeredAt, entries[i].row.updatedAt)
  }

  lemma {:induction false} AgentsRead(entries: seq<Entry<AgentRecord>>, world: World)
    requires UniqueIds(entries) && forall i, j :: world.mint(i) == world.mint(j) ==> i == j
    ensures ImportedAgents(entries, world).Keys == IdsOf(entries)
    ensures forall i :: 0 <= i < |entries| ==> AgentAt(ImportedAgents(entries, world), entries, i, world)
  {
    if entries != [] {
      var init, last := entries[..|entries| - 1], entries[|entries| - 1];
      AgentsRead(init, world);
      assert IdsOf(entries) == IdsOf(init) + {last.id};
      forall i | 0 <= i < |entries| ensures AgentAt(ImportedAgents(entries, world), entries, i, world) {
        assert i < |init| ==> entries[i] == init[i] && AgentAt(ImportedAgents(init, world), init, i, world);
      }
    }
  }

  /** The tables of an imported export, in terms of the tables that were exported. */
  ghost predicate Imports(s: Scope, t: Scope, naming: Naming) {
    && t.messages == (map id | id in s.messages :: Reborn(s.messages[id], naming))
    && t.tasks == (map id | id in s.tasks :: RecordToTask(TaskToRecord(s.tasks[id])))
    && t.progress.Keys == s.tasks.Keys && (forall id :: id in s.tasks && id in s.progress ==> t.progress[id] == Reattributed(s.progress[id]))
    && t.publications == (map id | id in s.publications :: Publication(s.publications[id].agent, false))
    && t.remoteTasks == RemoteTable(s, naming)
    && t.correlations == (map id | id in s.correlations :: RecordToCorrelation(CorrelationToRecord(s.correlations[id], naming)))
    && t.links == s.links && t.reservations == map[] && t.credentials == map[]
    && t.agents.Keys == s.agents.Keys
    && (forall id :: id in s.agents ==> AgentRests(s.agents[id], t.agents[id]))
    && t.log.events == [Event(1, Pending(ScopeImported, ScopeSubject, Unstated), t.clock)] && t.log.revision == 1 && t.log.floor == 0
  }

  predicate AgentRests(a: AgentRow, b: AgentRow) {
    b.lifecycle.Offline? && !b.ready && b.leaseExpiresAt == 0 && b.registeredAt == a.registeredAt && b.updatedAt == a.updatedAt
  }

  lemma {:induction false} OrderedAlready(rows: seq<Progress>)
    requires forall i, j :: 0 <= i < j < |rows| ==> rows[i].sequence < rows[j].sequence
    ensures Ordered(rows) == rows
  {
    if rows != [] {
      OrderedAlready(rows[..|rows| - 1]);
    }
  }

  /** Rows numbered from one are in order. */
  ghost predicate NumberedRows(progress: map<Id, seq<Progress>>) {
    forall id, i :: id in progress && 0 <= i < |progress[id]| ==> progress[id][i].sequence == i + 1
  }

  lemma NumberedIn(s: Scope)
    requires Inv(s)
    ensures NumberedRows(s.progress)
  {
  }

  lemma ImportedProgress(s: Scope, world: World)
    requires NumberedRows(s.progress)
    ensures var records := ProgressRecords(s.progress, Listed(s.tasks.Keys, ById(), world));
            forall id :: id in s.tasks && id in s.progress ==> ProgressOf(records, id) == Reattributed(s.progress[id])
  {
    var rows := Listed(s.tasks.Keys, ById(), world);
    ListedIsSorted(s.tasks.Keys, ById(), world);
    forall id | id in s.tasks && id in s.progress ensures ProgressOf(ProgressRecords(s.progress, rows), id) == Reattributed(s.progress[id]) {
      ProgressReads(s.progress, rows, id);
      OrderedAlready(Reattributed(s.progress[id]));
    }
  }

  lemma ImportedAgentRows(s: Scope, world: World, later: World)
    requires forall i, j :: later.mint(i) == later.mint(j) ==> i == j
    ensures var agents := ImportedAgents(WrittenAgents(s, world), later);
            agents.Keys == s.agents.Keys && forall id :: id in s.agents ==> AgentRests(s.agents[id], agents[id])
  {
    hide TableOf, ImportedAgents, Written;
    var entries := Written(AgentTable(s), ById(), world);
    WrittenReads(AgentTable(s), ById(), world);
    AgentsRead(entries, later);
    forall id | id in s.agents ensures AgentRests(s.agents[id], ImportedAgents(entries, later)[id]) {
      assert id in IdsOf(entries);
      var i :| 0 <= i < |entries| && entries[i].id == id;
      assert AgentAt(ImportedAgents(entries, later), entries, i, later);
      WrittenRow(s, entries, i);
    }
  }

  lemma WrittenRow(s: Scope, entries: seq<Entry<AgentRecord>>, i: nat)
    requires UniqueIds(entries) && TableOf(entries) == AgentTable(s) && i < |entries|
    ensures entries[i].id in s.agents && entries[i].row.registeredAt == s.agents[entries[i].id].registeredAt && entries[i].row.updatedAt == s.agents[entries[i].id].updatedAt
  {
    hide TableOf;
    TableAt(entries, i);
  }

  lemma FirstEvent(hosted: bool, now: Time)
    ensures Append(Log([], 0, 0, hosted), Pending(ScopeImported, ScopeSubject, Unstated), now)
         == Log([Event(1, Pending(ScopeImported, ScopeSubject, Unstated), now)], 1, 0, hosted)
  {
    var what := Pending(ScopeImported, ScopeSubject, Unstated);
    assert Numbered(0, [what], now) == [Event(1, what, now)];
  }

  lemma AgentsWritten(s: Scope, world: World)
    ensures UniqueIds(WrittenAgents(s, world)) && IdsOf(WrittenAgents(s, world)) == s.agents.Keys
  {
    hide Written;
    WrittenReads(AgentTable(s), ById(), world);
  }

  lemma MessagesWritten(s: Scope, naming: Naming, world: World)
    ensures var entries := WrittenMessages(s, naming, world);
            && UniqueIds(entries) && TableOf(entries) == MessageTable(s, naming) && IdsOf(entries) == s.messages.Keys
            && MessagesIn(entries) == map id | id in s.messages :: Reborn(s.messages[id], naming)
  {
    hide Written, TableOf;
    WrittenReads(MessageTable(s, naming), MessageAge(MessageTable(s, naming)), world);
  }

  lemma TasksWritten(s: Scope, world: World)
    ensures var entries := WrittenTasks(s, world);
            && UniqueIds(entries) && TableOf(entries) == TaskTable(s) && IdsOf(entries) == s.tasks.Keys
            && TasksIn(entries) == map id | id in s.tasks :: RecordToTask(TaskToRecord(s.tasks[id]))
  {
    hide Written, TableOf;
    WrittenReads(TaskTable(s), TaskAge(TaskTable(s)), world);
  }

  lemma PublicationsWritten(s: Scope, world: World)
    ensures var entries := WrittenPublications(s, world);
            && UniqueIds(entries) && TableOf(entries) == PublicationTable(s) && IdsOf(entries) == s.publications.Keys
            && PublicationsIn(entries) == map id | id in s.publications :: Publication(s.publications[id].agent, false)
  {
    hide Written, TableOf;
    WrittenReads(PublicationTable(s), ById(), world);
  }

  lemma RemoteWritten(s: Scope, naming: Naming, world: World)
    ensures var entries := WrittenRemote(s, naming, world);
            UniqueIds(entries) && TableOf(entries) == RemoteTable(s, naming) && IdsOf(entries) == s.remoteTasks.Keys
  {
    hide Written, TableOf;
    WrittenReads(RemoteTable(s, naming), RemoteAge(RemoteTable(s, naming)), world);
  }

  lemma WorkWritten(s: Scope, naming: Naming, world: World)
    ensures var entries := WrittenWork(s, naming, world);
            && UniqueIds(entries) && TableOf(entries) == CorrelationTable(s, naming) && IdsOf(entries) == s.correlations.Keys
            && WorkIn(entries) == map id | id in s.correlations :: RecordToCorrelation(CorrelationToRecord(s.correlations[id], naming))
  {
    hide Written, TableOf;
    WrittenReads(CorrelationTable(s, naming), CorrelationAge(CorrelationTable(s, naming)), world);
  }

  /** Importing an export, table by table. */
  lemma InsertedTables(a: Archive, hosted: bool, now: Time, world: World)
    ensures var t := InsertArchive(a, hosted, now, world);
            && t.agents == ImportedAgents(a.agents, world) && t.links == a.links && t.messages == MessagesIn(a.messages) && t.reservations == map[]
            && t.tasks == TasksIn(a.tasks) && t.progress == ProgressIn(IdsOf(a.tasks), a.progress) && t.publications == PublicationsIn(a.publications)
            && t.credentials == map[] && t.remoteTasks == TableOf(a.remoteTasks) && t.correlations == WorkIn(a.correlations) && t.clock == now
            && t.log.events == [Event(1, Pending(ScopeImported, ScopeSubject, Unstated), t.clock)] && t.log.revision == 1 && t.log.floor == 0
  {
    hide ImportedAgents, MessagesIn, TasksIn, ProgressIn, PublicationsIn, TableOf, WorkIn, IdsOf, Append;
    FirstEvent(hosted, now);
  }

  lemma InsertImports(s: Scope, naming: Naming, world: World, hosted: bool, now: Time, later: World)
    requires NumberedRows(s.progress)
    requires forall i, j :: later.mint(i) == later.mint(j) ==> i == j
    ensures Imports(s, InsertArchive(Snapshot(s, naming, world), hosted, now, later), naming)
  {
    hide WrittenAgents, WrittenMessages, WrittenTasks, WrittenPublications, WrittenRemote, WrittenWork, UniqueIds, IdsOf, TableOf, ImportedAgents,
         MessagesIn, TasksIn, PublicationsIn, WorkIn, ProgressOf, ProgressRecords, InsertArchive, Listed, Reborn, RecordToTask, RecordToCorrelation;
    MessagesWritten(s, naming, world);
    TasksWritten(s, world);
    PublicationsWritten(s, world);
    RemoteWritten(s, naming, world);
    WorkWritten(s, naming, world);
    ImportedProgress(s, world);
    ImportedAgentRows(s, world, later);
    InsertedTables(Snapshot(s, naming, world), hosted, now, later);
  }

  // ---- an imported export is a good scope ----------------------------------------------------

  /** No two remote requests are archived under the same sender and identifier. */
  ghost predicate Separates(naming: Naming, s: Scope) {
    forall a, b :: a in s.messages && b in s.messages && Clash(naming, s.messages[a], s.messages[b]) ==> a == b
  }

  /** The archive cannot tell the senders and keys of two remote requests apart. */
  predicate Clash(naming: Naming, m: Message, n: Message) {
    && m.from.kind.RemoteKind? && n.from.kind.RemoteKind? && m.key.Some? && m.key == n.key
    && naming.Archived(m.from.id) == naming.Archived(n.from.id)
  }

  lemma RebornStamped(m: Message, naming: Naming)
    requires Stamped(m)
    ensures Stamped(Reborn(m, naming)) && Reborn(m, naming).state != Reserved
  {
  }

  lemma RebornRows(s: Scope, t: Scope, naming: Naming)
    requires Imports(s, t, naming) && MessageRows(s.messages, s.reservations, s.agents)
    ensures MessageRows(t.messages, t.reservations, t.agents)
  {
    hide Stamped, Reborn;
    forall id | id in t.messages ensures Stamped(t.messages[id]) && HeldBy(t.messages[id], t.reservations) && Ends(t.messages[id], t.agents) {
      RebornStamped(s.messages[id], naming);
      RebornEnds(s.messages[id], naming);
      assert Ends(s.messages[id], s.agents);
    }
  }

  lemma RebornEnds(m: Message, naming: Naming)
    ensures var n := Reborn(m, naming);
            && n.from == Renamed(m.from, naming) && n.to == Renamed(m.to, naming) && n.reservation.None? && n.mode == m.mode && n.key == m.key
            && n.responseTo == m.responseTo && n.response == m.response && n.repliedAt == m.repliedAt && n.deliveredAt == m.deliveredAt
            && n.createdAt == m.createdAt && n.expiresAt == m.expiresAt && n.body == m.body && n.context == m.context
            && (Live(n.state) <==> Live(m.state))
  {
  }

  lemma RebornKeys(s: Scope, t: Scope, naming: Naming)
    requires Imports(s, t, naming) && KeysUnique(s.messages)
    ensures KeysUnique(t.messages) <==> Separates(naming, s)
  {
    hide Reborn;
    if KeysUnique(t.messages) {
      forall a, b | a in s.messages && b in s.messages && Clash(naming, s.messages[a], s.messages[b]) ensures a == b {
        RebornEnds(s.messages[a], naming);
        RebornEnds(s.messages[b], naming);
        assert t.messages[a].key == t.messages[b].key && t.messages[a].from == t.messages[b].from;
      }
    }
    forall a, b | a in t.messages && b in t.messages && t.messages[a].key.Some? && t.messages[a].key == t.messages[b].key && t.messages[a].from == t.messages[b].from
      ensures Separates(naming, s) ==> a == b
    {
      RebornEnds(s.messages[a], naming);
      RebornEnds(s.messages[b], naming);
    }
  }

  lemma RebornThreads(s: Scope, t: Scope, naming: Naming)
    requires Imports(s, t, naming) && Threads(s.messages)
    ensures Threads(t.messages)
  {
    hide Reborn;
    forall id | id in t.messages ensures RepliesWell(t.messages, id) && RepliedWell(t.messages, id) {
      var m := s.messages[id];
      RebornEnds(m, naming);
      assert RepliesWell(s.messages, id) && RepliedWell(s.messages, id);
      if m.responseTo.Some? {
        RebornEnds(s.messages[m.responseTo.value], naming);
      }
      if m.response.Some? {
        RebornEnds(s.messages[m.response.value], naming);
      }
    }
  }

  lemma RebornRemote(s: Scope, t: Scope, naming: Naming)
    requires Imports(s, t, naming) && RemoteRows(s)
    ensures RemoteRows(t)
  {
    hide Reborn;
    forall id | id in t.correlations ensures CorrelationRow(t, id) {
      RebornWork(s, t, naming, id);
    }
    forall id | id in t.messages && t.messages[id].from.kind.RemoteKind? ensures id in t.correlations {
      RebornEnds(s.messages[id], naming);
    }
  }

  lemma RebornWork(s: Scope, t: Scope, naming: Naming, id: Id)
    requires Imports(s, t, naming) && RemoteRows(s) && id in t.correlations
    ensures CorrelationRow(t, id)
  {
    hide Reborn;
    assert CorrelationRow(s, id);
    RebornEnds(s.messages[id], naming);
  }

  lemma RebornTasks(s: Scope, t: Scope, naming: Naming)
    requires Imports(s, t, naming) && TaskRows(s.tasks, s.agents, {})
    ensures TaskRows(t.tasks, t.agents, {})
  {
    forall id | id in t.tasks ensures TaskRow(t.tasks[id], t.agents, {}) {
      assert TaskRow(s.tasks[id], s.agents, {});
    }
  }

  lemma RebornBoard(s: Scope, t: Scope, naming: Naming)
    requires Imports(s, t, naming) && Board(s.tasks)
    ensures Board(t.tasks)
  {
    var rank: map<Id, nat> :| Ranks(rank, s.tasks);
    assert Ranks(rank, t.tasks);
    forall id | id in t.tasks ensures Resolved(t.tasks, id) {
      assert Resolved(s.tasks, id);
    }
  }

  lemma {:induction false} SameText(rows: seq<Progress>)
    ensures TextBytes(Reattributed(rows)) == TextBytes(rows)
    decreases |rows|
  {
    if rows != [] {
      SameText(rows[..|rows| - 1]);
      assert Reattributed(rows)[..|rows| - 1] == Reattributed(rows[..|rows| - 1]);
    }
  }

  lemma RebornProgress(s: Scope, t: Scope, naming: Naming)
    requires Imports(s, t, naming) && ProgressRows(s.progress, s.tasks, s.agents)
    ensures ProgressRows(t.progress, t.tasks, t.agents)
  {
    forall id | id in t.progress ensures |t.progress[id]| <= PROGRESS_CAP && TextBytes(t.progress[id]) <= PROGRESS_BYTES {
      SameText(s.progress[id]);
    }
  }

  lemma RebornLog(s: Scope, t: Scope, naming: Naming)
    requires Imports(s, t, naming)
    ensures LogOk(t.log) && Agreement(t)
  {
    forall subject ensures Newest(t.log.events, subject) == None {
      assert t.log.events[..0] == [];
    }
  }

  lemma MintedAt(entries: seq<Entry<AgentRecord>>, world: World, id: Id) returns (i: nat)
    requires UniqueIds(entries) && (forall i, j :: world.mint(i) == world.mint(j) ==> i == j) && id in ImportedAgents(entries, world)
    ensures i < |entries| && entries[i].id == id
    ensures ImportedAgents(entries, world)[id].execution == world.mint(2 * i) && ImportedAgents(entries, world)[id].token == world.mint(2 * i + 1)
    ensures ImportedAgents(entries, world)[id].leaseExpiresAt == 0
    ensures world.mint(2 * i) in MintedFor(|entries|, world) && world.mint(2 * i + 1) in MintedFor(|entries|, world)
  {
    AgentsRead(entries, world);
    i :| 0 <= i < |entries| && entries[i].id == id;
    assert AgentAt(ImportedAgents(entries, world), entries, i, world);
  }

  lemma MintedAgents(entries: seq<Entry<AgentRecord>>, world: World, issued: set<Id>)
    requires UniqueIds(entries) && (forall i, j :: world.mint(i) == world.mint(j) ==> i == j) && MintedFor(|entries|, world) <= issued
    ensures AgentRows(ImportedAgents(entries, world), issued)
  {
    hide ImportedAgents, UniqueIds, MintedFor;
    var agents := ImportedAgents(entries, world);
    forall id | id in agents ensures agents[id].execution in issued && agents[id].token in issued && 0 <= agents[id].leaseExpiresAt {
      var i := MintedAt(entries, world, id);
    }
    forall x, y | x in agents && y in agents && agents[x].token == agents[y].token ensures x == y {
      var i := MintedAt(entries, world, x);
      var j := MintedAt(entries, world, y);
    }
  }

  lemma InsertIssues(s: Scope, naming: Naming, world: World, hosted: bool, now: Time, later: World)
    requires forall i, j :: later.mint(i) == later.mint(j) ==> i == j
    ensures var t := InsertArchive(Snapshot(s, naming, world), hosted, now, later);
            AgentRows(t.agents, t.issued) && t.clock == now
  {
    hide Append, MessagesIn, TasksIn, PublicationsIn, WorkIn, Written, ProgressOf, ProgressRecords, ImportedAgents, AgentRows, MintedFor, IdsOf, TableOf,
         WrittenAgents, WrittenMessages, WrittenTasks, WrittenPublications, WrittenRemote, WrittenWork, UniqueIds;
    AgentsWritten(s, world);
    MintedAgents(WrittenAgents(s, world), later, InsertArchive(Snapshot(s, naming, world), hosted, now, later).issued);
  }

  lemma InsertHands(s: Scope, naming: Naming, world: World, hosted: bool, now: Time, later: World)
    requires NumberedRows(s.progress)
    requires forall i, j :: later.mint(i) == later.mint(j) ==> i == j
    ensures Handed(InsertArchive(Snapshot(s, naming, world), hosted, now, later))
  {
    hide WrittenAgents, WrittenMessages, WrittenTasks, WrittenPublications, WrittenRemote, WrittenWork, UniqueIds, IdsOf, TableOf, ImportedAgents,
         MessagesIn, TasksIn, PublicationsIn, WorkIn, ProgressOf, ProgressRecords, Append;
    InsertImports(s, naming, world, hosted, now, later);
    MessagesWritten(s, naming, world);
    TasksWritten(s, world);
    PublicationsWritten(s, world);
    RemoteWritten(s, naming, world);
    WorkWritten(s, naming, world);
  }

  /** Importing what was written of a good scope gives a good scope exactly when the archive keeps its remote requests apart. */
  lemma ImportKeeps(s: Scope, naming: Naming, world: World, hosted: bool, now: Time, later: World)
    requires Inv(s) && 0 <= now && forall i, j :: later.mint(i) == later.mint(j) ==> i == j
    ensures Inv(InsertArchive(Snapshot(s, naming, world), hosted, now, later)) <==> Separates(naming, s)
  {
    hide InsertArchive, Snapshot, Imports, Separates, MessageRows, KeysUnique, AgentRows, TaskRows, Board, ProgressRows, Agreement, LogOk, RemoteRows, Threads, Handed;
    var t := InsertArchive(Snapshot(s, naming, world), hosted, now, later);
    NumberedIn(s);
    InsertImports(s, naming, world, hosted, now, later);
    InsertIssues(s, naming, world, hosted, now, later);
    InsertHands(s, naming, world, hosted, now, later);
    RebornRows(s, t, naming);
    RebornKeys(s, t, naming);
    RebornThreads(s, t, naming);
    RebornRemote(s, t, naming);
    RebornTasks(s, t, naming);
    RebornBoard(s, t, naming);
    RebornProgress(s, t, naming);
    RebornLog(s, t, naming);
    RebornElse(s, t, naming);
  }

  lemma RebornElse(s: Scope, t: Scope, naming: Naming)
    requires Imports(s, t, naming) && LinkRows(s.links, s.agents)
    ensures LinkRows(t.links, t.agents) && ReservationRows(t.reservations, t.agents, {})
  {
  }

  // ---- exporting again -----------------------------------------------------------------------

  lemma RecordAgain(m: Message, naming: Naming)
    ensures MessageToRecord(Reborn(m, naming), naming) == MessageToRecord(m, naming)
  {
    assert naming.portable(naming.Archived(m.from.id)) && naming.portable(naming.Archived(m.to.id));
  }

  lemma MessagesAgain(s: Scope, t: Scope, naming: Naming)
    requires Imports(s, t, naming)
    ensures MessageTable(t, naming) == MessageTable(s, naming)
  {
    hide Reborn, MessageToRecord;
    forall id | id in s.messages ensures MessageToRecord(t.messages[id], naming) == MessageToRecord(s.messages[id], naming) {
      RecordAgain(s.messages[id], naming);
    }
  }

  lemma TasksAgain(s: Scope, t: Scope, naming: Naming)
    requires Imports(s, t, naming) && TaskRows(s.tasks, s.agents, {})
    ensures TaskTable(t) == TaskTable(s)
  {
    hide Imports, TaskToRecord, RecordToTask, TaskRow;
    assert t.tasks == (map id | id in s.tasks :: RecordToTask(TaskToRecord(s.tasks[id]))) by { ImportsTasks(s, t, naming); }
    forall id | id in s.tasks ensures TaskToRecord(t.tasks[id]) == TaskToRecord(s.tasks[id]) {
      assert TaskRow(s.tasks[id], s.agents, {});
      TaskAgain(s.tasks[id], s.agents);
    }
  }

  lemma ImportsTasks(s: Scope, t: Scope, naming: Naming)
    requires Imports(s, t, naming)
    ensures t.tasks == (map id | id in s.tasks :: RecordToTask(TaskToRecord(s.tasks[id])))
  {
    hide RecordToTask, TaskToRecord;
  }

  lemma TaskAgain(task: Task, agents: map<Id, AgentRow>)
    requires TaskRow(task, agents, {})
    ensures TaskToRecord(RecordToTask(TaskToRecord(task))) == TaskToRecord(task)
  {
  }

  lemma RemoteAgain(s: Scope, t: Scope, naming: Naming)
    requires Imports(s, t, naming)
    ensures RemoteTable(t, naming) == RemoteTable(s, naming) && CorrelationTable(t, naming) == CorrelationTable(s, naming)
    ensures PublicationTable(t) == PublicationTable(s) && AgentTable(t) == AgentTable(s)
  {
    assert forall p :: naming.portable(naming.Archived(p));
  }

  lemma {:induction false} ProgressAgain(before: map<Id, seq<Progress>>, after: map<Id, seq<Progress>>, tasks: seq<Id>)
    requires before.Keys == after.Keys && forall id :: id in before ==> after[id] == Reattributed(before[id])
    ensures ProgressRecords(after, tasks) == ProgressRecords(before, tasks)
    decreases |tasks|
  {
    if tasks != [] {
      ProgressAgain(before, after, tasks[..|tasks| - 1]);
      var last := tasks[|tasks| - 1];
      if last in before {
        assert ProgressToRecords(last, after[last]) == ProgressToRecords(last, before[last]);
      }
    }
  }

  lemma WrittenAgain<T>(table: map<Id, T>, key: Id -> Time, world: World, later: World)
    ensures Written(table, key, world) == Written(table, key, later)
  {
    ListedIsSorted(table.Keys, key, world);
    ReadBack(table, Listed(table.Keys, key, world));
    ListedIsSorted(table.Keys, key, later);
    ReadBack(table, Listed(table.Keys, key, later));
    ListingIsFixed(table.Keys, key, key, world, later);
  }

  lemma TablesAgain(s: Scope, t: Scope, naming: Naming, world: World, later: World)
    requires MessageTable(t, naming) == MessageTable(s, naming) && TaskTable(t) == TaskTable(s)
    requires RemoteTable(t, naming) == RemoteTable(s, naming) && CorrelationTable(t, naming) == CorrelationTable(s, naming)
    requires PublicationTable(t) == PublicationTable(s) && AgentTable(t) == AgentTable(s)
    ensures WrittenAgents(t, later) == WrittenAgents(s, world) && WrittenMessages(t, naming, later) == WrittenMessages(s, naming, world)
    ensures WrittenTasks(t, later) == WrittenTasks(s, world) && WrittenPublications(t, later) == WrittenPublications(s, world)
    ensures WrittenRemote(t, naming, later) == WrittenRemote(s, naming, world) && WrittenWork(t, naming, later) == WrittenWork(s, naming, world)
  {
    hide Written, MessageTable, TaskTable, RemoteTable, CorrelationTable, PublicationTable, AgentTable, ById;
    WrittenAgain(AgentTable(s), ById(), world, later);
    WrittenAgain(MessageTable(s, naming), MessageAge(MessageTable(s, naming)), world, later);
    WrittenAgain(TaskTable(s), TaskAge(TaskTable(s)), world, later);
    WrittenAgain(PublicationTable(s), ById(), world, later);
    WrittenAgain(RemoteTable(s, naming), RemoteAge(RemoteTable(s, naming)), world, later);
    WrittenAgain(CorrelationTable(s, naming), CorrelationAge(CorrelationTable(s, naming)), world, later);
  }

  /** Writing an imported scope out again gives the archive it was imported from. */
  lemma SnapshotAgain(s: Scope, t: Scope, naming: Naming, world: World, later: World)
    requires Inv(s) && Imports(s, t, naming)
    ensures Snapshot(t, naming, later) == Snapshot(s, naming, world)
  {
    hide Inv, Written, WrittenAgents, WrittenMessages, WrittenTasks, WrittenPublications, WrittenRemote, WrittenWork, Listed, ProgressRecords,
         MessageTable, TaskTable, RemoteTable, CorrelationTable, PublicationTable, AgentTable;
    InvTasks(s);
    MessagesAgain(s, t, naming);
    TasksAgain(s, t, naming);
    RemoteAgain(s, t, naming);
    TablesAgain(s, t, naming, world, later);
    ListingIsFixed(s.tasks.Keys, ById(), ById(), world, later);
    assert t.tasks.Keys == s.tasks.Keys;
    ProgressAgain(s.progress, t.progress, Listed(s.tasks.Keys, ById(), world));
  }

  lemma InvTasks(s: Scope)
    requires Inv(s)
    ensures TaskRows(s.tasks, s.agents, {}) && s.progress.Keys == s.tasks.Keys
  {
  }

  // ---- an export is valid --------------------------------------------------------------------

  lemma {:induction false} LiveCounts(entries: seq<Entry<MessageRecord>>, live: set<Id>)
    requires UniqueIds(entries) && live == set i | 0 <= i < |entries| && Live(entries[i].row.state) :: entries[i].id
    ensures CountLive(entries) == |live|
  {
    if entries == [] {
      assert live == {};
    } else {
      var init := entries[..|entries| - 1];
      LiveCounts(init, LiveIds(init));
      LiveMore(entries);
      assert live == LiveIds(entries);
    }
  }

  function LiveIds(entries: seq<Entry<MessageRecord>>): set<Id> {
    set i | 0 <= i < |entries| && Live(entries[i].row.state) :: entries[i].id
  }

  lemma LiveMore(entries: seq<Entry<MessageRecord>>)
    requires UniqueIds(entries) && entries != []
    ensures UniqueIds(entries[..|entries| - 1])
    ensures |LiveIds(entries)| == |LiveIds(entries[..|entries| - 1])| + if Live(entries[|entries| - 1].row.state) then 1 else 0
  {
    hide Live;
    var init, last := entries[..|entries| - 1], entries[|entries| - 1];
    assert LiveIds(entries) == LiveIds(init) + if Live(last.row.state) then {last.id} else {};
    assert last.id !in LiveIds(init);
  }

  lemma {:induction false} OpenCounts(entries: seq<Entry<TaskRecord>>, open: set<Id>)
    requires UniqueIds(entries) && open == set i | 0 <= i < |entries| && entries[i].row.status == Open :: entries[i].id
    ensures CountOpen(entries) == |open|
  {
    if entries == [] {
      assert open == {};
    } else {
      var init := entries[..|entries| - 1];
      OpenCounts(init, OpenIds(init));
      OpenMore(entries);
      assert open == OpenIds(entries);
    }
  }

  function OpenIds(entries: seq<Entry<TaskRecord>>): set<Id> {
    set i | 0 <= i < |entries| && entries[i].row.status == Open :: entries[i].id
  }

  lemma OpenMore(entries: seq<Entry<TaskRecord>>)
    requires UniqueIds(entries) && entries != []
    ensures UniqueIds(entries[..|entries| - 1])
    ensures |OpenIds(entries)| == |OpenIds(entries[..|entries| - 1])| + if entries[|entries| - 1].row.status == Open then 1 else 0
  {
    var init, last := entries[..|entries| - 1], entries[|entries| - 1];
    assert OpenIds(entries) == OpenIds(init) + if last.row.status == Open then {last.id} else {};
    assert last.id !in OpenIds(init);
  }

  /** Each entry of an export is the record of its row. */
  lemma MessageEntry(s: Scope, naming: Naming, world: World, i: nat)
    requires i < |WrittenMessages(s, naming, world)|
    ensures var e := WrittenMessages(s, naming, world)[i];
            e.id in s.messages && e.row == MessageToRecord(s.messages[e.id], naming)
  {
    MessagesWritten(s, naming, world);
    TableAt(WrittenMessages(s, naming, world), i);
  }

  lemma BacklogCounts(s: Scope, naming: Naming, world: World)
    ensures CountLive(WrittenMessages(s, naming, world)) == |Backlog(s)|
  {
    hide WrittenMessages, TableOf;
    var entries := WrittenMessages(s, naming, world);
    var live := set i | 0 <= i < |entries| && Live(entries[i].row.state) :: entries[i].id;
    MessagesWritten(s, naming, world);
    LiveCounts(entries, live);
    forall id ensures id in live <==> id in Backlog(s) {
      if id in live {
        var i :| 0 <= i < |entries| && Live(entries[i].row.state) && entries[i].id == id;
        MessageEntry(s, naming, world, i);
      }
      if id in Backlog(s) {
        assert id in IdsOf(entries);
        var i :| 0 <= i < |entries| && entries[i].id == id;
        MessageEntry(s, naming, world, i);
      }
    }
    assert live == Backlog(s);
  }

  lemma MessagesAreValid(s: Scope, naming: Naming, world: World)
    requires MessageRows(s.messages, s.reservations, s.agents) && KeysUnique(s.messages) && |Backlog(s)| <= BACKLOG_CAP
    ensures ValidMessages(s.agents.Keys, WrittenMessages(s, naming, world)) <==> Separates(naming, s)
  {
    hide WrittenMessages, TableOf, CountLive, Backlog, Stamped;
    var entries := WrittenMessages(s, naming, world);
    MessagesWritten(s, naming, world);
    BacklogCounts(s, naming, world);
    forall i | 0 <= i < |entries| ensures KnownEnds(s.agents.Keys, entries[i].row) && entries[i].row.state != Reserved {
      MessageEntry(s, naming, world, i);
      assert Ends(s.messages[entries[i].id], s.agents);
    }
    if Separates(naming, s) {
      forall i, j | 0 <= i < j < |entries| ensures !SameKey(entries[i].row, entries[j].row) {
        MessageEntry(s, naming, world, i);
        MessageEntry(s, naming, world, j);
        assert entries[i].id != entries[j].id;
        KeysApart(s, naming, entries[i].id, entries[j].id);
      }
    }
    if ValidMessages(s.agents.Keys, entries) {
      forall a, b | a in s.messages && b in s.messages && Clash(naming, s.messages[a], s.messages[b]) ensures a == b {
        var i := EntryAt(s, naming, world, a);
        var j := EntryAt(s, naming, world, b);
        assert SameKey(entries[i].row, entries[j].row) && SameKey(entries[j].row, entries[i].row);
      }
    }
  }

  lemma EntryAt(s: Scope, naming: Naming, world: World, id: Id) returns (i: nat)
    requires id in s.messages
    ensures i < |WrittenMessages(s, naming, world)|
    ensures WrittenMessages(s, naming, world)[i] == Entry(id, MessageToRecord(s.messages[id], naming))
  {
    hide WrittenMessages, TableOf;
    var entries := WrittenMessages(s, naming, world);
    MessagesWritten(s, naming, world);
    assert id in IdsOf(entries);
    i :| 0 <= i < |entries| && entries[i].id == id;
    MessageEntry(s, naming, world, i);
  }

  lemma KeysApart(s: Scope, naming: Naming, a: Id, b: Id)
    requires KeysUnique(s.messages) && Separates(naming, s) && a in s.messages && b in s.messages && a != b
    ensures !SameKey(MessageToRecord(s.messages[a], naming), MessageToRecord(s.messages[b], naming))
  {
  }

  lemma RepliesAreValid(s: Scope, naming: Naming, world: World)
    requires MessageRows(s.messages, s.reservations, s.agents) && Threads(s.messages)
    ensures ValidReplies(WrittenMessages(s, naming, world))
  {
    hide WrittenMessages;
    var entries := WrittenMessages(s, naming, world);
    MessagesWritten(s, naming, world);
    forall i | 0 <= i < |entries| ensures ValidReply(TableOf(entries), entries[i].id, entries[i].row) && ValidStamps(entries[i].row) {
      MessageEntry(s, naming, world, i);
      assert RepliesWell(s.messages, entries[i].id) && RepliedWell(s.messages, entries[i].id);
      assert Stamped(s.messages[entries[i].id]);
      ReplyIsValid(s, naming, entries[i].id);
    }
  }

  lemma ReplyIsValid(s: Scope, naming: Naming, id: Id)
    requires id in s.messages && RepliesWell(s.messages, id) && RepliedWell(s.messages, id)
    requires s.messages[id].responseTo.Some? ==> s.messages[id].responseTo.value in s.messages && RepliedWell(s.messages, s.messages[id].responseTo.value)
    ensures ValidReply(MessageTable(s, naming), id, MessageToRecord(s.messages[id], naming))
  {
  }

  lemma TaskEntry(s: Scope, world: World, i: nat)
    requires i < |WrittenTasks(s, world)|
    ensures var e := WrittenTasks(s, world)[i]; e.id in s.tasks && e.row == TaskToRecord(s.tasks[e.id])
  {
    TasksWritten(s, world);
    TableAt(WrittenTasks(s, world), i);
  }

  lemma UnfinishedCounts(s: Scope, world: World)
    ensures CountOpen(WrittenTasks(s, world)) == |Unfinished(s)|
  {
    hide WrittenTasks, TableOf;
    var entries := WrittenTasks(s, world);
    var open := set i | 0 <= i < |entries| && entries[i].row.status == Open :: entries[i].id;
    TasksWritten(s, world);
    OpenCounts(entries, open);
    forall id ensures id in open <==> id in Unfinished(s) {
      if id in open {
        var i :| 0 <= i < |entries| && entries[i].row.status == Open && entries[i].id == id;
        TaskEntry(s, world, i);
      }
      if id in Unfinished(s) {
        assert id in IdsOf(entries);
        var i :| 0 <= i < |entries| && entries[i].id == id;
        TaskEntry(s, world, i);
      }
    }
    assert open == Unfinished(s);
  }

  lemma TasksAreValid(s: Scope, world: World)
    requires TaskRows(s.tasks, s.agents, {}) && |Unfinished(s)| <= ACTIVE_TASK_CAP
    ensures ValidTasks(s.agents.Keys, WrittenTasks(s, world))
  {
    hide WrittenTasks, TableOf, CountOpen, Unfinished;
    TasksWritten(s, world);
    UnfinishedCounts(s, world);
    forall i | 0 <= i < |WrittenTasks(s, world)| ensures ValidTask(s.agents.Keys, WrittenTasks(s, world)[i].row) {
      TaskEntry(s, world, i);
      assert TaskRow(s.tasks[WrittenTasks(s, world)[i].id], s.agents, {});
    }
  }

  lemma DependenciesAreValid(s: Scope, rank: map<Id, nat>, id: Id)
    requires Ranks(rank, s.tasks) && id in s.tasks && Resolved(s.tasks, id)
    ensures ValidDependencies(s.tasks.Keys, id, s.tasks[id].dependencies)
  {
    var dependencies := s.tasks[id].dependencies;
    forall k | 0 <= k < |dependencies| ensures dependencies[k] != id && dependencies[k] in s.tasks {
      assert dependencies[k] in dependencies;
    }
  }

  lemma GraphHasRank(s: Scope, world: World, rank: map<Id, nat>)
    requires Ranks(rank, s.tasks)
    ensures HasRank(Graph(WrittenTasks(s, world)))
  {
    hide WrittenTasks, TableOf;
    TasksWritten(s, world);
    assert Topological(rank, Graph(WrittenTasks(s, world)));
  }

  lemma GraphIsValid(s: Scope, world: World)
    requires Board(s.tasks)
    ensures ValidGraph(WrittenTasks(s, world))
  {
    hide WrittenTasks, TableOf, HasRank, Graph, Ranks, Resolved, IdsOf, ValidDependencies;
    var rank: map<Id, nat> :| Ranks(rank, s.tasks);
    var entries := WrittenTasks(s, world);
    TasksWritten(s, world);
    GraphHasRank(s, world, rank);
    forall i | 0 <= i < |entries| ensures ValidDependencies(IdsOf(entries), entries[i].id, entries[i].row.dependencies) {
      TaskEntry(s, world, i);
      DependenciesAreValid(s, rank, entries[i].id);
    }
  }

  lemma {:induction false} ProgressEntries(progress: map<Id, seq<Progress>>, tasks: seq<Id>, i: nat)
    requires i < |ProgressRecords(progress, tasks)|
    ensures var p := ProgressRecords(progress, tasks)[i];
            p.task in tasks && p.task in progress && exists k :: 0 <= k < |progress[p.task]| && FromRow(p, progress[p.task][k])
    decreases |tasks|
  {
    if tasks != [] {
      var init, last := tasks[..|tasks| - 1], tasks[|tasks| - 1];
      var n := |ProgressRecords(progress, init)|;
      if i < n {
        ProgressEntries(progress, init, i);
      } else {
        assert FromRow(ProgressRecords(progress, tasks)[i], progress[last][i - n]);
      }
    }
  }

  predicate FromRow(p: ProgressRecord, row: Progress) {
    p.sequence == row.sequence && p.agent == row.agent && p.text == row.text
  }

  lemma {:induction false} CountIsLength(records: seq<ProgressRecord>, task: Id)
    ensures CountOf(records, task) == |RowsOf(records, task)| && BytesOf(records, task) == TextBytes(RowsOf(records, task))
    ensures LastOf(records, task) == MaxSequence(RowsOf(records, task))
    decreases |records|
  {
    if records != [] {
      var init, last := records[..|records| - 1], records[|records| - 1];
      CountIsLength(init, task);
      if last.task == task {
        assert RowsOf(records, task)[..|RowsOf(init, task)|] == RowsOf(init, task);
      } else {
        assert RowsOf(records, task) == RowsOf(init, task);
      }
    }
  }

  /** Two records of one task have different numbers. */
  lemma {:induction false} NumbersDiffer(progress: map<Id, seq<Progress>>, tasks: seq<Id>, i: nat, j: nat)
    requires Distinct(tasks) && i < j < |ProgressRecords(progress, tasks)|
    requires forall id, k :: id in progress && 0 <= k < |progress[id]| ==> progress[id][k].sequence == k + 1
    ensures var records := ProgressRecords(progress, tasks);
            (records[i].task, records[i].sequence) != (records[j].task, records[j].sequence)
    decreases |tasks|
  {
    if tasks != [] {
      var init, last := tasks[..|tasks| - 1], tasks[|tasks| - 1];
      var n := |ProgressRecords(progress, init)|;
      SplitLast(tasks);
      if j < n {
        NumbersDiffer(progress, init, i, j);
      } else if i < n {
        ProgressEntries(progress, init, i);
      }
    }
  }

  lemma SequencesOf(rows: seq<Progress>)
    requires forall i :: 0 <= i < |rows| ==> rows[i].sequence == i + 1
    ensures MaxSequence(Reattributed(rows)) == |rows|
  {
    SequencesTo(Reattributed(rows));
  }

  lemma {:induction false} SequencesTo(rows: seq<Progress>)
    requires forall i :: 0 <= i < |rows| ==> rows[i].sequence == i + 1
    ensures MaxSequence(rows) == |rows|
    decreases |rows|
  {
    if rows != [] {
      SequencesTo(rows[..|rows| - 1]);
    }
  }

  lemma ProgressIsValid(s: Scope, world: World)
    requires ProgressRows(s.progress, s.tasks, s.agents)
    ensures ValidProgress(s.tasks.Keys, s.agents.Keys, WrittenProgress(s, world))
  {
    hide ProgressRecords, CountOf, BytesOf, LastOf, RowsOf, Listed;
    var tasks := Listed(s.tasks.Keys, ById(), world);
    ListedIsSorted(s.tasks.Keys, ById(), world);
    var records := WrittenProgress(s, world);
    forall i | 0 <= i < |records|
      ensures KnownProgress(s.tasks.Keys, s.agents.Keys, records[i]) && WithinLimits(records, records[i].task)
      ensures LastOf(records, records[i].task) == CountOf(records, records[i].task)
    {
      ProgressEntries(s.progress, tasks, i);
      var task := records[i].task;
      ProgressReads(s.progress, tasks, task);
      CountIsLength(records, task);
      SameText(s.progress[task]);
      SequencesOf(s.progress[task]);
    }
    forall i, j | 0 <= i < j < |records| ensures (records[i].task, records[i].sequence) != (records[j].task, records[j].sequence) {
      NumbersDiffer(s.progress, tasks, i, j);
    }
  }

  lemma PublicationsAreValid(s: Scope, world: World)
    requires RemoteRows(s)
    ensures ValidPublications(s.agents.Keys, WrittenPublications(s, world))
  {
    hide WrittenPublications;
    var entries := WrittenPublications(s, world);
    PublicationsWritten(s, world);
    forall i | 0 <= i < |entries| ensures entries[i].id in s.publications && entries[i].row == s.publications[entries[i].id].agent {
      TableAt(entries, i);
    }
    assert forall i, j :: 0 <= i < j < |entries| ==> entries[i].id != entries[j].id;
  }

  lemma RemoteEntry(s: Scope, naming: Naming, world: World, i: nat)
    requires i < |WrittenRemote(s, naming, world)|
    ensures var e := WrittenRemote(s, naming, world)[i]; e.id in s.remoteTasks && e.row == RemoteToRecord(s.remoteTasks[e.id], naming)
  {
    RemoteWritten(s, naming, world);
    TableAt(WrittenRemote(s, naming, world), i);
  }

  lemma RemoteTasksAreValid(s: Scope, naming: Naming, world: World)
    requires RemoteRows(s)
    ensures ValidRemoteTasks(s.agents.Keys, s.publications.Keys, WrittenRemote(s, naming, world))
  {
    hide WrittenRemote;
    RemoteWritten(s, naming, world);
    forall i | 0 <= i < |WrittenRemote(s, naming, world)|
      ensures var e := WrittenRemote(s, naming, world)[i]; e.row.publication in s.publications && e.row.target in s.agents
    {
      RemoteEntry(s, naming, world, i);
    }
  }

  lemma WorkEntry(s: Scope, naming: Naming, world: World, i: nat)
    requires i < |WrittenWork(s, naming, world)|
    ensures var e := WrittenWork(s, naming, world)[i]; e.id in s.correlations && e.row == CorrelationToRecord(s.correlations[e.id], naming)
  {
    WorkWritten(s, naming, world);
    TableAt(WrittenWork(s, naming, world), i);
  }

  lemma WorkIsValid(s: Scope, naming: Naming, id: Id)
    requires RemoteRows(s) && Threads(s.messages) && id in s.correlations
    ensures ValidCorrelation(RemoteTable(s, naming), MessageTable(s, naming), id, CorrelationToRecord(s.correlations[id], naming))
  {
    assert CorrelationRow(s, id) && RepliedWell(s.messages, id);
  }

  lemma CorrelationsAreValid(s: Scope, naming: Naming, world: World)
    requires Inv(s) && Separates(naming, s)
    ensures ValidCorrelations(RemoteTable(s, naming), MessageTable(s, naming), WrittenWork(s, naming, world))
  {
    hide WrittenWork, Core, ValidCorrelation, Threads, RemoteRows, RemoteTable, MessageTable, Separates;
    var entries := WrittenWork(s, naming, world);
    WorkWritten(s, naming, world);
    forall i | 0 <= i < |entries| ensures ValidCorrelation(RemoteTable(s, naming), MessageTable(s, naming), entries[i].id, entries[i].row) {
      WorkEntry(s, naming, world, i);
      WorkIsValid(s, naming, entries[i].id);
    }
    forall i, j | 0 <= i < j < |entries| ensures (entries[i].row.principal, entries[i].row.client) != (entries[j].row.principal, entries[j].row.client) {
      WorkEntry(s, naming, world, i);
      WorkEntry(s, naming, world, j);
      SamePrincipal(s, naming, entries[i].id, entries[j].id);
    }
  }

  lemma SamePrincipal(s: Scope, naming: Naming, a: Id, b: Id)
    requires Inv(s) && Separates(naming, s) && a in s.correlations && b in s.correlations && a != b
    ensures naming.Archived(s.correlations[a].principal) == naming.Archived(s.correlations[b].principal) ==> s.correlations[a].client != s.correlations[b].client
  {
    hide Core, Threads;
    assert CorrelationRow(s, a) && CorrelationRow(s, b);
    if s.correlations[a].principal == s.correlations[b].principal && s.correlations[a].client == s.correlations[b].client {
      OneRequestForEach(s, a, b);
    }
  }

  /** What is written of a good scope within its limits is valid exactly when the archive keeps its remote requests apart. */
  lemma SnapshotIsValid(s: Scope, naming: Naming, world: World)
    requires Inv(s) && WithinCaps(s)
    ensures Valid(Snapshot(s, naming, world)) <==> Separates(naming, s)
  {
    hide WrittenAgents, WrittenMessages, WrittenTasks, WrittenPublications, WrittenRemote, WrittenWork, WrittenProgress, UniqueIds, IdsOf, TableOf, Separates,
         ValidMessages, ValidReplies, ValidTasks, ValidGraph, ValidProgress, ValidPublications, ValidRemoteTasks, ValidCorrelations,
         MessageRows, KeysUnique, AgentRows, TaskRows, Board, ProgressRows, Agreement, LogOk, RemoteRows, Threads, Backlog, Unfinished, ReservationRows;
    AgentsWritten(s, world);
    MessagesWritten(s, naming, world);
    TasksWritten(s, world);
    PublicationsWritten(s, world);
    RemoteWritten(s, naming, world);
    MessagesAreValid(s, naming, world);
    RepliesAreValid(s, naming, world);
    TasksAreValid(s, world);
    GraphIsValid(s, world);
    ProgressIsValid(s, world);
    PublicationsAreValid(s, world);
    RemoteTasksAreValid(s, naming, world);
    if Separates(naming, s) {
      CorrelationsAreValid(s, naming, world);
    }
  }

  // ---- export and import ---------------------------------------------------------------------

  /** bus/archive.go ExportScope. */
  ghost function Export(s: Scope, naming: Naming, world: World): Outcome<Archive> {
    if Active(s, world.tick(0)) != {} then Outcome(s, Refused(Conflict)) else
      var s1 := Expire(s, world.tick(1), world);
      var a := Snapshot(s1, naming, world);
      if !Valid(a) then Outcome(s, Refused(InvalidArgument)) else Outcome(s1, Ok(a))
  }

  /** A second row for the same bus request or response breaks a unique constraint. */
  ghost predicate Conflicting(a: Archive) {
    || !UniqueIds(a.correlations)
    || exists i, j :: 0 <= i < j < |a.correlations| && a.correlations[i].row.response.Some? && a.correlations[i].row.response == a.correlations[j].row.response
  }

  /** bus/archive.go ImportScope, into a scope that does not exist yet. */
  ghost function Import(a: Archive, hosted: bool, world: World): Result<Scope> {
    if !Valid(a) || Conflicting(a) then Refused(InvalidArgument) else Ok(InsertArchive(a, hosted, world.tick(0), world))
  }

  lemma SeparatesKept(s: Scope, naming: Naming, now: Time, world: World)
    requires Inv(s)
    ensures Separates(naming, Expire(s, now, world)) <==> Separates(naming, s)
  {
    hide Inv, Expire, Keeps;
    ExpireAlone(s, now, world);
    SameSenders(s, Expire(s, now, world));
  }

  lemma SameSenders(s: Scope, t: Scope)
    requires Keeps(s, t) && t.messages.Keys == s.messages.Keys
    ensures forall id :: id in s.messages ==> t.messages[id].from == s.messages[id].from && t.messages[id].key == s.messages[id].key
  {
    forall id | id in s.messages ensures t.messages[id].from == s.messages[id].from && t.messages[id].key == s.messages[id].key {
      assert MessageEvolved(s.messages[id], t.messages[id]);
    }
  }

  lemma ExpiredScope(s: Scope, now: Time, world: World)
    requires Inv(s) && WithinCaps(s)
    ensures Inv(Expire(s, now, world)) && WithinCaps(Expire(s, now, world))
  {
    hide Inv, Expire, Keeps, WithinCaps, Evolves, StaysWithin;
    ExpireAlone(s, now, world);
    KeptIsInv(s, Expire(s, now, world));
    KeptWithin(s, Expire(s, now, world));
    CapsKept(s, Expire(s, now, world));
  }

  /** The export of a good scope is refused exactly while an execution is active, or when two of its remote requests
      would be archived under one sender and identifier. */
  lemma ExportSucceeds(s: Scope, naming: Naming, world: World)
    requires Inv(s) && WithinCaps(s)
    ensures Export(s, naming, world).result.Ok? <==> Active(s, world.tick(0)) == {} && Separates(naming, s)
  {
    hide Inv, Expire, WithinCaps, Separates, Valid, Snapshot, Active;
    ExpiredScope(s, world.tick(1), world);
    SeparatesKept(s, naming, world.tick(1), world);
    SnapshotIsValid(Expire(s, world.tick(1), world), naming, world);
  }

  lemma SnapshotHasNoConflict(s: Scope, naming: Naming, world: World)
    requires Inv(s)
    ensures !Conflicting(Snapshot(s, naming, world))
  {
    hide WrittenAgents, WrittenMessages, WrittenTasks, WrittenPublications, WrittenRemote, WrittenWork, WrittenProgress, Core;
    var entries := WrittenWork(s, naming, world);
    WorkWritten(s, naming, world);
    forall i, j | 0 <= i < j < |entries| && entries[i].row.response.Some? ensures entries[i].row.response != entries[j].row.response {
      WorkEntry(s, naming, world, i);
      WorkEntry(s, naming, world, j);
      assert CorrelationRow(s, entries[i].id) && CorrelationRow(s, entries[j].id);
      assert RepliedWell(s.messages, entries[i].id) && RepliedWell(s.messages, entries[j].id);
      assert entries[i].id != entries[j].id;
    }
  }

  /** An imported scope has nobody active and nothing due at the reading of the export. */
  lemma ImportedIsQuiet(s: Scope, t: Scope, naming: Naming, now: Time, world: World)
    requires Imports(s, t, naming) && Due(s, now) == {}
    ensures Active(t, now) == {} && Expire(t, now, world) == t
  {
    hide Reborn;
    forall id | id in t.messages ensures id !in Due(t, now) {
      RebornEnds(s.messages[id], naming);
      assert id !in Due(s, now);
    }
    assert Due(t, now) == {};
    assert Lists(world.order({}), {});
    ListedSize(world.order({}), {});
  }

  lemma NoneActive(s: Scope, t: Scope, naming: Naming, now: Time)
    requires Imports(s, t, naming)
    ensures Active(t, now) == {}
  {
  }

  /** The fixpoint: whatever is exported of a good scope can be imported, the import is a good scope, and exporting
      it at the same clock reading gives the same archive and leaves it as it is. */
  lemma ArchiveFixpoint(s: Scope, naming: Naming, world: World, hosted: bool, importing: World, again: World)
    requires Inv(s) && WithinCaps(s) && Export(s, naming, world).result.Ok?
    requires 0 <= importing.tick(0) && (forall i, j :: importing.mint(i) == importing.mint(j) ==> i == j)
    requires again.tick(1) == world.tick(1)
    ensures var exported := Export(s, naming, world).result;
            var imported := Import(exported.value, hosted, importing);
            && imported.Ok? && Inv(imported.value)
            && Export(imported.value, naming, again) == Outcome(imported.value, exported)
  {
    hide Inv, Expire, WithinCaps, Separates, Valid, Snapshot, Active, Conflicting, InsertArchive, Imports;
    ExportSucceeds(s, naming, world);
    var s1 := Expire(s, world.tick(1), world);
    ExpiredScope(s, world.tick(1), world);
    SeparatesKept(s, naming, world.tick(1), world);
    var a := Snapshot(s1, naming, world);
    SnapshotIsValid(s1, naming, world);
    SnapshotHasNoConflict(s1, naming, world);
    var t := InsertArchive(a, hosted, importing.tick(0), importing);
    NumberedIn(s1);
    InsertImports(s1, naming, world, hosted, importing.tick(0), importing);
    ImportKeeps(s1, naming, world, hosted, importing.tick(0), importing);
    SnapshotAgain(s1, t, naming, world, again);
    NothingDueAfter(s, world.tick(1), world);
    ImportedIsQuiet(s1, t, naming, again.tick(1), again);
    NoneActive(s1, t, naming, again.tick(0));
  }

  lemma NothingDueAfter(s: Scope, now: Time, world: World)
    requires Inv(s)
    ensures Due(Expire(s, now, world), now) == {}
  {
    ExpireIsComplete(s, now, world);
  }

  lemma ImportWithinCaps(s: Scope, t: Scope, naming: Naming)
    requires Imports(s, t, naming) && WithinCaps(s)
    ensures WithinCaps(t)
  {
    hide Reborn;
    forall id ensures id in Backlog(t) <==> id in Backlog(s) {
      if id in s.messages {
        RebornEnds(s.messages[id], naming);
      }
    }
    assert Backlog(t) == Backlog(s) && Unfinished(t) == Unfinished(s);
  }

  // ---- exports along runs --------------------------------------------------------------------

  /** Every name that a remote sender of the scope has, or could still send under. */
  function Principals(s: Scope): set<Id> {
    (set id | id in s.messages && s.messages[id].from.kind.RemoteKind? :: s.messages[id].from.id) + s.credentials.Keys
  }

  /** No two of these names are archived under one. */
  ghost predicate Apart(naming: Naming, names: set<Id>) {
    forall p, q :: p in names && q in names && naming.Archived(p) == naming.Archived(q) ==> p == q
  }

  /** The digest never takes two names to one. */
  ghost predicate Injective(naming: Naming) {
    forall p, q :: !naming.portable(p) && !naming.portable(q) && naming.digest(p) == naming.digest(q) ==> p == q
  }

  /** The credentials issued since have names of their own: none is an archived name, and the digest of none is in use. */
  ghost predicate IssuesNewNames(naming: Naming, s: Scope, t: Scope) {
    forall p :: p in t.credentials && p !in s.credentials ==> !naming.portable(p) && naming.digest(p) !in Principals(s)
  }

  lemma ApartSeparates(s: Scope, naming: Naming)
    requires Inv(s) && Apart(naming, Principals(s))
    ensures Separates(naming, s)
  {
    hide MessageRows, ReservationRows, AgentRows, TaskRows, Board, ProgressRows, Agreement, LogOk, LinkRows, Threads, RemoteRows, Handed;
    forall a, b | a in s.messages && b in s.messages && Clash(naming, s.messages[a], s.messages[b]) ensures a == b {
      assert s.messages[a].from.id in Principals(s) && s.messages[b].from.id in Principals(s);
    }
  }

  /** Whoever can send has sent before, or holds a credential issued since. */
  lemma PrincipalsGrow(s: Scope, t: Scope, p: Id)
    requires Evolves(s, t) && p in Principals(t)
    ensures p in Principals(s) || (p in t.credentials && p !in s.credentials)
  {
    if p !in t.credentials {
      var id :| id in t.messages && t.messages[id].from.kind.RemoteKind? && t.messages[id].from.id == p;
      assert id in s.messages && MessageEvolved(s.messages[id], t.messages[id]);
      assert s.messages[id].from.id in Principals(s);
    }
  }

  lemma ApartStays(s: Scope, t: Scope, naming: Naming)
    requires Evolves(s, t) && Apart(naming, Principals(s)) && Injective(naming) && IssuesNewNames(naming, s, t)
    ensures Apart(naming, Principals(t))
  {
    hide Evolves, Principals;
    forall p, q | p in Principals(t) && q in Principals(t) && naming.Archived(p) == naming.Archived(q) ensures p == q {
      PrincipalsGrow(s, t, p);
      PrincipalsGrow(s, t, q);
    }
  }

  /** Along any run whose new credentials have names of their own, an export is refused only while an execution is active. */
  lemma RunsExport(s: Scope, naming: Naming, turns: seq<Turn>, world: World)
    requires Inv(s) && WithinCaps(s) && Apart(naming, Principals(s)) && Unfolds(s, turns)
    requires Injective(naming) && IssuesNewNames(naming, s, Run(s, turns))
    ensures Inv(Run(s, turns)) && WithinCaps(Run(s, turns)) && Apart(naming, Principals(Run(s, turns)))
    ensures Export(Run(s, turns), naming, world).result.Ok? <==> Active(Run(s, turns), world.tick(0)) == {}
  {
    hide Inv, WithinCaps, Separates, Apart, Evolves, Run, Unfolds, Export, Active, Injective, IssuesNewNames;
    RunKeeps(s, turns);
    RunKeepsCaps(s, turns);
    ApartStays(s, Run(s, turns), naming);
    ApartSeparates(Run(s, turns), naming);
    ExportSucceeds(Run(s, turns), naming, world);
  }

  /** Nobody has sent anything yet. */
  lemma FreshIsApart(hosted: bool, naming: Naming)
    ensures Inv(Fresh(hosted)) && WithinCaps(Fresh(hosted)) && Apart(naming, Principals(Fresh(hosted)))
  {
    FreshIsGood(hosted, Limits(0, 0));
    assert Backlog(Fresh(hosted)) == {} && Unfinished(Fresh(hosted)) == {};
  }

  /** All that an import knows of remote senders are archived names, which an archive keeps as they are. */
  lemma ImportIsApart(s: Scope, t: Scope, naming: Naming)
    requires Imports(s, t, naming)
    ensures Apart(naming, Principals(t))
  {
    hide Reborn;
    forall p | p in Principals(t) ensures naming.Archived(p) == p {
      var id :| id in t.messages && t.messages[id].from.kind.RemoteKind? && t.messages[id].from.id == p;
      RebornEnds(s.messages[id], naming);
      assert naming.portable(naming.Archived(s.messages[id].from.id));
    }
  }

  /** Life after an import: whatever was exported of a good scope can be imported, and however the import runs on, it is
      good throughout, within its limits, and can be exported again whenever nobody is active. */
  lemma RunsGoOn(s: Scope, naming: Naming, world: World, hosted: bool, importing: World, t: Scope, turns: seq<Turn>, again: World)
    requires Inv(s) && WithinCaps(s) && Export(s, naming, world).result.Ok?
    requires 0 <= importing.tick(0) && (forall i, j :: importing.mint(i) == importing.mint(j) ==> i == j)
    requires Import(Export(s, naming, world).result.value, hosted, importing) == Ok(t)
    requires Unfolds(t, turns) && Injective(naming) && IssuesNewNames(naming, t, Run(t, turns))
    ensures Inv(Run(t, turns)) && WithinCaps(Run(t, turns))
    ensures Export(Run(t, turns), naming, again).result.Ok? <==> Active(Run(t, turns), again.tick(0)) == {}
  {
    hide Inv, Expire, WithinCaps, Separates, Valid, Snapshot, Active, InsertArchive, Imports, Run, Unfolds, Evolves, Conflicting, Injective, IssuesNewNames, Apart;
    ExportSucceeds(s, naming, world);
    var s1 := Expire(s, world.tick(1), world);
    ExpiredScope(s, world.tick(1), world);
    SeparatesKept(s, naming, world.tick(1), world);
    NumberedIn(s1);
    InsertImports(s1, naming, world, hosted, importing.tick(0), importing);
    ImportKeeps(s1, naming, world, hosted, importing.tick(0), importing);
    ImportWithinCaps(s1, t, naming);
    ImportIsApart(s1, t, naming);
    RunsExport(t, naming, turns, again);
  }
}
