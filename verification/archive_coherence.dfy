/** When an archive that the validator accepts imports into a good scope. */
module ArchiveCoherence {
  import opened Model
  import opened Logs
  import opened Scopes
  import opened RemoteWork
  import opened Invariants
  import opened TaskSearch
  import opened Tables
  import opened Archives
  import opened ArchiveChecks
  import opened ArchiveLaws
  import opened ArchiveProgress
  import Runs

  // ---- what the validator does not ask -------------------------------------------------------

  /** A done task has its dependencies done. */
  predicate FinishedInOrder(tasks: map<Id, TaskRecord>) {
    forall id, d :: id in tasks && d in tasks[id].dependencies && d in tasks && tasks[id].status == Done ==> tasks[d].status == Done
  }

  /** A request goes to an agent, and an expiry lies after the creation. */
  predicate SensibleRow(m: MessageRecord) {
    && (m.mode == Request ==> m.to.kind.AgentKind?)
    && (m.expiresAt.Some? ==> m.createdAt < m.expiresAt.value)
  }

  /** An answered request was delivered. */
  predicate AnswersDelivered(messages: map<Id, MessageRecord>) {
    forall id :: id in messages && messages[id].responseTo.Some? && messages[id].responseTo.value in messages
      ==> messages[messages[id].responseTo.value].deliveredAt.Some?
  }

  /** Every message of a remote sender is correlated, under its own key and with its own response. */
  predicate FullyCorrelated(messages: map<Id, MessageRecord>, work: map<Id, CorrelationRecord>) {
    && (forall id :: id in messages && messages[id].from.kind.RemoteKind? ==> id in work)
    && (forall id :: id in work && id in messages ==> messages[id].key == Some(work[id].client) && messages[id].response == work[id].response)
  }

  predicate Coherent(a: Archive) {
    && FinishedInOrder(TableOf(a.tasks))
    && (forall i :: 0 <= i < |a.messages| ==> SensibleRow(a.messages[i].row))
    && AnswersDelivered(TableOf(a.messages))
    && FullyCorrelated(TableOf(a.messages), TableOf(a.correlations))
  }

  // ---- message rows --------------------------------------------------------------------------

  lemma RowStamped(m: MessageRecord)
    requires ValidStamps(m) && m.state != Reserved
    ensures Stamped(RecordToMessage(m)) <==> SensibleRow(m)
  {
  }

  lemma RowEnds(m: MessageRecord, agents: map<Id, AgentRow>)
    requires KnownEnds(agents.Keys, m)
    ensures Ends(RecordToMessage(m), agents)
  {
  }

  /** What a valid archive says of one message. */
  lemma RowOf(agents: set<Id>, entries: seq<Entry<MessageRecord>>, id: Id) returns (i: nat)
    requires ValidMessages(agents, entries) && ValidReplies(entries) && id in TableOf(entries)
    ensures i < |entries| && entries[i].id == id && entries[i].row == TableOf(entries)[id]
    ensures KnownEnds(agents, entries[i].row) && entries[i].row.state != Reserved && ValidStamps(entries[i].row)
    ensures ValidReply(TableOf(entries), id, entries[i].row)
  {
    hide ValidStamps, ValidReply, KnownEnds, TableOf, CountLive;
    i := TableRow(entries, id);
  }

  lemma MessageRowsMean(agents: map<Id, AgentRow>, entries: seq<Entry<MessageRecord>>)
    requires ValidMessages(agents.Keys, entries) && ValidReplies(entries)
    ensures MessageRows(MessagesIn(entries), map[], agents) <==> forall i :: 0 <= i < |entries| ==> SensibleRow(entries[i].row)
  {
    hide Stamped, SensibleRow, TableOf, ValidMessages, ValidReplies, ValidStamps, KnownEnds, RecordToMessage, Ends, HeldBy;
    var table, messages := TableOf(entries), MessagesIn(entries);
    forall id | id in table ensures Stamped(messages[id]) <==> SensibleRow(table[id]) {
      var i := RowOf(agents.Keys, entries, id);
      RowStamped(table[id]);
    }
    forall id | id in messages ensures Ends(messages[id], agents) && HeldBy(messages[id], map[]) {
      var i := RowOf(agents.Keys, entries, id);
      RowEnds(table[id], agents);
      NotHeld(table[id]);
    }
    if MessageRows(messages, map[], agents) {
      forall i | 0 <= i < |entries| ensures SensibleRow(entries[i].row) {
        RowAt(agents.Keys, entries, i);
      }
    }
    if forall i :: 0 <= i < |entries| ==> SensibleRow(entries[i].row) {
      forall id | id in messages ensures Stamped(messages[id]) {
        var i := RowOf(agents.Keys, entries, id);
      }
    }
  }

  lemma NotHeld(m: MessageRecord)
    ensures HeldBy(RecordToMessage(m), map[])
  {
  }

  lemma RowAt(agents: set<Id>, entries: seq<Entry<MessageRecord>>, i: nat)
    requires ValidMessages(agents, entries) && i < |entries|
    ensures entries[i].id in TableOf(entries) && TableOf(entries)[entries[i].id] == entries[i].row
  {
    hide TableOf, CountLive;
    TableAt(entries, i);
  }

  lemma KeysAreUnique(agents: set<Id>, entries: seq<Entry<MessageRecord>>)
    requires ValidMessages(agents, entries) && ValidReplies(entries)
    ensures KeysUnique(MessagesIn(entries))
  {
    hide TableOf, ValidReplies, CountLive;
    var messages := MessagesIn(entries);
    forall a, b | a in messages && b in messages && messages[a].key.Some? && messages[a].key == messages[b].key && messages[a].from == messages[b].from
      ensures a == b
    {
      var i := RowOf(agents, entries, a);
      var j := RowOf(agents, entries, b);
      assert SameKey(entries[i].row, entries[j].row) && SameKey(entries[j].row, entries[i].row);
    }
  }

  // ---- threads -------------------------------------------------------------------------------

  lemma ThreadsMean(agents: set<Id>, entries: seq<Entry<MessageRecord>>)
    requires ValidMessages(agents, entries) && ValidReplies(entries)
    ensures Threads(MessagesIn(entries)) <==> AnswersDelivered(TableOf(entries))
  {
    hide TableOf, ValidMessages, ValidReplies;
    var table, messages := TableOf(entries), MessagesIn(entries);
    forall id | id in table
      ensures RepliedWell(messages, id)
      ensures RepliesWell(messages, id) <==> (table[id].responseTo.Some? && table[id].responseTo.value in table ==> table[table[id].responseTo.value].deliveredAt.Some?)
    {
      var i := RowOf(agents, entries, id);
    }
    if Threads(messages) {
      forall id | id in table && table[id].responseTo.Some? && table[id].responseTo.value in table ensures table[table[id].responseTo.value].deliveredAt.Some? {
        assert RepliesWell(messages, id);
      }
    }
  }

  // ---- tasks ---------------------------------------------------------------------------------

  lemma TaskOf(agents: set<Id>, entries: seq<Entry<TaskRecord>>, id: Id) returns (i: nat)
    requires ValidTasks(agents, entries) && id in TableOf(entries)
    ensures i < |entries| && entries[i].id == id && entries[i].row == TableOf(entries)[id] && ValidTask(agents, entries[i].row)
  {
    hide ValidTask, TableOf, CountOpen;
    i := TableRow(entries, id);
  }

  lemma TaskRowsHold(agents: map<Id, AgentRow>, entries: seq<Entry<TaskRecord>>)
    requires ValidTasks(agents.Keys, entries)
    ensures TaskRows(TasksIn(entries), agents, {})
  {
    hide TableOf, ValidTasks;
    forall id | id in TasksIn(entries) ensures TaskRow(TasksIn(entries)[id], agents, {}) {
      var i := TaskOf(agents.Keys, entries, id);
    }
  }

  lemma GraphAcyclic(entries: seq<Entry<TaskRecord>>)
    requires HasRank(Graph(entries))
    ensures Acyclic(TasksIn(entries))
  {
    hide TableOf;
    var rank: map<Id, nat> :| Topological(rank, Graph(entries));
    assert Ranks(rank, TasksIn(entries));
  }

  lemma DependenciesHold(agents: set<Id>, entries: seq<Entry<TaskRecord>>, id: Id)
    requires ValidTasks(agents, entries) && ValidGraph(entries) && id in TableOf(entries)
    ensures var dependencies := TableOf(entries)[id].dependencies;
            Distinct(dependencies) && forall d :: d in dependencies ==> d in TableOf(entries)
  {
    hide TableOf, ValidTasks, HasRank, Graph;
    var i := TaskOf(agents, entries, id);
    TableIds(entries);
    assert ValidDependencies(IdsOf(entries), entries[i].id, entries[i].row.dependencies);
  }

  lemma BoardMeans(agents: set<Id>, entries: seq<Entry<TaskRecord>>)
    requires ValidTasks(agents, entries) && ValidGraph(entries)
    ensures Board(TasksIn(entries)) <==> FinishedInOrder(TableOf(entries))
  {
    hide TableOf, ValidTasks, HasRank, Graph, Acyclic;
    var table, tasks := TableOf(entries), TasksIn(entries);
    GraphAcyclic(entries);
    forall id | id in table ensures Resolved(tasks, id) <==> (forall d :: d in table[id].dependencies && d in table && table[id].status == Done ==> table[d].status == Done) {
      DependenciesHold(agents, entries, id);
      var i := TaskOf(agents, entries, id);
    }
    if Board(tasks) {
      forall id, d | id in table && d in table[id].dependencies && d in table && table[id].status == Done ensures table[d].status == Done {
        assert Resolved(tasks, id);
      }
    }
    if FinishedInOrder(table) {
      forall id | id in tasks ensures Resolved(tasks, id) {
        DependenciesHold(agents, entries, id);
      }
    }
  }

  // ---- remote work ---------------------------------------------------------------------------

  lemma WorkOf(tasks: map<Id, RemoteTask>, messages: map<Id, MessageRecord>, entries: seq<Entry<CorrelationRecord>>, id: Id)
    requires ValidCorrelations(tasks, messages, entries) && UniqueIds(entries) && id in TableOf(entries)
    ensures ValidCorrelation(tasks, messages, id, TableOf(entries)[id])
  {
    hide TableOf, ValidCorrelation;
    var i := TableRow(entries, id);
  }

  /** One correlated request of an imported scope. */
  lemma CorrelationMeans(t: Scope, messages: map<Id, MessageRecord>, work: map<Id, CorrelationRecord>, id: Id)
    requires t.messages == (map id | id in messages :: RecordToMessage(messages[id])) && t.correlations == (map id | id in work :: RecordToCorrelation(work[id]))
    requires id in work && ValidCorrelation(t.remoteTasks, messages, id, work[id])
    ensures CorrelationRow(t, id) <==> messages[id].key == Some(work[id].client) && messages[id].response == work[id].response
  {
  }

  /** Every correlation of the scope is a request of its principal, and every remote request is correlated. */
  ghost predicate WorkRows(t: Scope) {
    && (forall id :: id in t.correlations ==> CorrelationRow(t, id))
    && (forall id :: id in t.messages && t.messages[id].from.kind.RemoteKind? ==> id in t.correlations)
  }

  lemma WorkMeans(t: Scope, a: Archive)
    requires ValidCorrelations(TableOf(a.remoteTasks), TableOf(a.messages), a.correlations) && UniqueIds(a.correlations)
    requires t.messages == MessagesIn(a.messages) && t.correlations == WorkIn(a.correlations) && t.remoteTasks == TableOf(a.remoteTasks)
    ensures WorkRows(t) <==> FullyCorrelated(TableOf(a.messages), TableOf(a.correlations))
  {
    hide TableOf, ValidCorrelations, ValidCorrelation, UniqueIds, CorrelationRow, RecordToCorrelation, RecordToMessage;
    var messages, work := TableOf(a.messages), TableOf(a.correlations);
    forall id | id in work
      ensures id in messages
      ensures CorrelationRow(t, id) <==> messages[id].key == Some(work[id].client) && messages[id].response == work[id].response
    {
      WorkOf(TableOf(a.remoteTasks), messages, a.correlations, id);
      RequestIsThere(TableOf(a.remoteTasks), messages, id, work[id]);
      CorrelationMeans(t, messages, work, id);
    }
    forall id | id in messages ensures t.messages[id].from == messages[id].from {
      SameSender(messages[id]);
    }
    if WorkRows(t) {
      forall id | id in messages && messages[id].from.kind.RemoteKind? ensures id in work {
        assert id in t.messages && t.messages[id].from.kind.RemoteKind?;
      }
      forall id | id in work && id in messages ensures messages[id].key == Some(work[id].client) && messages[id].response == work[id].response {
        assert id in t.correlations;
      }
    }
    if FullyCorrelated(messages, work) {
      forall id | id in t.correlations ensures CorrelationRow(t, id) {
        assert id in work;
      }
    }
  }

  lemma SameSender(m: MessageRecord)
    ensures RecordToMessage(m).from == m.from
  {
  }

  lemma RequestIsThere(tasks: map<Id, RemoteTask>, messages: map<Id, MessageRecord>, id: Id, c: CorrelationRecord)
    requires ValidCorrelation(tasks, messages, id, c)
    ensures id in messages
  {
  }

  lemma RemoteTasksHold(agents: set<Id>, a: Archive)
    requires ValidPublications(agents, a.publications) && ValidRemoteTasks(agents, IdsOf(a.publications), a.remoteTasks)
    ensures var tasks, publications := TableOf(a.remoteTasks), PublicationsIn(a.publications);
            && (forall id :: id in tasks ==> tasks[id].publication in publications && tasks[id].target in agents)
            && (forall id :: id in publications ==> publications[id].agent in agents)
            && (forall x, y :: x in publications && y in publications && publications[x].agent == publications[y].agent ==> x == y)
  {
    hide TableOf;
    var tasks, publications := TableOf(a.remoteTasks), PublicationsIn(a.publications);
    TableIds(a.publications);
    forall id | id in tasks ensures tasks[id].publication in publications && tasks[id].target in agents {
      var i := TableRow(a.remoteTasks, id);
    }
    forall id | id in publications ensures publications[id].agent in agents {
      var i := TableRow(a.publications, id);
    }
    forall x, y | x in publications && y in publications && publications[x].agent == publications[y].agent ensures x == y {
      var i := TableRow(a.publications, x);
      var j := TableRow(a.publications, y);
    }
  }

  lemma RemoteMeans(t: Scope, a: Archive)
    requires ValidPublications(t.agents.Keys, a.publications) && ValidRemoteTasks(t.agents.Keys, IdsOf(a.publications), a.remoteTasks)
    requires ValidCorrelations(TableOf(a.remoteTasks), TableOf(a.messages), a.correlations) && UniqueIds(a.correlations)
    requires t.messages == MessagesIn(a.messages) && t.correlations == WorkIn(a.correlations) && t.remoteTasks == TableOf(a.remoteTasks)
    requires t.publications == PublicationsIn(a.publications)
    ensures RemoteRows(t) <==> FullyCorrelated(TableOf(a.messages), TableOf(a.correlations))
  {
    hide TableOf, ValidCorrelations, ValidPublications, ValidRemoteTasks, UniqueIds, CorrelationRow, FullyCorrelated, IdsOf, PublicationsIn;
    WorkMeans(t, a);
    RemoteTasksHold(t.agents.Keys, a);
  }

  // ---- all of it -----------------------------------------------------------------------------

  lemma ImportHands(a: Archive, hosted: bool, now: Time, later: World)
    requires UniqueIds(a.agents) && (forall i, j :: later.mint(i) == later.mint(j) ==> i == j)
    ensures var t := InsertArchive(a, hosted, now, later);
            Handed(t) && AgentRows(t.agents, t.issued) && t.agents.Keys == IdsOf(a.agents)
  {
    hide TableOf, ImportedAgents, UniqueIds, IdsOf, Append, RecordToMessage, RecordToTask, RecordToCorrelation, ProgressIn, MintedFor, AgentRows;
    TableIds(a.messages);
    TableIds(a.tasks);
    TableIds(a.publications);
    TableIds(a.remoteTasks);
    TableIds(a.correlations);
    AgentsRead(a.agents, later);
    MintedAgents(a.agents, later, InsertArchive(a, hosted, now, later).issued);
  }

  /** Of an imported scope nothing is left to ask but these. */
  lemma InvNeeds(t: Scope)
    requires Handed(t) && AgentRows(t.agents, t.issued) && KeysUnique(t.messages) && TaskRows(t.tasks, t.agents, {}) && ProgressRows(t.progress, t.tasks, t.agents)
    requires LinkRows(t.links, t.agents) && 0 <= t.clock && t.reservations == map[]
    requires t.log.events == [Event(1, Pending(ScopeImported, ScopeSubject, Unstated), t.clock)] && t.log.revision == 1 && t.log.floor == 0
    ensures Inv(t) <==> MessageRows(t.messages, map[], t.agents) && Board(t.tasks) && Threads(t.messages) && RemoteRows(t)
  {
    hide Handed, AgentRows, KeysUnique, TaskRows, ProgressRows, LinkRows, MessageRows, Board, Threads, RemoteRows;
    NewLog(t);
  }

  lemma NewLog(t: Scope)
    requires t.log.events == [Event(1, Pending(ScopeImported, ScopeSubject, Unstated), t.clock)] && t.log.revision == 1 && t.log.floor == 0
    ensures LogOk(t.log) && Agreement(t)
  {
    forall subject ensures Newest(t.log.events, subject) == None {
      assert t.log.events[..0] == [];
    }
  }

  /** An archive that the validator accepts, and whose rows can all be inserted, imports into a good scope exactly when it
      is coherent. */
  lemma ImportIsGood(a: Archive, hosted: bool, now: Time, later: World)
    requires Valid(a) && !Conflicting(a) && 0 <= now && (forall i, j :: later.mint(i) == later.mint(j) ==> i == j)
    ensures Inv(InsertArchive(a, hosted, now, later)) <==> Coherent(a)
  {
    hide InsertArchive, ValidMessages, ValidReplies, ValidTasks, ValidGraph, ValidProgress, ValidPublications, ValidRemoteTasks, ValidCorrelations, UniqueIds, IdsOf,
         TableOf, MessagesIn, TasksIn, ProgressIn, PublicationsIn, WorkIn, Inv, Board, MessageRows, Threads, RemoteRows, FinishedInOrder, SensibleRow, AnswersDelivered,
         FullyCorrelated, KeysUnique, TaskRows, ProgressRows, Handed, AgentRows, ImportedAgents;
    var t := InsertArchive(a, hosted, now, later);
    InsertedTables(a, hosted, now, later);
    ImportHands(a, hosted, now, later);
    TaskKeys(a);
    LinksHold(t, a);
    MessageRowsMean(t.agents, a.messages);
    KeysAreUnique(t.agents.Keys, a.messages);
    ThreadsMean(t.agents.Keys, a.messages);
    TaskRowsHold(t.agents, a.tasks);
    BoardMeans(t.agents.Keys, a.tasks);
    ProgressHolds(t.tasks, t.agents, a.progress);
    RemoteMeans(t, a);
    InvNeeds(t);
  }

  lemma TaskKeys(a: Archive)
    ensures TasksIn(a.tasks).Keys == IdsOf(a.tasks)
  {
    hide TableOf, RecordToTask;
    TableIds(a.tasks);
  }

  lemma LinksHold(t: Scope, a: Archive)
    requires ValidLinks(IdsOf(a.agents), a.links) && t.links == a.links && t.agents.Keys == IdsOf(a.agents)
    ensures LinkRows(t.links, t.agents)
  {
    hide IdsOf;
  }

  /** What an export writes of a good scope is coherent. */
  lemma ExportIsCoherent(s: Scope, naming: Naming, world: World)
    requires Inv(s) && Runs.WithinCaps(s) && Export(s, naming, world).result.Ok?
    ensures Coherent(Export(s, naming, world).result.value)
  {
    hide Inv, Runs.WithinCaps, Coherent, Valid, Snapshot, Conflicting, Expire, Separates, InsertArchive, Active;
    var s1 := Expire(s, world.tick(1), world);
    ExpiredScope(s, world.tick(1), world);
    ExportSucceeds(s, naming, world);
    SeparatesKept(s, naming, world.tick(1), world);
    SnapshotHasNoConflict(s1, naming, world);
    var later := Numbers();
    ImportKeeps(s1, naming, world, false, 0, later);
    ImportIsGood(Snapshot(s1, naming, world), false, 0, later);
  }

  /** A world in which nothing repeats. */
  ghost function Numbers(): (world: World)
    ensures forall i, j :: world.mint(i) == world.mint(j) ==> i == j
  {
    World((ids: set<Id>) => SomeOrder(ids), (i: nat) => 0, (i: nat) => i)
  }
}
