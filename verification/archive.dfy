/** The portable archive of a scope: what an export writes and what an import makes of it (bus/archive.go). */
module Archives {
  import opened Model
  import opened Logs
  import opened Scopes
  import opened RemoteWork
  import opened Tables

  /** The execution that imported claims and progress rows are attributed to. */
  const IMPORTED: Id := 0

  /** Remote principals keep their name only if it is already an archived one; any other is replaced by a digest. */
  datatype Digest = Digest(portable: Id -> bool, digest: Id -> Id) {
    function Archived(principal: Id): Id {
      if portable(principal) then principal else digest(principal)
    }
  }

  /** A digest is itself an archived name. */
  type Naming = n: Digest | forall p :: n.portable(n.Archived(p)) ghost witness Digest(p => true, p => p)

  datatype AgentRecord = AgentRecord(registeredAt: Time, updatedAt: Time)

  datatype MessageRecord = MessageRecord(
    from: Participant, to: Participant, mode: Mode, body: string, context: string, responseTo: Option<Id>, key: Option<Id>, state: State,
    createdAt: Time, expiresAt: Option<Time>, deliveredAt: Option<Time>, acknowledgedAt: Option<Time>, repliedAt: Option<Time>, response: Option<Id>)

  datatype TaskRecord = TaskRecord(
    title: string, createdBy: Option<Id>, claimedBy: Option<Id>, status: Status, dependencies: seq<Id>, note: Option<string>,
    createdAt: Time, updatedAt: Time)

  datatype ProgressRecord = ProgressRecord(task: Id, sequence: nat, agent: Id, text: string, createdAt: Time)

  datatype CorrelationRecord = CorrelationRecord(principal: Id, client: Id, task: Id, response: Option<Id>, createdAt: Time, updatedAt: Time)

  /** Publications are archived with their agent. A correlation is listed under its bus request. */
  datatype Archive = Archive(
    agents: seq<Entry<AgentRecord>>, links: set<(Id, Id)>, messages: seq<Entry<MessageRecord>>, tasks: seq<Entry<TaskRecord>>,
    progress: seq<ProgressRecord>, publications: seq<Entry<Id>>, remoteTasks: seq<Entry<RemoteTask>>,
    correlations: seq<Entry<CorrelationRecord>>)

  // ---- rows to records -----------------------------------------------------------------------

  function Renamed(p: Participant, naming: Naming): Participant {
    if p.kind.RemoteKind? then Participant(RemoteKind, naming.Archived(p.id)) else p
  }

  /** A reserved message is archived as it was before the reservation. */
  function MessageToRecord(m: Message, naming: Naming): MessageRecord {
    MessageRecord(Renamed(m.from, naming), Renamed(m.to, naming), m.mode, m.body, m.context, m.responseTo, m.key,
                  if m.state == Reserved then (if m.deliveredAt.None? then Queued else Delivered) else m.state,
                  m.createdAt, m.expiresAt, m.deliveredAt, m.acknowledgedAt, m.repliedAt, m.response)
  }

  /** A claimed task is archived as open. */
  function TaskToRecord(t: Task): TaskRecord {
    TaskRecord(t.title, t.createdBy, if t.status == Claimed then None else t.claimedBy, if t.status == Claimed then Open else t.status,
               t.dependencies, t.note, t.createdAt, t.updatedAt)
  }

  function ProgressToRecords(task: Id, rows: seq<Progress>): (records: seq<ProgressRecord>)
    ensures |records| == |rows|
    ensures forall i :: 0 <= i < |rows| ==> records[i] == ProgressRecord(task, rows[i].sequence, rows[i].agent, rows[i].text, rows[i].createdAt)
  {
    seq(|rows|, i requires 0 <= i < |rows| => ProgressRecord(task, rows[i].sequence, rows[i].agent, rows[i].text, rows[i].createdAt))
  }

  /** ORDER BY task_id, sequence. */
  function ProgressRecords(progress: map<Id, seq<Progress>>, tasks: seq<Id>): seq<ProgressRecord>
    decreases |tasks|
  {
    if tasks == [] then [] else
      var last := tasks[|tasks| - 1];
      ProgressRecords(progress, tasks[..|tasks| - 1]) + if last in progress then ProgressToRecords(last, progress[last]) else []
  }

  function RemoteToRecord(t: RemoteTask, naming: Naming): RemoteTask {
    t.(principal := naming.Archived(t.principal))
  }

  function CorrelationToRecord(c: Correlation, naming: Naming): CorrelationRecord {
    CorrelationRecord(naming.Archived(c.principal), c.client, c.task, c.response, c.createdAt, c.updatedAt)
  }

  // ---- the export ----------------------------------------------------------------------------

  function AgentTable(s: Scope): map<Id, AgentRecord> {
    map id | id in s.agents :: AgentRecord(s.agents[id].registeredAt, s.agents[id].updatedAt)
  }

  function MessageTable(s: Scope, naming: Naming): map<Id, MessageRecord> {
    map id | id in s.messages :: MessageToRecord(s.messages[id], naming)
  }

  function TaskTable(s: Scope): map<Id, TaskRecord> {
    map id | id in s.tasks :: TaskToRecord(s.tasks[id])
  }

  function PublicationTable(s: Scope): map<Id, Id> {
    map id | id in s.publications :: s.publications[id].agent
  }

  function RemoteTable(s: Scope, naming: Naming): map<Id, RemoteTask> {
    map id | id in s.remoteTasks :: RemoteToRecord(s.remoteTasks[id], naming)
  }

  function CorrelationTable(s: Scope, naming: Naming): map<Id, CorrelationRecord> {
    map id | id in s.correlations :: CorrelationToRecord(s.correlations[id], naming)
  }

  function MessageAge(table: map<Id, MessageRecord>): Id -> Time {
    (id: Id) => if id in table then table[id].createdAt else 0
  }

  function TaskAge(table: map<Id, TaskRecord>): Id -> Time {
    (id: Id) => if id in table then table[id].createdAt else 0
  }

  function RemoteAge(table: map<Id, RemoteTask>): Id -> Time {
    (id: Id) => if id in table then table[id].createdAt else 0
  }

  function CorrelationAge(table: map<Id, CorrelationRecord>): Id -> Time {
    (id: Id) => if id in table then table[id].createdAt else 0
  }

  /** The rows of a table by age and identifier. */
  ghost function Written<T>(table: map<Id, T>, key: Id -> Time, world: World): seq<Entry<T>> {
    ListedIsSorted(table.Keys, key, world);
    ReadBack(table, Listed(table.Keys, key, world));
    Entries(table, Listed(table.Keys, key, world))
  }

  ghost function WrittenAgents(s: Scope, world: World): seq<Entry<AgentRecord>> {
    Written(AgentTable(s), ById(), world)
  }

  ghost function WrittenMessages(s: Scope, naming: Naming, world: World): seq<Entry<MessageRecord>> {
    Written(MessageTable(s, naming), MessageAge(MessageTable(s, naming)), world)
  }

  ghost function WrittenTasks(s: Scope, world: World): seq<Entry<TaskRecord>> {
    Written(TaskTable(s), TaskAge(TaskTable(s)), world)
  }

  ghost function WrittenProgress(s: Scope, world: World): seq<ProgressRecord> {
    ProgressRecords(s.progress, Listed(s.tasks.Keys, ById(), world))
  }

  ghost function WrittenPublications(s: Scope, world: World): seq<Entry<Id>> {
    Written(PublicationTable(s), ById(), world)
  }

  ghost function WrittenRemote(s: Scope, naming: Naming, world: World): seq<Entry<RemoteTask>> {
    Written(RemoteTable(s, naming), RemoteAge(RemoteTable(s, naming)), world)
  }

  ghost function WrittenWork(s: Scope, naming: Naming, world: World): seq<Entry<CorrelationRecord>> {
    Written(CorrelationTable(s, naming), CorrelationAge(CorrelationTable(s, naming)), world)
  }

  /** What an export writes about a scope. */
  ghost function Snapshot(s: Scope, naming: Naming, world: World): Archive {
    Archive(WrittenAgents(s, world), s.links, WrittenMessages(s, naming, world), WrittenTasks(s, world), WrittenProgress(s, world),
            WrittenPublications(s, world), WrittenRemote(s, naming, world), WrittenWork(s, naming, world))
  }

  function Active(s: Scope, now: Time): set<Id> {
    set id | id in s.agents && !s.agents[id].lifecycle.Offline? && s.agents[id].leaseExpiresAt > now
  }

  // ---- records to rows -----------------------------------------------------------------------

  /** The digest of an imported message is computed again from its record. */
  function RecordHash(m: MessageRecord): Fingerprint {
    Fingerprint(m.to.id, m.body, m.mode, m.responseTo,
                if m.expiresAt.Some? && m.expiresAt.value > m.createdAt then m.expiresAt.value - m.createdAt else 0, m.context)
  }

  function RecordToMessage(m: MessageRecord): Message {
    Message(m.from, m.to, m.mode, m.body, m.context, m.responseTo, m.key, RecordHash(m), m.state, None,
            m.createdAt, m.expiresAt, m.deliveredAt, m.acknowledgedAt, m.repliedAt, m.response)
  }

  function RecordToTask(t: TaskRecord): Task {
    Task(t.title, t.createdBy, if t.status == Done then t.claimedBy else None, if t.status == Done then Some(IMPORTED) else None, t.status,
         t.dependencies, t.note, t.createdAt, t.updatedAt)
  }

  function RecordToProgress(p: ProgressRecord): Progress {
    Progress(p.sequence, p.agent, IMPORTED, p.text, p.createdAt)
  }

  /** The progress rows of one task, in the order of the archive. */
  function RowsOf(records: seq<ProgressRecord>, task: Id): seq<Progress> {
    if records == [] then [] else
      var init, last := records[..|records| - 1], records[|records| - 1];
      RowsOf(init, task) + if last.task == task then [RecordToProgress(last)] else []
  }

  /** A table of progress rows is read ORDER BY sequence, whatever the order of its inserts. */
  function InSequence(rows: seq<Progress>, row: Progress): seq<Progress> {
    if rows == [] || rows[|rows| - 1].sequence <= row.sequence then rows + [row]
    else InSequence(rows[..|rows| - 1], row) + [rows[|rows| - 1]]
  }

  function Ordered(rows: seq<Progress>): seq<Progress> {
    if rows == [] then [] else InSequence(Ordered(rows[..|rows| - 1]), rows[|rows| - 1])
  }

  /** The progress rows of one task, once all records are inserted. */
  function ProgressOf(records: seq<ProgressRecord>, task: Id): seq<Progress> {
    Ordered(RowsOf(records, task))
  }

  /** What was asked of a remote message is not archived: only its task and identifier are left in its digest. */
  function RecordToCorrelation(c: CorrelationRecord): Correlation {
    Correlation(c.principal, c.client, c.task, RemoteFingerprint(Some(c.task), None, c.client, ""), c.response, c.createdAt, c.updatedAt)
  }

  /** Every imported agent starts offline, with an execution and a token that nobody holds. */
  function ImportedAgents(records: seq<Entry<AgentRecord>>, world: World): map<Id, AgentRow> {
    if records == [] then map[] else
      var n, last := |records| - 1, records[|records| - 1];
      ImportedAgents(records[..n], world)[last.id := AgentRow(world.mint(2 * n), world.mint(2 * n + 1), Offline, false, 0, last.row.registeredAt, last.row.updatedAt)]
  }

  function MintedFor(count: nat, world: World): set<Id> {
    set i | 0 <= i < 2 * count :: world.mint(i)
  }

  /** Every identifier an archive brings along. */
  function ArchivedIds(a: Archive): set<Id> {
    IdsOf(a.agents) + IdsOf(a.messages) + IdsOf(a.tasks) + IdsOf(a.publications) + IdsOf(a.remoteTasks) + IdsOf(a.correlations)
  }

  function MessagesIn(entries: seq<Entry<MessageRecord>>): map<Id, Message> {
    var table := TableOf(entries);
    map id | id in table :: RecordToMessage(table[id])
  }

  function TasksIn(entries: seq<Entry<TaskRecord>>): map<Id, Task> {
    var table := TableOf(entries);
    map id | id in table :: RecordToTask(table[id])
  }

  function ProgressIn(tasks: set<Id>, records: seq<ProgressRecord>): map<Id, seq<Progress>> {
    map id | id in tasks :: ProgressOf(records, id)
  }

  /** Imported publications wait to be enabled again. */
  function PublicationsIn(entries: seq<Entry<Id>>): map<Id, Publication> {
    var table := TableOf(entries);
    map id | id in table :: Publication(table[id], false)
  }

  function WorkIn(entries: seq<Entry<CorrelationRecord>>): map<Id, Correlation> {
    var table := TableOf(entries);
    map id | id in table :: RecordToCorrelation(table[id])
  }

  /** bus/archive.go insertArchive. */
  function InsertArchive(a: Archive, hosted: bool, now: Time, world: World): Scope {
    Emit(Scope(ImportedAgents(a.agents, world), a.links, MessagesIn(a.messages), map[], TasksIn(a.tasks), ProgressIn(IdsOf(a.tasks), a.progress),
               PublicationsIn(a.publications), map[], TableOf(a.remoteTasks), WorkIn(a.correlations),
               Log([], 0, 0, hosted), now, ArchivedIds(a) + MintedFor(|a.agents|, world)),
         ScopeImported, ScopeSubject, Unstated, now)
  }
}
