/** What holds of a scope in every reachable state, and what any later state owes to an earlier one. */
module Invariants {
  import opened Model
  import opened Logs
  import opened Scopes
  import opened RemoteWork

  // ---- messages ------------------------------------------------------------------------------

  /** `responseTo` and `response` are inverse partial maps between requests and responses with swapped ends. */
  ghost predicate Threads(messages: map<Id, Message>) {
    && (forall id :: id in messages ==> RepliesWell(messages, id))
    && (forall id :: id in messages ==> RepliedWell(messages, id))
  }

  ghost predicate RepliesWell(messages: map<Id, Message>, id: Id)
    requires id in messages
  {
    var m := messages[id];
    && (m.responseTo.Some? <==> m.mode == Response)
    && (m.responseTo.Some? ==>
          && m.responseTo.value in messages
          && var request := messages[m.responseTo.value];
          request.mode == Request && request.response == Some(id) && request.from == m.to && request.to == m.from && request.deliveredAt.Some?)
  }

  ghost predicate RepliedWell(messages: map<Id, Message>, id: Id)
    requires id in messages
  {
    var m := messages[id];
    && (m.repliedAt.Some? <==> m.response.Some?)
    && (m.response.Some? ==> m.mode == Request && m.response.value in messages && messages[m.response.value].responseTo == Some(id))
  }

  /** The time stamps that each delivery state carries. */
  ghost predicate Stamped(m: Message) {
    && (m.acknowledgedAt.Some? <==> m.state == Acknowledged)
    && (m.state == Queued ==> m.deliveredAt.None?)
    && (m.state == Delivered || m.state == Acknowledged ==> m.deliveredAt.Some?)
    && (m.state == Expired ==> m.expiresAt.Some?)
    && (m.state == Reserved <==> m.reservation.Some?)
    && (m.mode == Request ==> m.to.kind.AgentKind?)
    && HashFits(m)
  }

  /** The digest of a message is that of its own content, with the lifetime it was sent with. */
  ghost predicate HashFits(m: Message) {
    && (m.expiresAt.Some? ==> m.createdAt < m.expiresAt.value)
    && m.hash == Fingerprint(m.to.id, m.body, m.mode, m.responseTo, if m.expiresAt.Some? then m.expiresAt.value - m.createdAt else 0, m.context)
  }

  /** A reserved message names a live reservation of its own recipient. */
  ghost predicate HeldBy(m: Message, reservations: map<Id, Reservation>) {
    m.reservation.Some? ==> m.reservation.value in reservations && m.to == Address(reservations[m.reservation.value].agent)
  }

  ghost predicate Ends(m: Message, agents: map<Id, AgentRow>) {
    && (m.from.kind.AgentKind? ==> m.from.id in agents)
    && (m.to.kind.AgentKind? ==> m.to.id in agents)
  }

  ghost predicate MessageRows(messages: map<Id, Message>, reservations: map<Id, Reservation>, agents: map<Id, AgentRow>) {
    forall id :: id in messages ==> Stamped(messages[id]) && HeldBy(messages[id], reservations) && Ends(messages[id], agents)
  }

  /** An idempotency key names at most one message of its sender. */
  ghost predicate KeysUnique(messages: map<Id, Message>) {
    forall a, b :: a in messages && b in messages && messages[a].key.Some? && messages[a].key == messages[b].key && messages[a].from == messages[b].from
      ==> a == b
  }

  // ---- executions ----------------------------------------------------------------------------

  /** The execution that currently owns an agent and has not been put to rest. */
  ghost predicate Owns(agents: map<Id, AgentRow>, agent: Id, execution: Id) {
    agent in agents && agents[agent].execution == execution && agents[agent].leaseExpiresAt != 0
  }

  /** Reservations were made by their agent's current execution. Agents in `out` are between executions. */
  ghost predicate ReservationRows(reservations: map<Id, Reservation>, agents: map<Id, AgentRow>, out: set<Id>) {
    forall id :: id in reservations ==>
      reservations[id].agent in agents && (reservations[id].agent in out || Owns(agents, reservations[id].agent, reservations[id].maker))
  }

  ghost predicate AgentRows(agents: map<Id, AgentRow>, issued: set<Id>) {
    && (forall a :: a in agents ==> agents[a].execution in issued && agents[a].token in issued && 0 <= agents[a].leaseExpiresAt)
    && (forall a, b :: a in agents && b in agents && agents[a].token == agents[b].token ==> a == b)
  }

  // ---- tasks ---------------------------------------------------------------------------------

  ghost predicate TaskRow(t: Task, agents: map<Id, AgentRow>, out: set<Id>) {
    && (t.status == Open <==> t.claimedBy.None?) && (t.claimedBy.None? <==> t.claimedExecution.None?)
    && (t.claimedBy.Some? ==> t.claimedBy.value in agents)
    && (t.createdBy.Some? ==> t.createdBy.value in agents)
    && (t.status == Claimed ==> t.claimedBy.value in out || Owns(agents, t.claimedBy.value, t.claimedExecution.value))
  }

  ghost predicate TaskRows(tasks: map<Id, Task>, agents: map<Id, AgentRow>, out: set<Id>) {
    forall id :: id in tasks ==> TaskRow(tasks[id], agents, out)
  }

  /** A topological rank of the dependency graph. */
  ghost predicate Ranks(rank: map<Id, nat>, tasks: map<Id, Task>) {
    && tasks.Keys <= rank.Keys
    && (forall id, d :: id in tasks && d in tasks[id].dependencies && d in tasks ==> rank[d] < rank[id])
  }

  ghost predicate Acyclic(tasks: map<Id, Task>) {
    exists rank: map<Id, nat> :: Ranks(rank, tasks)
  }

  ghost predicate Resolved(tasks: map<Id, Task>, id: Id)
    requires id in tasks
  {
    && Distinct(tasks[id].dependencies)
    && (forall d :: d in tasks[id].dependencies ==> d in tasks && (tasks[id].status != Open ==> tasks[d].status == Done))
  }

  /** Dependencies exist and are acyclic; a claimed or done task has its dependencies done. */
  ghost predicate Board(tasks: map<Id, Task>) {
    && (forall id :: id in tasks ==> Resolved(tasks, id))
    && Acyclic(tasks)
  }

  /** Progress rows are numbered from one without a gap and stay within the caps. */
  ghost predicate ProgressRows(progress: map<Id, seq<Progress>>, tasks: map<Id, Task>, agents: map<Id, AgentRow>) {
    && progress.Keys == tasks.Keys
    && (forall id :: id in progress ==> |progress[id]| <= PROGRESS_CAP && TextBytes(progress[id]) <= PROGRESS_BYTES)
    && (forall id, i :: id in progress && 0 <= i < |progress[id]| ==> progress[id][i].sequence == i + 1 && progress[id][i].agent in agents)
  }

  // ---- remote work ---------------------------------------------------------------------------

  /** A correlation ties one bus request to the remote task and principal it came from. */
  ghost predicate CorrelationRow(s: Scope, request: Id)
    requires request in s.correlations
  {
    var c := s.correlations[request];
    && request in s.messages && c.task in s.remoteTasks
    && var m, t := s.messages[request], s.remoteTasks[c.task];
    && t.principal == c.principal
    && m.mode == Request && m.from == Participant(RemoteKind, c.principal) && m.to == Address(t.target)
    && m.key == Some(c.client) && m.response == c.response
  }

  ghost predicate RemoteRows(s: Scope) {
    && (forall id :: id in s.correlations ==> CorrelationRow(s, id))
    && (forall id :: id in s.messages && s.messages[id].from.kind.RemoteKind? ==> id in s.correlations)
    && (forall id :: id in s.remoteTasks ==> s.remoteTasks[id].publication in s.publications && s.remoteTasks[id].target in s.agents)
    && (forall id :: id in s.publications ==> s.publications[id].agent in s.agents)
    && (forall a, b :: a in s.publications && b in s.publications && s.publications[a].agent == s.publications[b].agent ==> a == b)
  }

  // ---- the log -------------------------------------------------------------------------------

  /** The newest retained event that states a row's state names its current state. */
  ghost predicate Agreement(s: Scope) {
    && (forall id :: id in s.messages ==> Agrees(s.log, MessageSubject(id), MessageState(s.messages[id].state)))
    && (forall id :: id in s.tasks ==> Agrees(s.log, TaskSubject(id), TaskStatus(s.tasks[id].status)))
    && (forall id :: id in s.remoteTasks ==> Agrees(s.log, RemoteSubject(id), RemoteTaskState(s.remoteTasks[id].state)))
  }

  ghost predicate LogOk(log: Log) {
    Covers(log) && Bounded(log)
  }

  ghost predicate LinkRows(links: set<(Id, Id)>, agents: map<Id, AgentRow>) {
    forall pair :: pair in links ==> pair.0 < pair.1 && pair.0 in agents && pair.1 in agents
  }

  /** Every random identifier in use was handed out. */
  ghost predicate Handed(s: Scope) {
    s.messages.Keys + s.reservations.Keys + s.tasks.Keys + s.remoteTasks.Keys + s.correlations.Keys + s.publications.Keys + s.credentials.Keys <= s.issued
  }

  // ---- all of it -----------------------------------------------------------------------------

  /** Everything but the pairing of requests and responses, which a reply restores in two writes. */
  ghost predicate Core(s: Scope, out: set<Id>) {
    && MessageRows(s.messages, s.reservations, s.agents) && KeysUnique(s.messages)
    && ReservationRows(s.reservations, s.agents, out) && AgentRows(s.agents, s.issued)
    && TaskRows(s.tasks, s.agents, out) && Board(s.tasks) && ProgressRows(s.progress, s.tasks, s.agents)
    && Agreement(s) && LogOk(s.log) && LinkRows(s.links, s.agents) && Handed(s) && 0 <= s.clock
  }

  ghost predicate Between(s: Scope, out: set<Id>) {
    Core(s, out) && Threads(s.messages) && RemoteRows(s)
  }

  /** The invariant of every reachable scope. */
  ghost predicate Inv(s: Scope) {
    Between(s, {})
  }

  // ---- what a later state owes to an earlier one ---------------------------------------------

  /** Content is immutable, stamps are written once, acknowledged and expired are absorbing. */
  ghost predicate MessageEvolved(m: Message, n: Message) {
    && n.from == m.from && n.to == m.to && n.mode == m.mode && n.body == m.body && n.context == m.context
    && n.responseTo == m.responseTo && n.key == m.key && n.hash == m.hash && n.createdAt == m.createdAt && n.expiresAt == m.expiresAt
    && Stays(m.deliveredAt, n.deliveredAt) && Stays(m.acknowledgedAt, n.acknowledgedAt)
    && Stays(m.repliedAt, n.repliedAt) && Stays(m.response, n.response)
    && (!Live(m.state) ==> n.state == m.state)
  }

  /** Once written, never changed. */
  predicate Stays<T(==)>(before: Option<T>, after: Option<T>) {
    before.Some? ==> after == before
  }

  ghost predicate TaskEvolved(t: Task, u: Task) {
    && u.dependencies == t.dependencies && u.createdBy == t.createdBy && u.title == t.title && u.createdAt == t.createdAt
    && (t.status == Done ==> u == t)
  }

  ghost predicate RemoteEvolved(t: RemoteTask, u: RemoteTask) {
    && u.principal == t.principal && u.publication == t.publication && u.target == t.target && u.context == t.context && u.createdAt == t.createdAt
    && ValidTransition(t.state, u.state)
  }

  ghost predicate CorrelationEvolved(c: Correlation, d: Correlation) {
    d.principal == c.principal && d.client == c.client && d.task == c.task && d.hash == c.hash && Stays(c.response, d.response)
  }

  /** A lease that has ended is never renewed, and an execution or token that was replaced never comes back. */
  ghost predicate AgentEvolved(a: AgentRow, b: AgentRow, clock: Time, issued: set<Id>) {
    || (b.execution == a.execution && b.token == a.token && (a.leaseExpiresAt <= clock ==> b.leaseExpiresAt <= a.leaseExpiresAt))
    || NewOwner(b, issued)
  }

  ghost predicate NewOwner(a: AgentRow, issued: set<Id>) {
    a.execution !in issued && a.token !in issued
  }

  /** A remote sender of a new message holds a credential. */
  ghost predicate NewSender(m: Message, credentials: map<Id, Credential>) {
    m.from.kind.RemoteKind? ==> m.from.id in credentials
  }

  /** Credentials are never deleted, and a new one has a new identifier. */
  ghost predicate NewCredentials(before: map<Id, Credential>, after: map<Id, Credential>, issued: set<Id>) {
    && before.Keys <= after.Keys
    && (forall id :: id in after ==> id in before || id !in issued)
  }

  ghost predicate MessagesEvolved(s: Scope, t: Scope) {
    forall id :: id in t.messages ==> if id in s.messages then MessageEvolved(s.messages[id], t.messages[id]) else id !in s.issued && NewSender(t.messages[id], t.credentials)
  }

  ghost predicate WorkEvolved(s: Scope, t: Scope) {
    && (forall id :: id in t.tasks ==> if id in s.tasks then TaskEvolved(s.tasks[id], t.tasks[id]) else id !in s.issued)
    && (forall id :: id in t.remoteTasks ==> if id in s.remoteTasks then RemoteEvolved(s.remoteTasks[id], t.remoteTasks[id]) else id !in s.issued)
    && (forall id :: id in t.correlations ==> if id in s.correlations then CorrelationEvolved(s.correlations[id], t.correlations[id]) else id !in s.issued)
  }

  ghost predicate AgentsEvolved(s: Scope, t: Scope) {
    && (forall id :: id in s.agents ==> id in t.agents && AgentEvolved(s.agents[id], t.agents[id], s.clock, s.issued))
    && (forall id :: id in t.agents && id !in s.agents ==> NewOwner(t.agents[id], s.issued))
  }

  ghost predicate Evolves(s: Scope, t: Scope) {
    && s.issued <= t.issued && s.clock <= t.clock && LogEvolved(s.log, t.log) && NewCredentials(s.credentials, t.credentials, s.issued)
    && MessagesEvolved(s, t) && WorkEvolved(s, t) && AgentsEvolved(s, t)
  }

  lemma EvolvesReflexive(s: Scope)
    ensures Evolves(s, s)
  {
  }

  lemma MessagesTransitive(s: Scope, t: Scope, u: Scope)
    requires Handed(s) && Evolves(s, t) && Evolves(t, u)
    ensures MessagesEvolved(s, u) && NewCredentials(s.credentials, u.credentials, s.issued)
  {
    hide LogEvolved, WorkEvolved, AgentsEvolved;
  }

  lemma TransitionsCompose(a: RemoteTask, b: RemoteTask, c: RemoteTask)
    requires RemoteEvolved(a, b) && RemoteEvolved(b, c)
    ensures RemoteEvolved(a, c)
  {
  }

  lemma WorkTransitive(s: Scope, t: Scope, u: Scope)
    requires Handed(s) && Evolves(s, t) && Evolves(t, u)
    ensures WorkEvolved(s, u)
  {
    hide LogEvolved, MessagesEvolved, AgentsEvolved, NewCredentials, RemoteEvolved;
    forall id | id in u.remoteTasks ensures if id in s.remoteTasks then RemoteEvolved(s.remoteTasks[id], u.remoteTasks[id]) else id !in s.issued {
      if id in s.remoteTasks && id in t.remoteTasks {
        TransitionsCompose(s.remoteTasks[id], t.remoteTasks[id], u.remoteTasks[id]);
      }
    }
  }

  lemma AgentsTransitive(s: Scope, t: Scope, u: Scope)
    requires Evolves(s, t) && Evolves(t, u)
    ensures AgentsEvolved(s, u)
  {
    hide LogEvolved, MessagesEvolved, WorkEvolved, NewCredentials;
  }

  /** What every later state owes to an earlier one composes. */
  lemma EvolvesTransitive(s: Scope, t: Scope, u: Scope)
    requires Handed(s) && Evolves(s, t) && Evolves(t, u)
    ensures Evolves(s, u)
  {
    hide LogEvolved, MessagesEvolved, WorkEvolved, AgentsEvolved, NewCredentials;
    LogEvolvesTransitive(s.log, t.log, u.log);
    MessagesTransitive(s, t, u);
    WorkTransitive(s, t, u);
    AgentsTransitive(s, t, u);
  }
}
