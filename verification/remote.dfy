/** Work from remote principals: bus/a2a_tasks.go, with the publications and credentials it relies on. */
module RemoteWork {
  import opened Model
  import opened Logs
  import opened Scopes
  import opened Totals

  const REMOTE_BACKLOG: nat := BACKLOG_CAP / 2
  const REMOTE_BYTES: nat := 67_108_864

  /** A remote caller: a scoped credential granted for one publication. */
  datatype RemoteCaller = RemoteCaller(principal: Id, publication: Id)

  datatype Limits = Limits(messages: nat, bytes: nat)

  datatype AcceptInput = AcceptInput(task: Option<Id>, context: Option<Id>, client: Id, body: string)

  function AcceptHash(input: AcceptInput): RemoteFingerprint {
    RemoteFingerprint(input.task, input.context, input.client, input.body)
  }

  predicate CurrentRemote(s: Scope, caller: RemoteCaller) {
    && caller.principal in s.credentials && s.credentials[caller.principal] == Credential(caller.publication, true)
    && caller.publication in s.publications && s.publications[caller.publication].enabled
  }

  function BodySize(messages: map<Id, Message>): Id -> nat {
    (id: Id) => if id in messages then |messages[id].body| else 0
  }

  /** The total body size of a set of messages. */
  ghost function Bytes(messages: map<Id, Message>, ids: set<Id>): nat {
    Total(BodySize(messages), ids)
  }

  /** The bus requests of a principal's tasks that have not ended. */
  function UnfinishedWork(s: Scope, principal: Id): set<Id> {
    set id | && id in s.correlations && id in s.messages && s.correlations[id].principal == principal
             && s.correlations[id].task in s.remoteTasks
             && s.remoteTasks[s.correlations[id].task].principal == principal
             && !Terminal(s.remoteTasks[s.correlations[id].task].state)
  }

  /** Live messages that came from any remote principal. */
  function RemoteBacklog(s: Scope): set<Id> {
    set id | id in s.messages && s.messages[id].from.kind.RemoteKind? && Live(s.messages[id].state)
  }

  function Correlated(s: Scope, principal: Id, client: Id): set<Id> {
    set id | id in s.correlations && s.correlations[id].principal == principal && s.correlations[id].client == client
  }

  /** The task a remote message goes to: a new one, or one of the principal's own that waits for input. */
  function TaskFor(s: Scope, caller: RemoteCaller, input: AcceptInput, now: Time, world: World): Outcome<Id>
    requires caller.publication in s.publications
  {
    var target := s.publications[caller.publication].agent;
    if input.task.None? then
      var id := world.mint(0);
      var context := if input.context.Some? then input.context.value else world.mint(1);
      var row := RemoteTask(context, caller.principal, caller.publication, target, Submitted, now, now);
      Outcome(Emit(s.(remoteTasks := s.remoteTasks[id := row], issued := s.issued + {id}),
                   RemoteTaskCreated, RemoteSubject(id), RemoteTaskState(Submitted), now), Ok(id))
    else
      var id := input.task.value;
      if id !in s.remoteTasks || s.remoteTasks[id].principal != caller.principal then Outcome(s, Refused(NotFound)) else
        var row := s.remoteTasks[id];
        if row.publication != caller.publication || row.target != target then Outcome(s, Refused(NotFound))
        else if Terminal(row.state) || row.state != InputRequired then Outcome(s, Refused(Conflict))
        else if input.context.Some? && input.context.value != row.context then Outcome(s, Refused(Conflict))
        else Outcome(SetRemote(s, id, InProgress, now), Ok(id))
  }

  ghost predicate OverBudget(s: Scope, caller: RemoteCaller, limits: Limits, size: nat) {
    || |UnfinishedWork(s, caller.principal)| >= limits.messages
    || Bytes(s.messages, UnfinishedWork(s, caller.principal)) + size > limits.bytes
    || |RemoteBacklog(s)| >= REMOTE_BACKLOG
    || Bytes(s.messages, RemoteBacklog(s)) + size > REMOTE_BYTES
  }

  /** Record which remote message the bus request stands for. */
  function Correlate(s: Scope, request: Id, row: Correlation, now: Time): Scope {
    var s1 := s.(correlations := s.correlations[request := row],
                 remoteTasks := if row.task in s.remoteTasks then s.remoteTasks[row.task := s.remoteTasks[row.task].(updatedAt := now)] else s.remoteTasks);
    Emit(s1, RemoteMessageAccepted, RemoteSubject(row.task), Unstated, now)
  }

  /** bus/a2a_tasks.go AcceptA2AMessage. */
  ghost function AcceptMessage(s: Scope, caller: RemoteCaller, limits: Limits, input: AcceptInput, world: World): Outcome<Id> {
    if !CurrentRemote(s, caller) then Outcome(s, Refused(Unauthenticated)) else
      var s1 := Expire(s, world.tick(0), world);
      var known := world.order(Correlated(s1, caller.principal, input.client));
      if |known| > 0 && known[0] in s1.correlations then
        if s1.correlations[known[0]].hash != AcceptHash(input) then Outcome(s, Refused(Conflict))
        else Outcome(s1, Ok(s1.correlations[known[0]].task))
      else if caller.publication !in s1.publications || !s1.publications[caller.publication].enabled then Outcome(s, Refused(Unauthenticated))
      else if OverBudget(s1, caller, limits, |input.body|) then Outcome(s, Refused(Backpressure))
      else
        var now := world.tick(1);
        var chosen := TaskFor(s1, caller, input, now, world);
        if chosen.result.Refused? then Outcome(s, Refused(chosen.result.error)) else
          var send := SendInput(s1.publications[caller.publication].agent, input.body, Some(Request), None, 0, "[]", Some(input.client));
          var sent := SendIn(chosen.scope, Participant(RemoteKind, caller.principal), send, false, 2, 2, world);
          if sent.result.Refused? then Outcome(s, Refused(sent.result.error)) else
            var row := Correlation(caller.principal, input.client, chosen.result.value, AcceptHash(input), None, now, now);
            Outcome(Correlate(sent.scope, sent.result.value, row, now), Ok(chosen.result.value))
  }

  /** bus/a2a_tasks.go SetA2ATaskState. */
  function SetTaskState(s: Scope, caller: RemoteCaller, task: Id, state: RemoteState, world: World): Outcome<()> {
    if !CurrentRemote(s, caller) then Outcome(s, Refused(Unauthenticated))
    else if task !in s.remoteTasks || s.remoteTasks[task].principal != caller.principal then Outcome(s, Refused(NotFound))
    else if !ValidTransition(s.remoteTasks[task].state, state) then Outcome(s, Refused(Conflict))
    else Outcome(if s.remoteTasks[task].state == state then s else SetRemote(s, task, state, world.tick(0)), Ok(()))
  }

  /** bus/a2a_tasks.go A2ATask writes only by expiring messages. */
  function ReadTask(s: Scope, caller: RemoteCaller, task: Id, world: World): Outcome<RemoteTask> {
    if !CurrentRemote(s, caller) then Outcome(s, Refused(Unauthenticated)) else
      var s1 := Expire(s, world.tick(0), world);
      if task !in s1.remoteTasks || s1.remoteTasks[task].principal != caller.principal then Outcome(s, Refused(NotFound))
      else Outcome(s1, Ok(s1.remoteTasks[task]))
  }

  /** bus/a2a_publications.go: at most one publication for each agent. */
  function Publish(s: Scope, agent: Id, world: World): Outcome<Id> {
    var id := world.mint(0);
    if agent !in s.agents then Outcome(s, Refused(NotFound))
    else if exists p :: p in s.publications && s.publications[p].agent == agent then Outcome(s, Refused(Conflict))
    else Outcome(Emit(s.(publications := s.publications[id := Publication(agent, true)], issued := s.issued + {id}),
                      PublicationChanged, ScopeSubject, Unstated, world.tick(0)), Ok(id))
  }

  function SetPublication(s: Scope, id: Id, enabled: bool, world: World): Outcome<()> {
    if id !in s.publications then Outcome(s, Refused(NotFound))
    else if s.publications[id].enabled == enabled then Outcome(s, Ok(()))
    else Outcome(Emit(s.(publications := s.publications[id := s.publications[id].(enabled := enabled)]),
                      PublicationChanged, ScopeSubject, Unstated, world.tick(0)), Ok(()))
  }

  /** bus/a2a_principals.go: a credential that may invoke one publication. */
  function IssueCredential(s: Scope, publication: Id, world: World): Outcome<Id> {
    var id := world.mint(0);
    if publication !in s.publications then Outcome(s, Refused(NotFound))
    else Outcome(Emit(s.(credentials := s.credentials[id := Credential(publication, true)], issued := s.issued + {id}),
                      PublicationChanged, ScopeSubject, Unstated, world.tick(0)), Ok(id))
  }

  function SetCredential(s: Scope, id: Id, enabled: bool, world: World): Outcome<()> {
    if id !in s.credentials then Outcome(s, Refused(NotFound))
    else if s.credentials[id].enabled == enabled then Outcome(s, Ok(()))
    else Outcome(Emit(s.(credentials := s.credentials[id := s.credentials[id].(enabled := enabled)]),
                      PublicationChanged, ScopeSubject, Unstated, world.tick(0)), Ok(()))
  }
}
