/** One scope of the bus as a value, and each store transaction as a function on it: bus/store.go,
    bus/retire.go, bus/scope_admin.go and bus/task_progress.go.

    A transaction either commits its new scope or is refused and leaves the scope as it was. The
    `issued` identifiers and the `clock` are history variables: they record what has been handed out
    and the latest time read, and no operation reads them. */
module Scopes {
  import opened Model
  import opened Logs

  const RESERVATION_TTL: Time := 30_000
  const BACKLOG_CAP: nat := 10_000
  const ACTIVE_TASK_CAP: nat := 5_000
  const PEER_CAP: nat := 128
  const PROGRESS_CAP: nat := 1_000
  const PROGRESS_BYTES: nat := 1_048_576

  datatype Scope = Scope(
    agents: map<Id, AgentRow>, links: set<(Id, Id)>,
    messages: map<Id, Message>, reservations: map<Id, Reservation>,
    tasks: map<Id, Task>, progress: map<Id, seq<Progress>>,
    publications: map<Id, Publication>, credentials: map<Id, Credential>,
    remoteTasks: map<Id, RemoteTask>, correlations: map<Id, Correlation>,
    log: Log, clock: Time, issued: set<Id>)

  datatype Outcome<+T> = Outcome(scope: Scope, result: Result<T>)

  /** An agent execution that calls the bus. */
  datatype Caller = Caller(agent: Id, execution: Id)

  function Emit(s: Scope, kind: EventKind, subject: Subject, attribute: Attribute, now: Time): Scope {
    s.(log := Append(s.log, Pending(kind, subject, attribute), now))
  }

  function Address(agent: Id): Participant {
    Participant(AgentKind, agent)
  }

  /** bus/store.go requireCurrentExecution. */
  predicate Current(s: Scope, caller: Caller, now: Time) {
    && caller.agent in s.agents
    && s.agents[caller.agent].execution == caller.execution
    && s.agents[caller.agent].leaseExpiresAt > now
  }

  /** The distinct values of a list, in order of first occurrence. */
  function Unique(values: seq<Id>): (result: seq<Id>)
    ensures Distinct(result)
    ensures forall v :: v in result <==> v in values
  {
    if values == [] then [] else
      var init, last := values[..|values| - 1], values[|values| - 1];
      var result := Unique(init);
      assert values == init + [last];
      if last in result then result else result + [last]
  }

  // ---- ordered queries -----------------------------------------------------------------------

  function InsertBy(row: Id, rows: seq<Id>, key: Id -> Time): seq<Id> {
    if rows == [] || key(row) <= key(rows[0]) then [row] + rows else [rows[0]] + InsertBy(row, rows[1..], key)
  }

  /** ORDER BY over the engine's listing; rows with equal keys keep the engine's order. */
  function SortBy(rows: seq<Id>, key: Id -> Time): seq<Id> {
    if rows == [] then [] else InsertBy(rows[0], SortBy(rows[1..], key), key)
  }

  function FirstRows(rows: seq<Id>, limit: nat): seq<Id> {
    if limit < |rows| then rows[..limit] else rows
  }

  // ---- remote task state ---------------------------------------------------------------------

  predicate Terminal(state: RemoteState) {
    state.Completed? || state.Failed? || state.Canceled? || state.Rejected?
  }

  predicate ValidTransition(from: RemoteState, to: RemoteState) {
    if from == to then true
    else if Terminal(from) then false
    else match from
      case Submitted => to.InProgress? || to.InputRequired? || Terminal(to)
      case InProgress => to.InputRequired? || Terminal(to)
      case InputRequired => to.InProgress? || Terminal(to)
      case _ => false
  }

  /** What can move a remote task along with its bus request. */
  datatype Cause = Delivery | Reply | Expiry

  function NextRemote(cause: Cause, state: RemoteState): Option<RemoteState> {
    match cause
    case Delivery => if state.Submitted? then Some(InProgress) else None
    case Reply => if !state.InputRequired? && !Terminal(state) then Some(Completed) else None
    case Expiry => if !Terminal(state) then Some(Failed) else None
  }

  /** bus/a2a_tasks.go transitionA2ATaskForMessage. */
  function AdvanceRemote(s: Scope, message: Id, cause: Cause, now: Time): Scope {
    if message !in s.correlations || s.correlations[message].task !in s.remoteTasks then s else
      var task := s.correlations[message].task;
      var next := NextRemote(cause, s.remoteTasks[task].state);
      if next == None || next.value == s.remoteTasks[task].state then s
      else SetRemote(s, task, next.value, now)
  }

  function SetRemote(s: Scope, task: Id, state: RemoteState, now: Time): Scope
    requires task in s.remoteTasks
  {
    Emit(s.(remoteTasks := s.remoteTasks[task := s.remoteTasks[task].(state := state, updatedAt := now)]),
         RemoteTaskStateChanged, RemoteSubject(task), RemoteTaskState(state), now)
  }

  // ---- message rows --------------------------------------------------------------------------

  /** Write one message row and the event that names its new state. */
  function MoveMessage(s: Scope, id: Id, row: Message, kind: EventKind, now: Time): Scope {
    Emit(s.(messages := s.messages[id := row]), kind, MessageSubject(id), MessageState(row.state), now)
  }

  function AsExpired(m: Message): Message {
    m.(state := Expired, reservation := None)
  }

  function AsFreed(m: Message): Message {
    m.(state := if m.deliveredAt.None? then Queued else Delivered, reservation := None)
  }

  function AsReserved(m: Message, reservation: Id): Message {
    m.(state := Reserved, reservation := Some(reservation))
  }

  function AsDelivered(m: Message, now: Time): Message {
    m.(state := Delivered, deliveredAt := if m.deliveredAt.None? then Some(now) else m.deliveredAt, reservation := None)
  }

  function AsAcknowledged(m: Message, now: Time): Message {
    m.(state := Acknowledged, acknowledgedAt := Some(now))
  }

  function Due(s: Scope, now: Time): set<Id> {
    set id | id in s.messages && s.messages[id].expiresAt.Some? && s.messages[id].expiresAt.value <= now && Live(s.messages[id].state)
  }

  function ExpireRow(s: Scope, id: Id, now: Time): Scope
    requires id in s.messages
  {
    var row := s.messages[id];
    if !Live(row.state) then s else
      var s1 := if row.deliveredAt.None? then AdvanceRemote(s, id, Expiry, now) else s;
      MoveMessage(s1, id, AsExpired(row), MessageExpired, now)
  }

  function ExpireRows(s: Scope, ids: seq<Id>, now: Time): Scope
    requires forall id :: id in ids ==> id in s.messages
    decreases |ids|
  {
    if ids == [] then s else
      var init, last := ids[..|ids| - 1], ids[|ids| - 1];
      var s1 := ExpireRows(s, init, now);
      if last in s1.messages then ExpireRow(s1, last, now) else s1
  }

  /** bus/store.go expireMessages. */
  function Expire(s: Scope, now: Time, world: World): Scope {
    ExpireRows(s, world.order(Due(s, now)), now)
  }

  /** The messages that a reservation holds for its agent. */
  function Held(s: Scope, agent: Id, reservation: Id): set<Id> {
    set id | id in s.messages && s.messages[id].reservation == Some(reservation) && s.messages[id].to == Address(agent) && s.messages[id].state == Reserved
  }

  function FreeRow(s: Scope, id: Id, now: Time): Scope
    requires id in s.messages
  {
    MoveMessage(s, id, AsFreed(s.messages[id]), MessageReleased, now)
  }

  function FreeRows(s: Scope, ids: seq<Id>, now: Time): Scope
    decreases |ids|
  {
    if ids == [] then s else
      var init, last := ids[..|ids| - 1], ids[|ids| - 1];
      var s1 := FreeRows(s, init, now);
      if last in s1.messages then FreeRow(s1, last, now) else s1
  }

  function Dropped(reservations: map<Id, Reservation>, agent: Id, reservation: Id): map<Id, Reservation> {
    if reservation in reservations && reservations[reservation].agent == agent then reservations - {reservation} else reservations
  }

  function DropReservation(s: Scope, agent: Id, reservation: Id): Scope {
    s.(reservations := Dropped(s.reservations, agent, reservation))
  }

  /** bus/store.go releaseReservation. */
  function Release(s: Scope, agent: Id, reservation: Id, now: Time, world: World): Scope {
    DropReservation(FreeRows(s, world.order(Held(s, agent, reservation)), now), agent, reservation)
  }

  /** Release reservations one after another; each reads the clock again. */
  function ReleaseEach(s: Scope, ids: seq<Id>, tick: nat, world: World): Scope
    decreases |ids|
  {
    if ids == [] then s else
      var init, last := ids[..|ids| - 1], ids[|ids| - 1];
      var s1 := ReleaseEach(s, init, tick, world);
      if last in s1.reservations then Release(s1, s1.reservations[last].agent, last, world.tick(tick + |init|), world) else s1
  }

  function ReservationsOf(s: Scope, agent: Id): set<Id> {
    set id | id in s.reservations && s.reservations[id].agent == agent
  }

  function Lapsed(s: Scope, now: Time): set<Id> {
    set id | id in s.reservations && s.reservations[id].expiresAt <= now
  }

  // ---- the inbox -----------------------------------------------------------------------------

  function Waiting(s: Scope, agent: Id, now: Time): set<Id> {
    set id | && id in s.messages && s.messages[id].to == Address(agent)
             && (s.messages[id].state == Queued || s.messages[id].state == Delivered)
             && (s.messages[id].expiresAt.Some? ==> s.messages[id].expiresAt.value > now)
  }

  function Age(s: Scope): Id -> Time {
    (id: Id) => if id in s.messages then s.messages[id].createdAt else 0
  }

  function InboxPage(s: Scope, agent: Id, limit: nat, now: Time, world: World): seq<Id> {
    FirstRows(SortBy(world.order(Waiting(s, agent, now)), Age(s)), limit)
  }

  function ReserveRow(s: Scope, id: Id, reservation: Id, now: Time): Scope
    requires id in s.messages
  {
    MoveMessage(s, id, AsReserved(s.messages[id], reservation), MessageReserved, now)
  }

  function ReserveRows(s: Scope, ids: seq<Id>, reservation: Id, now: Time): Scope
    decreases |ids|
  {
    if ids == [] then s else
      var init, last := ids[..|ids| - 1], ids[|ids| - 1];
      var s1 := ReserveRows(s, init, reservation, now);
      if last in s1.messages then ReserveRow(s1, last, reservation, now) else s1
  }

  datatype Hold = Hold(id: Id, expiresAt: Time, messages: seq<Id>)

  /** What a reserve tidies first: due messages expire and lapsed reservations are released. */
  function Tidied(s: Scope, now: Time, world: World): Scope {
    var s1 := Expire(s, now, world);
    ReleaseEach(s1, world.order(Lapsed(s1, now)), 1, world)
  }

  function ReserveInbox(s: Scope, caller: Caller, limit: nat, world: World): Outcome<Option<Hold>> {
    var now := world.tick(0);
    if !Current(s, caller, now) then Outcome(s, Refused(Unauthenticated)) else
      var s1 := Tidied(s, now, world);
      var page := InboxPage(s1, caller.agent, limit, now, world);
      if page == [] then Outcome(s1, Ok(None)) else
        var id := world.mint(0);
        var row := Reservation(caller.agent, now, now + RESERVATION_TTL, caller.execution);
        var s2 := s1.(reservations := s1.reservations[id := row], issued := s1.issued + {id});
        Outcome(ReserveRows(s2, page, id, now), Ok(Some(Hold(id, row.expiresAt, page))))
  }

  function DeliverRow(s: Scope, id: Id, now: Time): Scope
    requires id in s.messages
  {
    var row := s.messages[id];
    var s1 := if row.from.kind.RemoteKind? then AdvanceRemote(s, id, Delivery, now) else s;
    MoveMessage(s1, id, AsDelivered(row, now), MessageDelivered, now)
  }

  function DeliverRows(s: Scope, ids: seq<Id>, now: Time): Scope
    decreases |ids|
  {
    if ids == [] then s else
      var init, last := ids[..|ids| - 1], ids[|ids| - 1];
      var s1 := DeliverRows(s, init, now);
      if last in s1.messages then DeliverRow(s1, last, now) else s1
  }

  /** An expired reservation is released for good although the commit itself is refused. */
  function CommitInbox(s: Scope, caller: Caller, reservation: Id, world: World): Outcome<seq<Id>> {
    if !Current(s, caller, world.tick(0)) then Outcome(s, Refused(Unauthenticated))
    else if reservation !in s.reservations || s.reservations[reservation].agent != caller.agent then Outcome(s, Refused(NotFound))
    else if s.reservations[reservation].expiresAt <= world.tick(1) then
      Outcome(Release(s, caller.agent, reservation, world.tick(2), world), Refused(Conflict))
    else
      var s1 := Expire(s, world.tick(2), world);
      var rows := SortBy(world.order(Held(s1, caller.agent, reservation)), Age(s1));
      var s2 := DeliverRows(s1, rows, world.tick(3));
      Outcome(s2.(reservations := s2.reservations - {reservation}), Ok(rows))
  }

  function ReleaseInbox(s: Scope, caller: Caller, reservation: Id, world: World): Outcome<()> {
    if !Current(s, caller, world.tick(0)) then Outcome(s, Refused(Unauthenticated))
    else Outcome(Release(Expire(s, world.tick(1), world), caller.agent, reservation, world.tick(2), world), Ok(()))
  }

  predicate Acknowledgeable(s: Scope, id: Id, agent: Id) {
    id in s.messages && s.messages[id].to == Address(agent) && s.messages[id].state == Delivered
  }

  function AcknowledgeRow(s: Scope, id: Id, agent: Id, now: Time): Scope {
    if !Acknowledgeable(s, id, agent) then s
    else MoveMessage(s, id, AsAcknowledged(s.messages[id], now), MessageAcknowledged, now)
  }

  function AcknowledgeRows(s: Scope, ids: seq<Id>, agent: Id, tick: nat, world: World): Scope
    decreases |ids|
  {
    if ids == [] then s else
      AcknowledgeRow(AcknowledgeRows(s, ids[..|ids| - 1], agent, tick, world), ids[|ids| - 1], agent, world.tick(tick + |ids| - 1))
  }

  function CountAcknowledged(s: Scope, ids: seq<Id>, agent: Id): nat {
    if ids == [] then 0 else
      CountAcknowledged(s, ids[..|ids| - 1], agent) + (if Acknowledgeable(s, ids[|ids| - 1], agent) then 1 else 0)
  }

  function AcknowledgeMessages(s: Scope, caller: Caller, ids: seq<Id>, world: World): Outcome<nat> {
    if !Current(s, caller, world.tick(0)) then Outcome(s, Refused(Unauthenticated)) else
      var s1 := Expire(s, world.tick(1), world);
      Outcome(AcknowledgeRows(s1, Unique(ids), caller.agent, 2, world), Ok(CountAcknowledged(s1, Unique(ids), caller.agent)))
  }

  function Receipt(s: Scope, caller: Caller, id: Id, world: World): Outcome<Message> {
    if !Current(s, caller, world.tick(0)) then Outcome(s, Refused(Unauthenticated)) else
      var s1 := Expire(s, world.tick(1), world);
      if id in s1.messages && (s1.messages[id].from == Address(caller.agent) || s1.messages[id].to == Address(caller.agent))
      then Outcome(s1, Ok(s1.messages[id]))
      else Outcome(s, Refused(NotFound))
  }

  // ---- sending -------------------------------------------------------------------------------

  datatype SendInput = SendInput(
    to: Id, body: string, mode: Option<Mode>, responseTo: Option<Id>, expiresIn: nat, context: string, key: Option<Id>)

  function ModeOf(input: SendInput): Mode {
    if input.mode.Some? then input.mode.value else Notify
  }

  function HashOf(input: SendInput): Fingerprint {
    Fingerprint(input.to, input.body, ModeOf(input), input.responseTo, input.expiresIn, input.context)
  }

  function OrderedPair(a: Id, b: Id): (Id, Id) {
    if a < b then (a, b) else (b, a)
  }

  predicate Linked(s: Scope, a: Id, b: Id) {
    OrderedPair(a, b) in s.links
  }

  function Keyed(s: Scope, sender: Participant, key: Id): set<Id> {
    set id | id in s.messages && s.messages[id].from == sender && s.messages[id].key == Some(key)
  }

  /** The message that an idempotency key already names, if any. */
  function Existing(s: Scope, sender: Participant, input: SendInput, world: World): Option<Id> {
    if input.key.None? || |world.order(Keyed(s, sender, input.key.value))| == 0 then None
    else Some(world.order(Keyed(s, sender, input.key.value))[0])
  }

  /** The kind of recipient a send may go to, after the checks on replies, links and recipients. */
  function Addressee(s: Scope, sender: Participant, input: SendInput, notification: bool): Result<Kind> {
    var kind :=
      if ModeOf(input) == Response then
        if input.responseTo.None? then Refused(InvalidArgument)
        else if input.responseTo.value !in s.messages || s.messages[input.responseTo.value].mode != Request then Refused(NotFound)
        else
          var request := s.messages[input.responseTo.value];
          if request.to != sender || request.from.id != input.to then Refused(NotFound)
          else if request.deliveredAt.None? then Refused(Conflict)
          else if request.repliedAt.Some? then Refused(Conflict)
          else Ok(request.from.kind)
      else if input.responseTo.Some? then Refused(InvalidArgument)
      else Ok(AgentKind);
    if kind.Refused? then kind
    else if sender.kind.AgentKind? && kind.value.AgentKind? && !notification then
      if Linked(s, sender.id, input.to) then kind else Refused(PermissionDenied)
    else if kind.value.AgentKind? && input.to !in s.agents then Refused(NotFound)
    else kind
  }

  function Backlog(s: Scope): set<Id> {
    set id | id in s.messages && Live(s.messages[id].state)
  }

  /** The row of a new message: a remote recipient has it at once, an agent or a human finds it queued. */
  function NewMessage(sender: Participant, kind: Kind, input: SendInput, now: Time): Message {
    var remote := kind.RemoteKind?;
    Message(sender, Participant(kind, input.to), ModeOf(input), input.body, input.context,
            input.responseTo, input.key, HashOf(input),
            if remote then Acknowledged else Queued, None,
            now, if input.expiresIn > 0 then Some(now + input.expiresIn) else None,
            if remote then Some(now) else None, if remote then Some(now) else None, None, None)
  }

  /** A new row under a freshly minted identifier. */
  function Inserted(s: Scope, id: Id, row: Message, now: Time): Scope {
    MoveMessage(s.(issued := s.issued + {id}), id, row, MessageAccepted, now)
  }

  /** A reply marks its request, and completes the remote task that the request belongs to. */
  function Answer(s: Scope, request: Id, response: Id, kind: Kind, now: Time): Scope
    requires request in s.messages
  {
    var s1 := s.(messages := s.messages[request := s.messages[request].(repliedAt := Some(now), response := Some(response))]);
    var s2 := Emit(s1, MessageReplied, MessageSubject(request), Unstated, now);
    if !kind.RemoteKind? then s2
    else
      var s3 := if request !in s2.correlations then s2
                else s2.(correlations := s2.correlations[request := s2.correlations[request].(response := Some(response), updatedAt := now)]);
      AdvanceRemote(s3, request, Reply, now)
  }

  /** bus/store.go sendMessageTx, inside a transaction that reads `tick` next and mints `mint` next. */
  function SendIn(s: Scope, sender: Participant, input: SendInput, notification: bool, tick: nat, mint: nat, world: World): Outcome<Id> {
    var now := world.tick(tick);
    var s1 := Expire(s, now, world);
    var existing := Existing(s1, sender, input, world);
    if existing.Some? then
      if existing.value in s1.messages && s1.messages[existing.value].hash == HashOf(input) then Outcome(s1, Ok(existing.value))
      else Outcome(s, Refused(Conflict))
    else
      var kind := Addressee(s1, sender, input, notification);
      if kind.Refused? then Outcome(s, Refused(kind.error))
      else if |Backlog(s1)| >= BACKLOG_CAP then Outcome(s, Refused(Backpressure))
      else
        var id := world.mint(mint);
        var s2 := Inserted(s1, id, NewMessage(sender, kind.value, input, now), now);
        Outcome(if ModeOf(input) == Response then Answer(s2, input.responseTo.value, id, kind.value, now) else s2, Ok(id))
  }

  function SendMessage(s: Scope, caller: Caller, input: SendInput, world: World): Outcome<Id> {
    if !Current(s, caller, world.tick(0)) then Outcome(s, Refused(Unauthenticated))
    else SendIn(s, Address(caller.agent), input, false, 1, 0, world)
  }

  /** A human member's message, or the bus's own answer to an agent on a human's behalf. */
  function SendAsHuman(s: Scope, human: Id, input: SendInput, world: World): Outcome<Id> {
    SendIn(s, Participant(HumanKind, human), input, false, 0, 0, world)
  }

  // ---- executions ----------------------------------------------------------------------------

  datatype RegisterInput = RegisterInput(agent: Option<Id>, lease: Time, connectTo: seq<Id>, workspace: bool)

  function Reachable(s: Scope, agent: Id, now: Time): set<Id> {
    set id | id in s.agents && id != agent && s.agents[id].leaseExpiresAt > now && !s.agents[id].lifecycle.Offline?
  }

  function ById(): Id -> Time {
    (id: Id) => id as Time
  }

  function LinkEvents(s: Scope, agent: Id, peers: seq<Id>): seq<Pending>
  {
    if peers == [] then [] else
      var init, last := peers[..|peers| - 1], peers[|peers| - 1];
      var pair := OrderedPair(agent, last);
      LinkEvents(s, agent, init) + if pair in s.links then [] else [Pending(LinkCreated, LinkSubject(pair.0, pair.1), Unstated)]
  }

  function PairsWith(agent: Id, peers: seq<Id>): set<(Id, Id)> {
    set peer | peer in peers :: OrderedPair(agent, peer)
  }

  /** bus/store.go linkRegisteredPeers, for a list without repetitions. */
  function LinkPeers(s: Scope, agent: Id, peers: seq<Id>, now: Time): Outcome<()> {
    if agent in peers then Outcome(s, Refused(InvalidArgument))
    else if exists peer :: peer in peers && peer !in s.agents then Outcome(s, Refused(NotFound))
    else Outcome(s.(links := s.links + PairsWith(agent, peers),
                    log := AppendAll(s.log, LinkEvents(s, agent, peers), now)), Ok(()))
  }

  function LinkAgents(s: Scope, left: Id, right: Id, world: World): Outcome<()> {
    if left == right then Outcome(s, Refused(InvalidArgument))
    else if left !in s.agents || right !in s.agents then Outcome(s, Refused(NotFound))
    else Outcome(if Linked(s, left, right) then s
                 else Emit(s.(links := s.links + {OrderedPair(left, right)}), LinkCreated,
                           LinkSubject(OrderedPair(left, right).0, OrderedPair(left, right).1), Unstated, world.tick(0)), Ok(()))
  }

  /** A new execution takes the agent's row; whatever the previous one held is released. */
  function TakeOver(s: Scope, agent: Id, row: AgentRow, world: World): Scope {
    var s1 := s.(agents := s.agents[agent := row], issued := s.issued + {row.execution, row.token});
    var rows := world.order(ReservationsOf(s1, agent));
    var s2 := ReleaseEach(s1, rows, 1, world);
    ReleaseStale(s2, world.tick(1 + |rows|), world)
  }

  function RegisterAgent(s: Scope, input: RegisterInput, world: World): Outcome<Caller> {
    var now := world.tick(0);
    var execution, token := world.mint(0), world.mint(1);
    var agent := if input.agent.Some? then input.agent.value else world.mint(2);
    var s1 := TakeOver(s, agent, AgentRow(execution, token, Starting, false, now + input.lease, now, now), world);
    var s2 := Emit(s1, AgentRegistered, AgentSubject(agent), Unstated, now);
    var nearby := if input.workspace then FirstRows(SortBy(world.order(Reachable(s2, agent, now)), ById()), PEER_CAP + 1) else [];
    var peers := Unique(input.connectTo + nearby);
    if input.workspace && |peers| > PEER_CAP then Outcome(s, Refused(Backpressure)) else
      var linked := LinkPeers(s2, agent, peers, now);
      if linked.result.Refused? then Outcome(s, Refused(linked.result.error))
      else Outcome(linked.scope, Ok(Caller(agent, execution)))
  }

  function Heartbeat(s: Scope, caller: Caller, lifecycle: Lifecycle, ready: bool, lease: Time, world: World): Outcome<bool> {
    var now := world.tick(0);
    if !Current(s, caller, now) then Outcome(s, Refused(Unauthenticated)) else
      var row := s.agents[caller.agent];
      var changed := row.lifecycle != lifecycle || row.ready != ready;
      var s1 := s.(agents := s.agents[caller.agent := row.(lifecycle := lifecycle, ready := ready, leaseExpiresAt := now + lease, updatedAt := now)]);
      Outcome(if changed then Emit(s1, LifecycleChanged, AgentSubject(caller.agent), Unstated, now) else s1, Ok(changed))
  }

  function Holders(s: Scope, token: Id): set<Id> {
    set id | id in s.agents && s.agents[id].token == token
  }

  function Rested(row: AgentRow, now: Time): AgentRow {
    row.(lifecycle := Offline, ready := false, leaseExpiresAt := 0, updatedAt := now)
  }

  /** bus/retire.go RetireAgent. An execution that is already at rest stays as it is. */
  function RetireAgent(s: Scope, token: Id, world: World): Outcome<Caller> {
    var holders := world.order(Holders(s, token));
    if |holders| == 0 || holders[0] !in s.agents then Outcome(s, Refused(Unauthenticated)) else
      var agent := holders[0];
      var row := s.agents[agent];
      var caller := Caller(agent, row.execution);
      if row.leaseExpiresAt == 0 then Outcome(s, Ok(caller)) else
        var s1 := s.(agents := s.agents[agent := Rested(row, world.tick(0))]);
        var rows := world.order(ReservationsOf(s1, agent));
        var s2 := ReleaseStale(ReleaseEach(s1, rows, 1, world), world.tick(1 + |rows|), world);
        Outcome(Emit(s2, LifecycleChanged, AgentSubject(agent), Unstated, world.tick(0)), Ok(caller))
  }

  /** Release the reservations of every listed agent in turn. */
  function ReleaseAgents(s: Scope, agents: seq<Id>, tick: nat, world: World): Scope
    decreases |agents|
  {
    if agents == [] then s else
      var s1 := ReleaseAgents(s, agents[..|agents| - 1], tick, world);
      ReleaseEach(s1, world.order(ReservationsOf(s1, agents[|agents| - 1])), tick, world)
  }

  function RestAll(s: Scope, now: Time): Scope {
    s.(agents := map id | id in s.agents :: Rested(s.agents[id], now))
  }

  /** Every execution ended, every reservation released, every claim reopened. */
  function EndAll(s: Scope, world: World): Scope {
    var s1 := ReleaseAgents(RestAll(s, world.tick(0)), world.order(s.agents.Keys), 1, world);
    ReleaseStale(s1, world.tick(1), world)
  }

  function DisableAll(s: Scope): Scope {
    s.(credentials := map id | id in s.credentials :: s.credentials[id].(enabled := false))
  }

  /** bus/scope_admin.go RotateScopeToken: every execution ends and every scoped credential is disabled. */
  function RotateScopeToken(s: Scope, world: World): Scope {
    Emit(DisableAll(EndAll(s, world)), CredentialsRotated, ScopeSubject, Unstated, world.tick(0))
  }

  // ---- the task board ------------------------------------------------------------------------

  predicate ClaimLives(s: Scope, task: Task, now: Time) {
    && task.claimedBy.Some? && task.claimedExecution.Some?
    && Current(s, Caller(task.claimedBy.value, task.claimedExecution.value), now)
  }

  function Stale(s: Scope, now: Time): set<Id> {
    set id | id in s.tasks && s.tasks[id].status == Claimed && !ClaimLives(s, s.tasks[id], now)
  }

  function MoveTask(s: Scope, id: Id, row: Task, kind: EventKind, now: Time): Scope {
    Emit(s.(tasks := s.tasks[id := row]), kind, TaskSubject(id), TaskStatus(row.status), now)
  }

  /** A claimed task becomes open again; any other is left alone. */
  function AsReopened(t: Task, now: Time): Task {
    if t.status != Claimed then t else t.(status := Open, claimedBy := None, claimedExecution := None, updatedAt := now)
  }

  function ReopenRow(s: Scope, id: Id, now: Time): Scope
    requires id in s.tasks
  {
    if s.tasks[id].status != Claimed then s
    else MoveTask(s, id, AsReopened(s.tasks[id], now), TaskReleased, now)
  }

  function ReopenRows(s: Scope, ids: seq<Id>, now: Time): Scope
    decreases |ids|
  {
    if ids == [] then s else
      var s1 := ReopenRows(s, ids[..|ids| - 1], now);
      if ids[|ids| - 1] in s1.tasks then ReopenRow(s1, ids[|ids| - 1], now) else s1
  }

  /** The stale claims, ORDER BY task_id. */
  function StaleRows(s: Scope, now: Time, world: World): seq<Id> {
    SortBy(world.order(Stale(s, now)), ById())
  }

  /** bus/store.go releaseStaleTaskClaims. */
  function ReleaseStale(s: Scope, now: Time, world: World): Scope {
    ReopenRows(s, StaleRows(s, now, world), now)
  }

  function Unfinished(s: Scope): set<Id> {
    set id | id in s.tasks && s.tasks[id].status != Done
  }

  function AddTask(s: Scope, caller: Option<Caller>, title: string, dependencies: seq<Id>, world: World): Outcome<Id> {
    if caller.Some? && !Current(s, caller.value, world.tick(0)) then Outcome(s, Refused(Unauthenticated))
    else if |Unfinished(s)| >= ACTIVE_TASK_CAP then Outcome(s, Refused(Backpressure))
    else if exists d :: d in dependencies && d !in s.tasks then Outcome(s, Refused(NotFound))
    else
      var id, now := world.mint(0), world.tick(1);
      var creator := if caller.Some? then Some(caller.value.agent) else None;
      var row := Task(title, creator, None, None, Open, Unique(dependencies), None, now, now);
      Outcome(MoveTask(s.(issued := s.issued + {id}, progress := s.progress[id := []]), id, row, TaskCreated, now), Ok(id))
  }

  /** Every dependency of a task is done. */
  predicate Unblocked(s: Scope, dependencies: seq<Id>) {
    forall d :: d in dependencies ==> d in s.tasks && s.tasks[d].status == Done
  }

  function ClaimTask(s: Scope, caller: Caller, id: Id, world: World): Outcome<()> {
    if !Current(s, caller, world.tick(0)) then Outcome(s, Refused(Unauthenticated)) else
      var s1 := ReleaseStale(s, world.tick(1), world);
      if id !in s1.tasks then Outcome(s, Refused(NotFound))
      else if s1.tasks[id].status != Open || !Unblocked(s1, s1.tasks[id].dependencies) then Outcome(s, Refused(Conflict))
      else
        var row := s1.tasks[id].(status := Claimed, claimedBy := Some(caller.agent), claimedExecution := Some(caller.execution), updatedAt := world.tick(2));
        Outcome(MoveTask(s1, id, row, TaskClaimed, world.tick(2)), Ok(()))
  }

  predicate ClaimedBy(s: Scope, id: Id, caller: Caller) {
    && id in s.tasks && s.tasks[id].status == Claimed
    && s.tasks[id].claimedBy == Some(caller.agent) && s.tasks[id].claimedExecution == Some(caller.execution)
  }

  function CompleteTask(s: Scope, caller: Caller, id: Id, note: Option<string>, world: World): Outcome<()> {
    if !Current(s, caller, world.tick(0)) then Outcome(s, Refused(Unauthenticated))
    else if !ClaimedBy(s, id, caller) then Outcome(s, Refused(Conflict))
    else Outcome(MoveTask(s, id, s.tasks[id].(status := Done, note := note, updatedAt := world.tick(1)), TaskCompleted, world.tick(1)), Ok(()))
  }

  function ReleaseTask(s: Scope, caller: Caller, id: Id, world: World): Outcome<()> {
    if !Current(s, caller, world.tick(0)) then Outcome(s, Refused(Unauthenticated))
    else if !ClaimedBy(s, id, caller) then Outcome(s, Refused(Conflict))
    else Outcome(ReopenRow(s, id, world.tick(1)), Ok(()))
  }

  function MaxSequence(rows: seq<Progress>): nat {
    if rows == [] then 0 else Max(MaxSequence(rows[..|rows| - 1]), rows[|rows| - 1].sequence)
  }

  function TextBytes(rows: seq<Progress>): nat {
    if rows == [] then 0 else TextBytes(rows[..|rows| - 1]) + |rows[|rows| - 1].text|
  }

  function AddTaskProgress(s: Scope, caller: Caller, id: Id, text: string, world: World): Outcome<nat> {
    var now := world.tick(0);
    if !Current(s, caller, now) then Outcome(s, Refused(Unauthenticated))
    else if id !in s.tasks then Outcome(s, Refused(NotFound))
    else if !ClaimedBy(s, id, caller) then Outcome(s, Refused(Conflict))
    else
      var rows := if id in s.progress then s.progress[id] else [];
      if |rows| >= PROGRESS_CAP || TextBytes(rows) + |text| > PROGRESS_BYTES then Outcome(s, Refused(Backpressure)) else
        var sequence := MaxSequence(rows) + 1;
        Outcome(Emit(s.(progress := s.progress[id := rows + [Progress(sequence, caller.agent, caller.execution, text, now)]]),
                     TaskProgressAdded, TaskSubject(id), Unstated, now), Ok(sequence))
  }

  /** ListTasks writes only by releasing stale claims. */
  function ListTasks(s: Scope, world: World): Scope {
    ReleaseStale(s, world.tick(0), world)
  }
}
