/** Identifiers, rows and the outside world of one scope of the bus.

    An identifier is opaque to the bus, apart from the order that keeps a peer link's two ends
    apart; a number stands for one. A row keeps the columns that a decision, an invariant or an
    archive depends on. */
module Model {

  datatype Option<+T> = None | Some(value: T)

  datatype ErrorCode = InvalidArgument | Unauthenticated | PermissionDenied | NotFound | Conflict | Backpressure

  datatype Result<+T> = Ok(value: T) | Refused(error: ErrorCode)

  type Id = nat
  type Time = int

  /** A participant of a message: bus/protocol.go's kind together with the identifier. */
  datatype Kind = AgentKind | RemoteKind | HumanKind
  datatype Participant = Participant(kind: Kind, id: Id)

  datatype Mode = Notify | Request | Response
  datatype State = Queued | Reserved | Delivered | Acknowledged | Expired

  /** A queued, reserved or delivered message counts towards the backlog and can still expire. */
  predicate Live(state: State) {
    state != Acknowledged && state != Expired
  }

  /** The content that identifies a send. The digest is modelled as injective: it is the tuple it digests. */
  datatype Fingerprint = Fingerprint(to: Id, body: string, mode: Mode, responseTo: Option<Id>, expiresIn: Time, context: string)

  datatype Message = Message(
    from: Participant, to: Participant, mode: Mode, body: string, context: string,
    responseTo: Option<Id>, key: Option<Id>, hash: Fingerprint,
    state: State, reservation: Option<Id>,
    createdAt: Time, expiresAt: Option<Time>, deliveredAt: Option<Time>, acknowledgedAt: Option<Time>,
    repliedAt: Option<Time>, response: Option<Id>)

  /** `maker` is a history variable: the execution that made the reservation. No operation reads it. */
  datatype Reservation = Reservation(agent: Id, createdAt: Time, expiresAt: Time, maker: Id)

  datatype Lifecycle = Starting | Ready | Working | Idle | NeedsInput | Offline

  datatype AgentRow = AgentRow(
    execution: Id, token: Id, lifecycle: Lifecycle, ready: bool, leaseExpiresAt: Time, registeredAt: Time, updatedAt: Time)

  datatype Status = Open | Claimed | Done

  datatype Task = Task(
    title: string, createdBy: Option<Id>, claimedBy: Option<Id>, claimedExecution: Option<Id>, status: Status,
    dependencies: seq<Id>, note: Option<string>, createdAt: Time, updatedAt: Time)

  datatype Progress = Progress(sequence: nat, agent: Id, execution: Id, text: string, createdAt: Time)

  datatype RemoteState = Submitted | InProgress | InputRequired | Completed | Failed | Canceled | Rejected

  datatype RemoteTask = RemoteTask(
    context: Id, principal: Id, publication: Id, target: Id, state: RemoteState, createdAt: Time, updatedAt: Time)

  /** The content that identifies a remote message, under the same reading of the digest. */
  datatype RemoteFingerprint = RemoteFingerprint(task: Option<Id>, context: Option<Id>, client: Id, body: string)

  /** One row of a2a_message_correlations. Its bus request is unique in the table and is the map key. */
  datatype Correlation = Correlation(
    principal: Id, client: Id, task: Id, hash: RemoteFingerprint, response: Option<Id>, createdAt: Time, updatedAt: Time)

  datatype Publication = Publication(agent: Id, enabled: bool)
  datatype Credential = Credential(publication: Id, enabled: bool)

  // ---- events --------------------------------------------------------------------------------

  datatype Subject = ScopeSubject | AgentSubject(id: Id) | LinkSubject(left: Id, right: Id)
                   | MessageSubject(id: Id) | TaskSubject(id: Id) | RemoteSubject(id: Id)
                   | ChannelSubject(id: Id) | PostSubject(id: Id)

  /** The `state` or `status` attribute of an event, when it carries one. */
  datatype Attribute = Unstated | MessageState(state: State) | TaskStatus(status: Status) | RemoteTaskState(remote: RemoteState)

  datatype EventKind =
    | ScopeImported | CredentialsRotated | AgentRegistered | LifecycleChanged | LinkCreated
    | MessageAccepted | MessageReplied | MessageReserved | MessageReleased | MessageDelivered | MessageAcknowledged | MessageExpired
    | TaskCreated | TaskClaimed | TaskCompleted | TaskReleased | TaskProgressAdded
    | RemoteTaskCreated | RemoteTaskStateChanged | RemoteMessageAccepted | PublicationChanged
    | ChannelCreated | ChannelPosted

  datatype Pending = Pending(kind: EventKind, subject: Subject, attribute: Attribute)
  datatype Event = Event(revision: nat, what: Pending, createdAt: Time)

  // ---- the outside world ---------------------------------------------------------------------

  /** `rows` lists each element of `ids` exactly once. */
  ghost predicate Lists(rows: seq<Id>, ids: set<Id>) {
    && (forall id :: id in rows <==> id in ids)
    && Distinct(rows)
  }

  ghost predicate Distinct(rows: seq<Id>) {
    forall i, j :: 0 <= i < j < |rows| ==> rows[i] != rows[j]
  }

  ghost function SomeOrder(ids: set<Id>): (rows: seq<Id>)
    ensures Lists(rows, ids)
  {
    if ids == {} then [] else
      var id :| id in ids;
      [id] + SomeOrder(ids - {id})
  }

  /** How the database engine orders the rows of a query without ORDER BY: any listing of them. */
  type RowOrder = order: set<Id> -> seq<Id> | forall ids :: Lists(order(ids), ids) ghost witness ids => SomeOrder(ids)

  /** What one transaction takes from outside: row orders, successive clock readings, and random identifiers. */
  datatype World = World(order: RowOrder, tick: nat -> Time, mint: nat -> Id)

  /** The clock never runs backwards and no random identifier repeats. */
  ghost predicate Fair(world: World, since: Time, issued: set<Id>) {
    && (forall i, j :: i <= j ==> world.tick(i) <= world.tick(j))
    && since <= world.tick(0)
    && (forall i, j :: world.mint(i) == world.mint(j) ==> i == j)
    && (forall i :: world.mint(i) !in issued)
  }
}
