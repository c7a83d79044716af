/** A run from a new scope in which an agent answers a remote request under a key, and what an import makes of it. */
module AnsweredRuns {
  import opened Model
  import opened Logs
  import opened Scopes
  import opened RemoteWork
  import opened Totals
  import opened Invariants
  import opened Sweeps
  import opened InboxSteps
  import opened RemoteSteps
  import opened Runs
  import opened Fencing
  import opened Archives
  import opened ArchiveLaws
  import opened ArchiveRetries

  /** Agent 1 registers and is published; a credential asks something of it, and the agent takes the request. */
  ghost function Asking(): seq<Turn> {
    [Expiring()[0], Publishing(), Granting(), Sending(), Taking(), Committing()]
  }

  ghost function Publishing(): Turn {
    Turn(PublishAgent(1), At(1, 20), 1)
  }

  ghost function Granting(): Turn {
    Turn(Issue(20), At(2, 30), 2)
  }

  ghost function Sending(): Turn {
    Turn(Accept(Asker(), Limits(1, 10), Question()), At(3, 40), 3)
  }

  ghost function Taking(): Turn {
    Turn(Reserve(Caller(1, 10), 1), At(4, 50), 4)
  }

  ghost function Committing(): Turn {
    Turn(Commit(Caller(1, 10), 50), At(5, 60), 5)
  }

  function Asker(): RemoteCaller {
    RemoteCaller(30, 20)
  }

  function Question(): AcceptInput {
    AcceptInput(None, None, 5, "x")
  }

  ghost function Published(hosted: bool): Scope {
    Joined(hosted).(publications := map[20 := Publication(1, true)], issued := {10, 11, 20}, clock := 1)
  }

  ghost function Granted(hosted: bool): Scope {
    Published(hosted).(credentials := map[30 := Credential(20, true)], issued := {10, 11, 20, 30}, clock := 2)
  }

  function Ask(): SendInput {
    SendInput(1, "x", Some(Request), None, 0, "[]", Some(5))
  }

  function Asked(): Message {
    NewMessage(Participant(RemoteKind, 30), AgentKind, Ask(), 3)
  }

  function Errand(): RemoteTask {
    RemoteTask(41, 30, 20, 1, Submitted, 3, 3)
  }

  function Work(): Correlation {
    Correlation(30, 5, 40, AcceptHash(Question()), None, 3, 3)
  }

  ghost function Waits(hosted: bool): Scope {
    Granted(hosted).(messages := map[42 := Asked()], remoteTasks := map[40 := Errand()], correlations := map[42 := Work()],
                     issued := {10, 11, 20, 30, 40, 42}, clock := 3)
  }

  ghost function Taken(hosted: bool): Scope {
    Waits(hosted).(messages := map[42 := AsReserved(Asked(), 50)], reservations := map[50 := Reservation(1, 4, 4 + RESERVATION_TTL, 10)],
                   issued := {10, 11, 20, 30, 40, 42, 50}, clock := 4)
  }

  ghost function Seen(hosted: bool): Scope {
    Taken(hosted).(messages := map[42 := AsDelivered(AsReserved(Asked(), 50), 5)], reservations := map[],
                   remoteTasks := map[40 := Errand().(state := InProgress, updatedAt := 5)], clock := 5)
  }

  // ---- turn by turn --------------------------------------------------------------------------

  lemma PublishIs(s: Scope)
    ensures Step(s, Publishing()) == Publish(s, 1, At(1, 20)).scope.(clock := 1) && Sensible(Publishing().op)
  {
    hide Publish, At;
  }

  lemma PublishTurn(hosted: bool, log: Log)
    ensures var s := Joined(hosted).(log := log); var t := Step(s, Publishing());
            Possible(s, Publishing()) && t == Published(hosted).(log := t.log)
  {
    hide Emit, SomeOrder, Step, Sensible;
    var s := Joined(hosted).(log := log);
    AtIsFair(1, 20, s);
    PublishIs(s);
    var t := s.(publications := s.publications[20 := Publication(1, true)], issued := s.issued + {20});
    EmitsOnly(t, PublicationChanged, ScopeSubject, Unstated, 1);
    assert s.publications[20 := Publication(1, true)] == map[20 := Publication(1, true)];
    assert s.issued + {20} == {10, 11, 20};
  }

  lemma EmitsOnly(s: Scope, kind: EventKind, subject: Subject, attribute: Attribute, now: Time)
    ensures var t := Emit(s, kind, subject, attribute, now); t == s.(log := t.log)
  {
    hide Append;
  }

  lemma IssueIs(s: Scope)
    ensures Step(s, Granting()) == IssueCredential(s, 20, At(2, 30)).scope.(clock := 2) && Sensible(Granting().op)
  {
    hide IssueCredential, At;
  }

  lemma IssueTurn(hosted: bool, log: Log)
    ensures var s := Published(hosted).(log := log); var t := Step(s, Granting());
            Possible(s, Granting()) && t == Granted(hosted).(log := t.log)
  {
    hide Emit, SomeOrder, Step, Sensible, Joined;
    var s := Published(hosted).(log := log);
    JoinedBlank(hosted);
    AtIsFair(2, 30, s);
    IssueIs(s);
    var t := s.(credentials := s.credentials[30 := Credential(20, true)], issued := s.issued + {30});
    EmitsOnly(t, PublicationChanged, ScopeSubject, Unstated, 2);
    assert s.credentials[30 := Credential(20, true)] == map[30 := Credential(20, true)];
    assert s.issued + {30} == {10, 11, 20, 30};
  }

  lemma JoinedBlank(hosted: bool)
    ensures var s := Joined(hosted);
            && s.messages == map[] && s.reservations == map[] && s.credentials == map[] && s.remoteTasks == map[] && s.correlations == map[] && s.tasks == map[]
            && s.agents == map[1 := Newcomer()]
  {
  }

  lemma SweepsNothing(s: Scope, now: Time, world: World)
    requires s.messages == map[]
    ensures Expire(s, now, world) == s
  {
    assert Due(s, now) == {};
    Fencing.NothingDue(s, now, world);
  }

  /** The first message of a scope, to an agent that is there. */
  lemma AskIsSent(s: Scope)
    requires s.messages == map[] && 1 in s.agents
    ensures SendIn(s, Participant(RemoteKind, 30), Ask(), false, 2, 2, At(3, 40)) == Outcome(Inserted(s, 42, Asked(), 3), Ok(42))
  {
    hide SomeOrder, NewMessage, Inserted, Answer, Expire;
    var world := At(3, 40);
    SweepsNothing(s, 3, world);
    assert Backlog(s) == {} && Keyed(s, Participant(RemoteKind, 30), 5) == {};
    assert Lists(world.order({}), {});
    NoneListed(world.order({}));
  }

  lemma NothingUnfinished(s: Scope)
    requires s.messages == map[] && s.correlations == map[]
    ensures !OverBudget(s, Asker(), Limits(1, 10), 1) && Correlated(s, 30, 5) == {}
  {
    assert UnfinishedWork(s, 30) == {} && RemoteBacklog(s) == {};
  }

  ghost function Chosen(s: Scope): Scope {
    Emit(s.(remoteTasks := s.remoteTasks[40 := Errand()], issued := s.issued + {40}), RemoteTaskCreated, RemoteSubject(40), RemoteTaskState(Submitted), 3)
  }

  lemma TaskIsNew(s: Scope)
    requires s.publications == map[20 := Publication(1, true)]
    ensures TaskFor(s, Asker(), Question(), 3, At(3, 40)) == Outcome(Chosen(s), Ok(40))
  {
    hide Emit, SomeOrder;
  }

  lemma ChosenFrame(s: Scope)
    ensures var t := Chosen(s);
            t == s.(remoteTasks := s.remoteTasks[40 := Errand()], issued := s.issued + {40}, log := t.log)
  {
    hide Emit;
    EmitsOnly(s.(remoteTasks := s.remoteTasks[40 := Errand()], issued := s.issued + {40}), RemoteTaskCreated, RemoteSubject(40), RemoteTaskState(Submitted), 3);
  }

  lemma AcceptIs(s: Scope)
    requires s.messages == map[] && s.correlations == map[] && 1 in s.agents
    requires s.publications == map[20 := Publication(1, true)] && s.credentials == map[30 := Credential(20, true)]
    ensures AcceptMessage(s, Asker(), Limits(1, 10), Question(), At(3, 40)).scope == Correlate(Inserted(Chosen(s), 42, Asked(), 3), 42, Work(), 3)
  {
    hide SomeOrder, Inserted, Chosen, Asked, TaskFor, SendIn, Expire, OverBudget, Correlated, Correlate;
    var world := At(3, 40);
    SweepsNothing(s, 3, world);
    NothingUnfinished(s);
    assert Lists(world.order({}), {});
    NoneListed(world.order({}));
    TaskIsNew(s);
    ChosenFrame(s);
    AskIsSent(Chosen(s));
  }

  lemma SendingIs(s: Scope)
    ensures Step(s, Sending()) == AcceptMessage(s, Asker(), Limits(1, 10), Question(), At(3, 40)).scope.(clock := 3) && Sensible(Sending().op)
  {
    hide AcceptMessage, At;
  }

  lemma GrantedFields(hosted: bool)
    ensures var s := Granted(hosted);
            && s.messages == map[] && s.reservations == map[] && s.correlations == map[] && s.remoteTasks == map[] && s.agents == map[1 := Newcomer()]
            && s.publications == map[20 := Publication(1, true)] && s.credentials == map[30 := Credential(20, true)]
            && s.issued == {10, 11, 20, 30} && s.clock == 2
  {
  }

  lemma CorrelateFrame(s: Scope, request: Id, row: Correlation, now: Time)
    requires row.task in s.remoteTasks
    ensures var t := Correlate(s, request, row, now);
            t == s.(correlations := s.correlations[request := row], remoteTasks := s.remoteTasks[row.task := s.remoteTasks[row.task].(updatedAt := now)], log := t.log)
  {
    hide Append;
  }

  lemma InsertedFrame(s: Scope, id: Id, row: Message, now: Time)
    ensures var t := Inserted(s, id, row, now);
            t == s.(messages := s.messages[id := row], issued := s.issued + {id}, log := t.log)
  {
    hide Append;
  }

  lemma SendingTurn(hosted: bool, log: Log)
    ensures var s := Granted(hosted).(log := log); var t := Step(s, Sending());
            Possible(s, Sending()) && t == Waits(hosted).(log := t.log)
  {
    hide SomeOrder, Step, Sensible, Granted, Correlate, Inserted, Chosen, Asked, AcceptMessage;
    var s := Granted(hosted).(log := log);
    GrantedFields(hosted);
    AtIsFair(3, 40, s);
    SendingIs(s);
    AcceptIs(s);
    ChosenFrame(s);
    InsertedFrame(Chosen(s), 42, Asked(), 3);
    CorrelateFrame(Inserted(Chosen(s), 42, Asked(), 3), 42, Work(), 3);
    assert s.messages[42 := Asked()] == map[42 := Asked()] && s.correlations[42 := Work()] == map[42 := Work()];
    assert s.remoteTasks[40 := Errand()][40 := Errand()] == map[40 := Errand()];
    assert s.issued + {40} + {42} == {10, 11, 20, 30, 40, 42};
  }

  lemma AskedIs()
    ensures Asked().to == Address(1) && Asked().from == Participant(RemoteKind, 30) && Asked().state == Queued && Asked().expiresAt == None
    ensures Asked().mode == Request && Asked().deliveredAt.None? && Asked().repliedAt.None? && Asked().key == Some(5) && Asked().reservation.None?
  {
  }

  /** Nothing expires in a scope whose one message has no expiry. */
  lemma KeepsTheOne(s: Scope, id: Id, now: Time, world: World)
    requires s.messages.Keys == {id} && s.messages[id].expiresAt.None?
    ensures Expire(s, now, world) == s
  {
    assert Due(s, now) == {};
    Fencing.NothingDue(s, now, world);
  }

  lemma PageOfOne(s: Scope)
    requires s.messages == map[42 := Asked()] && s.reservations == map[]
    ensures Tidied(s, 4, At(4, 50)) == s && InboxPage(s, 1, 1, 4, At(4, 50)) == [42]
  {
    hide SomeOrder, Asked, Expire;
    var world := At(4, 50);
    AskedIs();
    KeepsTheOne(s, 42, 4, world);
    assert Lapsed(s, 4) == {} && Lists(world.order({}), {});
    NoneListed(world.order({}));
    assert Scopes.Waiting(s, 1, 4) == {42};
    assert Lists(world.order({42}), {42});
    SortByLists(world.order({42}), {42}, Age(s));
    OneListed(SortBy(world.order({42}), Age(s)), 42);
  }

  lemma TakingIs(s: Scope)
    ensures Step(s, Taking()) == ReserveInbox(s, Caller(1, 10), 1, At(4, 50)).scope.(clock := 4) && Sensible(Taking().op)
  {
    hide ReserveInbox, At;
  }

  lemma WaitsFields(hosted: bool)
    ensures var s := Waits(hosted);
            && s.messages == map[42 := Asked()] && s.reservations == map[] && s.agents == map[1 := Newcomer()]
            && s.issued == {10, 11, 20, 30, 40, 42} && s.clock == 3
  {
    hide Asked;
  }

  lemma TakesPage(s: Scope)
    requires s.messages == map[42 := Asked()] && s.reservations == map[] && s.agents == map[1 := Newcomer()]
    ensures ReserveInbox(s, Caller(1, 10), 1, At(4, 50)).scope
         == ReserveRows(s.(reservations := s.reservations[50 := Reservation(1, 4, 4 + RESERVATION_TTL, 10)], issued := s.issued + {50}), [42], 50, 4)
  {
    hide SomeOrder, Tidied, InboxPage, ReserveRows, Asked;
    PageOfOne(s);
  }

  lemma TakingTurn(hosted: bool, log: Log)
    ensures var s := Waits(hosted).(log := log); var t := Step(s, Taking());
            Possible(s, Taking()) && t == Taken(hosted).(log := t.log)
  {
    hide SomeOrder, Step, Sensible, Waits, ReserveInbox, ReserveRows, Asked, AsReserved;
    var s := Waits(hosted).(log := log);
    WaitsFields(hosted);
    AtIsFair(4, 50, s);
    TakingIs(s);
    TakesPage(s);
    var row := Reservation(1, 4, 4 + RESERVATION_TTL, 10);
    ReservesOne(s.(reservations := s.reservations[50 := row], issued := s.issued + {50}), 42, 50, 4);
    assert s.reservations[50 := row] == map[50 := row];
    assert s.issued + {50} == {10, 11, 20, 30, 40, 42, 50};
  }

  // ---- the commit ----------------------------------------------------------------------------

  ghost function Held1(): Message {
    AsReserved(Asked(), 50)
  }

  lemma TakenFields(hosted: bool)
    ensures var s := Taken(hosted);
            && s.messages == map[42 := Held1()] && s.reservations == map[50 := Reservation(1, 4, 4 + RESERVATION_TTL, 10)] && s.agents == map[1 := Newcomer()]
            && s.remoteTasks == map[40 := Errand()] && s.correlations == map[42 := Work()]
            && s.issued == {10, 11, 20, 30, 40, 42, 50} && s.clock == 4
  {
    hide Asked;
  }

  lemma DeliversOne(s: Scope)
    requires s.messages == map[42 := Held1()] && s.remoteTasks == map[40 := Errand()] && s.correlations == map[42 := Work()]
    ensures var t := DeliverRows(s, [42], 5);
            t == s.(messages := map[42 := AsDelivered(Held1(), 5)], remoteTasks := map[40 := Errand().(state := InProgress, updatedAt := 5)], log := t.log)
  {
    hide Append, AsDelivered, Asked;
    AskedIs();
    assert [42][..0] == [];
    assert s.messages[42 := AsDelivered(Held1(), 5)] == map[42 := AsDelivered(Held1(), 5)];
    assert s.remoteTasks[40 := Errand().(state := InProgress, updatedAt := 5)] == map[40 := Errand().(state := InProgress, updatedAt := 5)];
  }

  lemma HoldsOne(s: Scope)
    requires s.messages == map[42 := Held1()]
    ensures Expire(s, 5, At(5, 60)) == s && SortBy(At(5, 60).order(Held(s, 1, 50)), Age(s)) == [42]
  {
    hide SomeOrder, Asked, Expire;
    var world := At(5, 60);
    AskedIs();
    KeepsTheOne(s, 42, 5, world);
    assert Held(s, 1, 50) == {42};
    assert Lists(world.order({42}), {42});
    SortByLists(world.order({42}), {42}, Age(s));
    OneListed(SortBy(world.order({42}), Age(s)), 42);
  }

  lemma CommitIs(s: Scope)
    requires s.messages == map[42 := Held1()] && s.reservations == map[50 := Reservation(1, 4, 4 + RESERVATION_TTL, 10)] && s.agents == map[1 := Newcomer()]
    ensures var t := DeliverRows(s, [42], 5);
            CommitInbox(s, Caller(1, 10), 50, At(5, 60)).scope == t.(reservations := t.reservations - {50})
  {
    hide SomeOrder, Held1, Expire, DeliverRows, Held, Age, SortBy, Release, FreeRows;
    HoldsOne(s);
  }

  lemma CommittingIs(s: Scope)
    ensures Step(s, Committing()) == CommitInbox(s, Caller(1, 10), 50, At(5, 60)).scope.(clock := 5) && Sensible(Committing().op)
  {
    hide CommitInbox, At;
  }

  lemma CommittingTurn(hosted: bool, log: Log)
    ensures var s := Taken(hosted).(log := log); var t := Step(s, Committing());
            Possible(s, Committing()) && t == Seen(hosted).(log := t.log)
  {
    hide SomeOrder, Step, Sensible, Taken, DeliverRows, CommitInbox, Asked, AsDelivered, AsReserved;
    var s := Taken(hosted).(log := log);
    TakenFields(hosted);
    AtIsFair(5, 60, s);
    CommittingIs(s);
    CommitIs(s);
    DeliversOne(s);
    assert s.reservations - {50} == map[];
  }

  // ---- the whole run -------------------------------------------------------------------------

  lemma AskingUnfolds(hosted: bool)
    ensures Unfolds(Fresh(hosted), Asking())
    ensures var s := Run(Fresh(hosted), Asking()); s == Seen(hosted).(log := s.log)
  {
    hide Step, Possible, Fresh, Joined, Published, Granted, Waits, Taken, Seen, Publishing, Granting, Sending, Taking, Committing, Expiring, Run, Unfolds;
    var s0, turns := Fresh(hosted), Asking();
    FirstTurn(hosted);
    var s1 := Step(s0, turns[0]);
    PublishTurn(hosted, s1.log);
    var s2 := Step(s1, turns[1]);
    IssueTurn(hosted, s2.log);
    var s3 := Step(s2, turns[2]);
    SendingTurn(hosted, s3.log);
    var s4 := Step(s3, turns[3]);
    TakingTurn(hosted, s4.log);
    var s5 := Step(s4, turns[4]);
    CommittingTurn(hosted, s5.log);
    SixTurns(turns, s0, s1, s2, s3, s4, s5);
  }

  lemma SixTurns(turns: seq<Turn>, s0: Scope, s1: Scope, s2: Scope, s3: Scope, s4: Scope, s5: Scope)
    requires |turns| == 6
    requires Possible(s0, turns[0]) && s1 == Step(s0, turns[0]) && Possible(s1, turns[1]) && s2 == Step(s1, turns[1])
    requires Possible(s2, turns[2]) && s3 == Step(s2, turns[2]) && Possible(s3, turns[3]) && s4 == Step(s3, turns[3])
    requires Possible(s4, turns[4]) && s5 == Step(s4, turns[4]) && Possible(s5, turns[5])
    ensures Unfolds(s0, turns) && Run(s0, turns) == Step(s5, turns[5])
  {
    hide Step, Possible;
    ThreeTurns(s0, turns[..3]);
    ThreeTurns(s3, turns[3..]);
    assert turns[..3] + turns[3..] == turns;
    RunSplits(s0, turns[..3], turns[3..]);
  }

  /** The agent's answer, under a key of its own. */
  function Reply(): SendInput {
    SendInput(30, "y", Some(Response), Some(42), 0, "[]", Some(6))
  }

  lemma SeenFields(hosted: bool)
    ensures var s := Seen(hosted);
            && s.messages.Keys == {42} && s.messages[42] == AsDelivered(Held1(), 5) && s.agents == map[1 := Newcomer()] && s.clock == 5
            && s.issued == {10, 11, 20, 30, 40, 42, 50}
  {
    hide Asked;
  }

  lemma ReplyIsSent(s: Scope)
    requires s.messages.Keys == {42} && s.messages[42] == AsDelivered(Held1(), 5) && s.agents == map[1 := Newcomer()]
    ensures Scopes.SendMessage(s, Caller(1, 10), Reply(), At(6, 70)).result == Ok(70)
  {
    hide SomeOrder, NewMessage, Inserted, Answer, Expire, Asked;
    var world := At(6, 70);
    AskedIs();
    KeepsTheOne(s, 42, 6, world);
    assert Keyed(s, Address(1), 6) == {} && Lists(world.order({}), {});
    NoneListed(world.order({}));
    assert Backlog(s) == {42};
  }

  /** In this run from a new scope the agent's keyed answer succeeds. In whatever scope it is imported into afterwards, the
      agent's retry of the very same answer is refused as a different one, unless the credential's name is an archived one. */
  lemma AnAnswerIsRefusedLater(hosted: bool, t: Scope, naming: Naming, world: World)
    ensures Unfolds(Fresh(hosted), Asking())
    ensures Scopes.SendMessage(Run(Fresh(hosted), Asking()), Caller(1, 10), Reply(), At(6, 70)).result == Ok(70)
    ensures Inv(t) && Imports(Scopes.SendMessage(Run(Fresh(hosted), Asking()), Caller(1, 10), Reply(), At(6, 70)).scope, t, naming)
            ==> SendIn(t, Address(1), Reply(), false, 1, 0, world).result == if naming.portable(30) then Ok(70) else Refused(Conflict)
  {
    hide Run, Unfolds, Inv, Imports, SendIn, Seen, Fresh, Asking, Reply, At, Scopes.SendMessage;
    var s := Run(Fresh(hosted), Asking());
    AskingUnfolds(hosted);
    SeenFields(hosted);
    FreshIsGood(hosted, Limits(0, 0));
    RunKeeps(Fresh(hosted), Asking());
    ReplyIsSent(s);
    if Inv(t) && Imports(Scopes.SendMessage(s, Caller(1, 10), Reply(), At(6, 70)).scope, t, naming) {
      ReplyIsRefused(s, t, naming, world);
    }
  }

  lemma ReplyIsRefused(s: Scope, t: Scope, naming: Naming, world: World)
    requires Inv(s) && s.messages.Keys == {42} && s.messages[42] == AsDelivered(Held1(), 5) && s.clock == 5 && s.issued == {10, 11, 20, 30, 40, 42, 50}
    requires Scopes.SendMessage(s, Caller(1, 10), Reply(), At(6, 70)).result == Ok(70)
    requires Inv(t) && Imports(Scopes.SendMessage(s, Caller(1, 10), Reply(), At(6, 70)).scope, t, naming)
    ensures SendIn(t, Address(1), Reply(), false, 1, 0, world).result == if naming.portable(30) then Ok(70) else Refused(Conflict)
  {
    hide Inv, Imports, SendIn, SomeOrder, Scopes.SendMessage;
    AtIsFair(6, 70, s);
    SeenAsked();
    AnsweredThenImported(s, Caller(1, 10), Reply(), At(6, 70), t, naming, world);
  }

  lemma SeenAsked()
    ensures AsDelivered(Held1(), 5).from.kind.RemoteKind?
  {
  }
}
