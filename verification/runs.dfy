/** Whole runs: every reachable scope satisfies the invariant, and what any later scope owes to any earlier one. */
module Runs {
  import opened Model
  import opened Logs
  import opened Scopes
  import opened RemoteWork
  import opened Totals
  import opened Invariants
  import opened Sweeps
  import opened BoardSteps
  import opened InboxSteps
  import opened SendSteps
  import opened ExecutionSteps
  import opened TaskSteps
  import opened RemoteSteps
  import opened Budgets
  import opened Pruning

  datatype Op =
    | Register(register: RegisterInput) | Beat(caller: Caller, lifecycle: Lifecycle, ready: bool, lease: Time)
    | Retire(token: Id) | Rotate | Link(left: Id, right: Id)
    | Send(caller: Caller, send: SendInput) | HumanSend(human: Id, send: SendInput)
    | Reserve(caller: Caller, limit: nat) | Commit(caller: Caller, reservation: Id) | Free(caller: Caller, reservation: Id)
    | Acknowledge(caller: Caller, ids: seq<Id>) | Inspect(caller: Caller, message: Id)
    | Add(creator: Option<Caller>, title: string, dependencies: seq<Id>) | Claim(caller: Caller, task: Id)
    | Complete(caller: Caller, task: Id, note: Option<string>) | Reopen(caller: Caller, task: Id)
    | Report(caller: Caller, task: Id, text: string) | ListAll
    | Accept(remote: RemoteCaller, limits: Limits, accept: AcceptInput) | SetState(remote: RemoteCaller, task: Id, state: RemoteState)
    | Read(remote: RemoteCaller, task: Id) | PublishAgent(agent: Id) | EnablePublication(publication: Id, enabled: bool)
    | Issue(publication: Id) | EnableCredential(credential: Id, enabled: bool)
    | PruneOld(before: Time, execute: bool)

  ghost function Apply(s: Scope, op: Op, world: World): Scope {
    match op
    case Register(input) => RegisterAgent(s, input, world).scope
    case Beat(caller, lifecycle, ready, lease) => Heartbeat(s, caller, lifecycle, ready, lease, world).scope
    case Retire(token) => RetireAgent(s, token, world).scope
    case Rotate => RotateScopeToken(s, world)
    case Link(left, right) => LinkAgents(s, left, right, world).scope
    case Send(caller, input) => SendMessage(s, caller, input, world).scope
    case HumanSend(human, input) => SendAsHuman(s, human, input, world).scope
    case Reserve(caller, limit) => ReserveInbox(s, caller, limit, world).scope
    case Commit(caller, reservation) => CommitInbox(s, caller, reservation, world).scope
    case Free(caller, reservation) => ReleaseInbox(s, caller, reservation, world).scope
    case Acknowledge(caller, ids) => AcknowledgeMessages(s, caller, ids, world).scope
    case Inspect(caller, message) => Receipt(s, caller, message, world).scope
    case Add(creator, title, dependencies) => AddTask(s, creator, title, dependencies, world).scope
    case Claim(caller, task) => ClaimTask(s, caller, task, world).scope
    case Complete(caller, task, note) => CompleteTask(s, caller, task, note, world).scope
    case Reopen(caller, task) => ReleaseTask(s, caller, task, world).scope
    case Report(caller, task, text) => AddTaskProgress(s, caller, task, text, world).scope
    case ListAll => ListTasks(s, world)
    case Accept(remote, limits, input) => AcceptMessage(s, remote, limits, input, world).scope
    case SetState(remote, task, state) => SetTaskState(s, remote, task, state, world).scope
    case Read(remote, task) => ReadTask(s, remote, task, world).scope
    case PublishAgent(agent) => Publish(s, agent, world).scope
    case EnablePublication(publication, enabled) => SetPublication(s, publication, enabled, world).scope
    case Issue(publication) => IssueCredential(s, publication, world).scope
    case EnableCredential(credential, enabled) => SetCredential(s, credential, enabled, world).scope
    case PruneOld(before, execute) => Prune(s, before, execute, world).0
  }

  /** Leases are positive: the service normalises every lease to at least thirty seconds. */
  ghost predicate Sensible(op: Op) {
    && (op.Register? ==> op.register.lease > 0)
    && (op.Beat? ==> op.lease > 0)
  }

  /** One transaction, what it takes from outside, and the latest time read by its end. */
  datatype Turn = Turn(op: Op, world: World, until: Time)

  ghost predicate Possible(s: Scope, turn: Turn) {
    Sensible(turn.op) && Fair(turn.world, s.clock, s.issued) && turn.world.tick(0) <= turn.until
  }

  ghost function Step(s: Scope, turn: Turn): Scope {
    Apply(s, turn.op, turn.world).(clock := turn.until)
  }

  ghost function Run(s: Scope, turns: seq<Turn>): Scope
    decreases |turns|
  {
    if turns == [] then s else Step(Run(s, turns[..|turns| - 1]), turns[|turns| - 1])
  }

  /** Every turn of a run finds a world that is fair to the scope it starts from. */
  ghost predicate Unfolds(s: Scope, turns: seq<Turn>)
    decreases |turns|
  {
    turns == [] || (Unfolds(s, turns[..|turns| - 1]) && Possible(Run(s, turns[..|turns| - 1]), turns[|turns| - 1]))
  }

  // ---- one step ------------------------------------------------------------------------------

  lemma SendKeeps(s: Scope, op: Op, world: World)
    requires Inv(s) && Fair(world, s.clock, s.issued) && (op.Send? || op.HumanSend?)
    ensures Keeps(s, Apply(s, op, world))
  {
    hide Inv, Keeps, SendIn;
    KeepsNothing(s);
    match op
    case Send(caller, input) =>
      if Current(s, caller, world.tick(0)) {
        SendInKeeps(s, Address(caller.agent), input, false, 1, 0, world);
      }
    case HumanSend(human, input) =>
      SendInKeeps(s, Participant(HumanKind, human), input, false, 0, 0, world);
  }

  lemma ExecutionKeeps(s: Scope, op: Op, world: World)
    requires Inv(s) && Fair(world, s.clock, s.issued) && Sensible(op)
    requires op.Register? || op.Beat? || op.Retire? || op.Rotate? || op.Link?
    ensures Keeps(s, Apply(s, op, world))
  {
    hide Inv, Keeps, RegisterAgent, Heartbeat, RetireAgent, RotateScopeToken, LinkAgents, Fair;
    match op
    case Register(input) => RegisterAgentKeeps(s, input, world);
    case Beat(caller, lifecycle, ready, lease) => HeartbeatKeeps(s, caller, lifecycle, ready, lease, world);
    case Retire(token) => RetireAgentKeeps(s, token, world);
    case Rotate => RotateScopeTokenKeeps(s, world);
    case Link(left, right) => LinkAgentsKeep(s, left, right, world);
  }

  lemma InboxKeeps(s: Scope, op: Op, world: World)
    requires Inv(s) && Fair(world, s.clock, s.issued)
    requires op.Reserve? || op.Commit? || op.Free? || op.Acknowledge? || op.Inspect?
    ensures Keeps(s, Apply(s, op, world))
  {
    hide Inv, Keeps, ReserveInbox, CommitInbox, ReleaseInbox, AcknowledgeMessages, Receipt, Fair;
    match op
    case Reserve(caller, limit) => ReserveInboxKeeps(s, caller, limit, world);
    case Commit(caller, reservation) => CommitInboxKeeps(s, caller, reservation, world);
    case Free(caller, reservation) => ReleaseInboxKeeps(s, caller, reservation, world);
    case Acknowledge(caller, ids) => AcknowledgeKeeps(s, caller, ids, world);
    case Inspect(caller, message) => ReceiptKeeps(s, caller, message, world);
  }

  lemma FreshMint(s: Scope, world: World)
    requires Fair(world, s.clock, s.issued)
    ensures world.mint(0) !in s.issued
  {
  }

  lemma BoardKeeps(s: Scope, op: Op, world: World)
    requires Inv(s) && Fair(world, s.clock, s.issued)
    requires op.Add? || op.ListAll? || op.PruneOld?
    ensures Keeps(s, Apply(s, op, world))
  {
    hide Inv, Keeps, AddTask, ReleaseStale, Prune, Fair;
    FreshMint(s, world);
    match op
    case Add(creator, title, dependencies) => AddTaskKeeps(s, creator, title, dependencies, world);
    case ListAll => ReleaseStaleAlone(s, world.tick(0), world);
    case PruneOld(before, execute) => PruneKeeps(s, before, execute, world);
  }

  lemma WorkKeeps(s: Scope, op: Op, world: World)
    requires Inv(s) && Fair(world, s.clock, s.issued) && (op.Claim? || op.Complete? || op.Reopen? || op.Report?)
    ensures Keeps(s, Apply(s, op, world))
  {
    hide Inv, Keeps, ClaimTask, CompleteTask, ReleaseTask, AddTaskProgress, Fair;
    match op
    case Claim(caller, task) => ClaimTaskKeeps(s, caller, task, world);
    case Complete(caller, task, note) => CompleteTaskKeeps(s, caller, task, note, world);
    case Reopen(caller, task) => ReleaseTaskKeeps(s, caller, task, world);
    case Report(caller, task, text) => AddTaskProgressKeeps(s, caller, task, text, world);
  }

  lemma RemoteOpKeeps(s: Scope, op: Op, world: World)
    requires Inv(s) && Fair(world, s.clock, s.issued) && (op.SetState? || op.Read?)
    ensures Keeps(s, Apply(s, op, world))
  {
    hide Inv, Keeps, SetTaskState, ReadTask, Fair;
    match op
    case SetState(remote, task, state) => SetTaskStateKeeps(s, remote, task, state, world);
    case Read(remote, task) => ReadTaskKeeps(s, remote, task, world);
  }

  lemma GrantKeeps(s: Scope, op: Op, world: World)
    requires Inv(s) && Fair(world, s.clock, s.issued)
    requires op.PublishAgent? || op.EnablePublication? || op.Issue? || op.EnableCredential?
    ensures Keeps(s, Apply(s, op, world))
  {
    hide Inv, Keeps, Publish, SetPublication, IssueCredential, SetCredential, Fair;
    FreshMint(s, world);
    match op
    case PublishAgent(agent) => PublishKeeps(s, agent, world);
    case EnablePublication(publication, enabled) => SetPublicationKeeps(s, publication, enabled, world);
    case Issue(publication) => IssueCredentialKeeps(s, publication, world);
    case EnableCredential(credential, enabled) => SetCredentialKeeps(s, credential, enabled, world);
  }

  /** Every transaction but the acceptance of remote work keeps the invariant and takes no remote work. */
  lemma ApplyKeeps(s: Scope, op: Op, world: World)
    requires Inv(s) && Fair(world, s.clock, s.issued) && Sensible(op) && !op.Accept?
    ensures Keeps(s, Apply(s, op, world))
  {
    hide Inv, Keeps, Apply, Fair, Sensible;
    match op
    case Register(_) => ExecutionKeeps(s, op, world);
    case Beat(_, _, _, _) => ExecutionKeeps(s, op, world);
    case Retire(_) => ExecutionKeeps(s, op, world);
    case Rotate => ExecutionKeeps(s, op, world);
    case Link(_, _) => ExecutionKeeps(s, op, world);
    case Send(_, _) => SendKeeps(s, op, world);
    case HumanSend(_, _) => SendKeeps(s, op, world);
    case Reserve(_, _) => InboxKeeps(s, op, world);
    case Commit(_, _) => InboxKeeps(s, op, world);
    case Free(_, _) => InboxKeeps(s, op, world);
    case Acknowledge(_, _) => InboxKeeps(s, op, world);
    case Inspect(_, _) => InboxKeeps(s, op, world);
    case Add(_, _, _) => BoardKeeps(s, op, world);
    case Claim(_, _) => WorkKeeps(s, op, world);
    case Complete(_, _, _) => WorkKeeps(s, op, world);
    case Reopen(_, _) => WorkKeeps(s, op, world);
    case Report(_, _, _) => WorkKeeps(s, op, world);
    case ListAll => BoardKeeps(s, op, world);
    case PruneOld(_, _) => BoardKeeps(s, op, world);
    case SetState(_, _, _) => RemoteOpKeeps(s, op, world);
    case Read(_, _) => RemoteOpKeeps(s, op, world);
    case PublishAgent(_) => GrantKeeps(s, op, world);
    case EnablePublication(_, _) => GrantKeeps(s, op, world);
    case Issue(_) => GrantKeeps(s, op, world);
    case EnableCredential(_, _) => GrantKeeps(s, op, world);
  }

  lemma KeptClock(s: Scope, t: Scope)
    requires Keeps(s, t)
    ensures Inv(t) && Evolves(s, t) && t.clock == s.clock
  {
  }

  lemma AcceptedClock(s: Scope, t: Scope, caller: RemoteCaller, input: AcceptInput, id: Id)
    requires Accepts(s, t, caller, input, id)
    ensures t.clock == s.clock
  {
  }

  lemma ApplyKeepsInv(s: Scope, op: Op, world: World)
    requires Inv(s) && Fair(world, s.clock, s.issued) && Sensible(op)
    ensures Inv(Apply(s, op, world)) && Evolves(s, Apply(s, op, world)) && Apply(s, op, world).clock == s.clock
  {
    hide Inv, Evolves, Keeps, Fair, Sensible, AcceptMessage, OverBudget, Accepts, Expire;
    if op.Accept? {
      AcceptMessageKeeps(s, op.remote, op.limits, op.accept, world);
      if Keeps(s, Apply(s, op, world)) {
        KeptClock(s, Apply(s, op, world));
      } else {
        ExpireAlone(s, world.tick(0), world);
        AcceptedClock(Expire(s, world.tick(0), world), Apply(s, op, world), op.remote, op.accept, world.mint(2));
      }
    } else {
      ApplyKeeps(s, op, world);
      KeptClock(s, Apply(s, op, world));
    }
  }

  lemma LaterClock(s: Scope, until: Time)
    requires Inv(s) && s.clock <= until
    ensures Inv(s.(clock := until)) && Evolves(s, s.(clock := until))
  {
    hide MessageRows, ReservationRows, KeysUnique, AgentRows, TaskRows, Board, ProgressRows, LogOk, Agrees, LinkRows, RemoteRows, Threads;
    KeepRemoteRows(s, until);
  }

  lemma KeepRemoteRows(s: Scope, until: Time)
    requires RemoteRows(s)
    ensures RemoteRows(s.(clock := until))
  {
    forall id | id in s.correlations ensures CorrelationRow(s.(clock := until), id) {
      assert CorrelationRow(s, id);
    }
  }


  /** Whatever transaction runs, the invariant holds after it and the scope has only evolved. */
  lemma StepKeeps(s: Scope, turn: Turn)
    requires Inv(s) && Possible(s, turn)
    ensures Inv(Step(s, turn)) && Evolves(s, Step(s, turn)) && Step(s, turn).clock == turn.until
  {
    hide Inv, Evolves, Apply, Sensible;
    ApplyKeepsInv(s, turn.op, turn.world);
    var t := Apply(s, turn.op, turn.world);
    LaterClock(t, turn.until);
    HandedInv(s);
    EvolvesTransitive(s, t, Step(s, turn));
  }

  // ---- whole runs ----------------------------------------------------------------------------

  /** A new scope. */
  function Fresh(hosted: bool): Scope {
    Scope(map[], {}, map[], map[], map[], map[], map[], map[], map[], map[], Log([], 0, 0, hosted), 0, {})
  }

  lemma FreshIsGood(hosted: bool, limits: Limits)
    ensures Inv(Fresh(hosted)) && WithinBudget(Fresh(hosted), limits)
  {
    var rank: map<Id, nat> := map[];
    assert Ranks(rank, Fresh(hosted).tasks);
    assert RemoteBacklog(Fresh(hosted)) == {};
    forall principal ensures UnfinishedWork(Fresh(hosted), principal) == {} {
    }
  }

  /** The main theorem: along every run from a scope that satisfies the invariant, it holds throughout,
      and the scope only ever evolves. */
  lemma {:induction false} RunKeeps(s: Scope, turns: seq<Turn>)
    requires Inv(s) && Unfolds(s, turns)
    ensures Inv(Run(s, turns)) && Evolves(s, Run(s, turns))
    decreases |turns|
  {
    hide Inv, Evolves, Step, Possible;
    if turns == [] {
      EvolvesReflexive(s);
    } else {
      var init, last := turns[..|turns| - 1], turns[|turns| - 1];
      RunKeeps(s, init);
      StepKeeps(Run(s, init), last);
      HandedInv(s);
      EvolvesTransitive(s, Run(s, init), Run(s, turns));
    }
  }

  lemma {:induction false} RunSplits(s: Scope, before: seq<Turn>, after: seq<Turn>)
    ensures Run(s, before + after) == Run(Run(s, before), after)
    ensures Unfolds(s, before + after) <==> Unfolds(s, before) && Unfolds(Run(s, before), after)
    decreases |after|
  {
    if after == [] {
      assert before + after == before;
    } else {
      assert (before + after)[..|before + after| - 1] == before + after[..|after| - 1];
      RunSplits(s, before, after[..|after| - 1]);
    }
  }

  /** Any later point of a run evolves from any earlier one. */
  lemma LaterEvolves(s: Scope, before: seq<Turn>, after: seq<Turn>)
    requires Inv(s) && Unfolds(s, before + after)
    ensures Inv(Run(s, before)) && Inv(Run(s, before + after)) && Evolves(Run(s, before), Run(s, before + after))
  {
    hide Inv, Evolves, Unfolds, Run;
    RunSplits(s, before, after);
    RunKeeps(s, before);
    RunKeeps(Run(s, before), after);
  }

  /** The scope's own limits. */
  ghost predicate WithinCaps(s: Scope) {
    |Backlog(s)| <= BACKLOG_CAP && |Unfinished(s)| <= ACTIVE_TASK_CAP
  }

  lemma CapsKept(s: Scope, t: Scope)
    requires WithinCaps(s) && StaysWithin(s, t) && Evolves(s, t)
    ensures WithinCaps(t)
  {
    hide Evolves, Backlog, Unfinished;
    if t.messages.Keys <= s.messages.Keys {
      LiveShrinks(s, t);
      SizeGrows(Backlog(t), Backlog(s));
    }
    if t.tasks.Keys <= s.tasks.Keys {
      OpenShrinks(s, t);
      SizeGrows(Unfinished(t), Unfinished(s));
    }
  }

  lemma StepKeepsCaps(s: Scope, turn: Turn)
    requires Inv(s) && Possible(s, turn) && WithinCaps(s)
    ensures WithinCaps(Step(s, turn))
  {
    hide Inv, Evolves, Keeps, Apply, Sensible, WithinCaps, Accepts, OverBudget, Expire, StaysWithin, Fair;
    var t := Apply(s, turn.op, turn.world);
    if turn.op.Accept? {
      AcceptIs(s, turn.op, turn.world);
      AcceptMessageKeeps(s, turn.op.remote, turn.op.limits, turn.op.accept, turn.world);
      if Keeps(s, t) {
        KeptClock(s, t);
        KeptWithin(s, t);
        CapsKept(s, t);
      } else {
        var s1 := Expire(s, turn.world.tick(0), turn.world);
        ExpireAlone(s, turn.world.tick(0), turn.world);
        KeptClock(s, s1);
        KeptWithin(s, s1);
        CapsKept(s, s1);
        AcceptedWithin(s1, t, turn.op.remote, turn.op.accept, turn.world.mint(2));
        CapsKept(s1, t);
      }
    } else {
      ApplyKeeps(s, turn.op, turn.world);
      KeptClock(s, t);
      KeptWithin(s, t);
      CapsKept(s, t);
    }
    CapsClock(t, turn.until);
  }

  lemma AcceptIs(s: Scope, op: Op, world: World)
    requires op.Accept?
    ensures Apply(s, op, world) == AcceptMessage(s, op.remote, op.limits, op.accept, world).scope
  {
    hide AcceptMessage;
  }

  lemma AcceptedWithin(s: Scope, t: Scope, caller: RemoteCaller, input: AcceptInput, id: Id)
    requires Accepts(s, t, caller, input, id)
    ensures StaysWithin(s, t)
  {
  }

  lemma CapsClock(s: Scope, until: Time)
    requires WithinCaps(s)
    ensures WithinCaps(s.(clock := until))
  {
    assert Backlog(s.(clock := until)) == Backlog(s) && Unfinished(s.(clock := until)) == Unfinished(s);
  }

  /** No run takes a scope over its backlog limit or its limit of unfinished tasks. */
  lemma {:induction false} RunKeepsCaps(s: Scope, turns: seq<Turn>)
    requires Inv(s) && Unfolds(s, turns) && WithinCaps(s)
    ensures WithinCaps(Run(s, turns))
    decreases |turns|
  {
    hide Inv, Evolves, WithinCaps, Step, Possible;
    if turns != [] {
      var init, last := turns[..|turns| - 1], turns[|turns| - 1];
      RunKeepsCaps(s, init);
      RunKeeps(s, init);
      StepKeepsCaps(Run(s, init), last);
    }
  }

  /** All remote work in the run is accepted under the same limits. */
  ghost predicate UnderLimits(turns: seq<Turn>, limits: Limits) {
    forall i :: 0 <= i < |turns| && turns[i].op.Accept? ==> turns[i].op.limits == limits
  }

  lemma BudgetClock(s: Scope, until: Time, limits: Limits)
    requires WithinBudget(s, limits)
    ensures WithinBudget(s.(clock := until), limits)
  {
    var t := s.(clock := until);
    assert RemoteBacklog(t) == RemoteBacklog(s);
    forall principal ensures UnfinishedWork(t, principal) == UnfinishedWork(s, principal) {
    }
  }

  /** Under fixed limits no run takes any remote principal, or all of them together, over budget. */
  lemma {:induction false} RunKeepsBudget(s: Scope, turns: seq<Turn>, limits: Limits)
    requires Inv(s) && Unfolds(s, turns) && WithinBudget(s, limits) && UnderLimits(turns, limits)
    ensures WithinBudget(Run(s, turns), limits)
    decreases |turns|
  {
    hide Inv, Evolves, WithinBudget, Apply, Keeps;
    if turns != [] {
      var init, last := turns[..|turns| - 1], turns[|turns| - 1];
      RunKeepsBudget(s, init, limits);
      RunKeeps(s, init);
      var t := Run(s, init);
      StepKeepsBudget(t, last, limits);
    }
  }

  lemma StepKeepsBudget(s: Scope, turn: Turn, limits: Limits)
    requires Inv(s) && Possible(s, turn) && WithinBudget(s, limits) && (turn.op.Accept? ==> turn.op.limits == limits)
    ensures WithinBudget(Step(s, turn), limits)
  {
    hide Inv, Evolves, WithinBudget, Keeps, AcceptMessage, Fair;
    if turn.op.Accept? {
      AcceptKeepsBudget(s, turn.op.remote, turn.op.limits, turn.op.accept, turn.world);
    } else {
      ApplyKeeps(s, turn.op, turn.world);
      BudgetKept(s, Apply(s, turn.op, turn.world), limits);
    }
    BudgetClock(Apply(s, turn.op, turn.world), turn.until, limits);
  }

  lemma RefusedForBacklog(s: Scope, sender: Participant, input: SendInput, notification: bool, tick: nat, mint: nat, world: World)
    requires SendIn(s, sender, input, notification, tick, mint, world).result == Refused(Backpressure)
    ensures |Backlog(Expire(s, world.tick(tick), world))| >= BACKLOG_CAP
  {
    hide Expire, Backlog, Inserted, Answer, Existing;
  }

  /** In any run from a scope within its budgets, a send that is refused for the backlog faces, after the sweep it makes,
      at least five thousand live messages of the scope's own agents and humans. */
  lemma RemoteWorkNeverCrowdsOut(start: Scope, turns: seq<Turn>, limits: Limits,
                                 sender: Participant, input: SendInput, notification: bool, tick: nat, mint: nat, world: World)
    requires Inv(start) && WithinBudget(start, limits) && Unfolds(start, turns) && UnderLimits(turns, limits)
    requires SendIn(Run(start, turns), sender, input, notification, tick, mint, world).result == Refused(Backpressure)
    ensures var swept := Expire(Run(start, turns), world.tick(tick), world);
            |Backlog(swept)| >= BACKLOG_CAP && |Backlog(swept) - RemoteBacklog(swept)| >= 5_000
  {
    hide Inv, WithinBudget, Run, Unfolds, Expire, SendIn, Keeps;
    var s := Run(start, turns);
    RunKeeps(start, turns);
    RunKeepsBudget(start, turns, limits);
    RefusedForBacklog(s, sender, input, notification, tick, mint, world);
    ExpireAlone(s, world.tick(tick), world);
    BudgetKept(s, Expire(s, world.tick(tick), world), limits);
    LocalRefusalMeansLocalBacklog(Expire(s, world.tick(tick), world), limits);
  }
}
