/** A message in two open attempts at once: when it happens, and what it can be. */
module WakeOverlaps {
  import opened Model
  import opened Logs
  import opened Scopes
  import opened Invariants
  import opened Sweeps
  import opened InboxSteps
  import opened Tables
  import opened Wakes
  import RemoteWork
  import opened Runs
  import opened Fencing

  // ---- runs with retries ---------------------------------------------------------------------

  datatype Move = Acting(act: Act) | Retrying(caller: Caller, ids: seq<Id>, world: World)

  ghost predicate Allowed(at: Wakes.State, move: Move) {
    move.Acting? ==> Wakes.Possible(at, move.act)
  }

  ghost function Moved(at: Wakes.State, move: Move): Wakes.State {
    match move
    case Acting(act) => Next(at, act)
    case Retrying(caller, ids, world) => Wakes.State(RetryWake(at.ledger, at.scope, caller, ids, world).0, at.scope)
  }

  ghost predicate Steady(at: Wakes.State) {
    Sound(at.ledger) && Inv(at.scope) && Placed(at.ledger.attempts, at.scope)
  }

  ghost function AfterMoves(at: Wakes.State, moves: seq<Move>): Wakes.State
    decreases |moves|
  {
    if moves == [] then at else Moved(AfterMoves(at, moves[..|moves| - 1]), moves[|moves| - 1])
  }

  ghost predicate AllAllowed(at: Wakes.State, moves: seq<Move>)
    decreases |moves|
  {
    moves == [] || (AllAllowed(at, moves[..|moves| - 1]) && Allowed(AfterMoves(at, moves[..|moves| - 1]), moves[|moves| - 1]))
  }

  lemma MovedIsSteady(at: Wakes.State, move: Move)
    requires Steady(at) && Allowed(at, move)
    ensures Steady(Moved(at, move))
  {
    hide Sound, Placed, Inv, Evolves, ClaimWake, FinishWake, RetryWake;
    match move
    case Acting(Claiming(caller, provider, world)) =>
      ClaimIsSound(at.ledger, at.scope, caller, provider, world);
      ClaimPlaces(at.ledger, at.scope, caller, provider, world);
    case Acting(Finishing(caller, attempt, outcome, pick, world)) =>
      FinishIsSound(at.ledger, at.scope, caller, attempt, outcome, pick, world);
      FinishKeepsRows(at.ledger, at.scope, caller, attempt, outcome, pick, world);
      SamePlaces(at.ledger.attempts, Moved(at, move).ledger.attempts, at.scope);
    case Acting(Elsewhere(after)) =>
      CascadePlaces(at.ledger, at.scope, after);
      CascadeIsSound(at.ledger, after);
    case Retrying(caller, ids, world) =>
      RetryIsSound(at.ledger, at.scope, caller, ids, world);
      RetryIsFewer(at.ledger, at.scope, caller, ids, world);
      SamePlaces(at.ledger.attempts, Moved(at, move).ledger.attempts, at.scope);
  }

  lemma SamePlaces(before: map<Slot, Attempt>, after: map<Slot, Attempt>, s: Scope)
    requires Placed(before, s) && after.Keys <= before.Keys
    ensures Placed(after, s)
  {
  }

  /** A retry deletes rows of its caller's own execution, and changes no other. */
  lemma RetryIsFewer(l: Ledger, s: Scope, caller: Caller, ids: seq<Id>, world: World)
    ensures var after := RetryWake(l, s, caller, ids, world).0.attempts;
            && after.Keys <= l.attempts.Keys && (forall slot :: slot in after ==> after[slot] == l.attempts[slot])
            && (forall slot :: slot in l.attempts && slot !in after ==> Own(slot, caller) && Current(s, caller, world.tick(0)))
  {
    hide RetryRows;
    RetryRowsAreFewer(l.attempts, caller, Unique(ids), 1, world);
    RetryRowsAreOwn(l.attempts, caller, Unique(ids), 1, world);
  }

  lemma {:induction false} RetryRowsAreOwn(attempts: map<Slot, Attempt>, caller: Caller, ids: seq<Id>, tick: nat, world: World)
    ensures var rows := RetryRows(attempts, caller, ids, tick, world);
            rows.Ok? ==> forall slot :: slot in attempts && slot !in rows.value ==> Own(slot, caller)
    decreases |ids|
  {
    if ids != [] {
      RetryRowsAreOwn(attempts, caller, ids[..|ids| - 1], tick, world);
    }
  }

  // ---- two open rows -------------------------------------------------------------------------

  predicate Open(attempts: map<Slot, Attempt>, slot: Slot) {
    slot in attempts && attempts[slot].outcome == Dispatching
  }

  /** A dispatcher of each of two executions may be submitting the message at this moment. */
  ghost predicate TwiceOpen(attempts: map<Slot, Attempt>, message: Id) {
    exists a, b :: Open(attempts, a) && Open(attempts, b) && a != b && a.message == message && b.message == message
  }

  predicate IsCurrent(s: Scope, slot: Slot) {
    slot.agent in s.agents && s.agents[slot.agent].execution == slot.execution
  }

  /** Two rows of a message are of one agent, of two of its executions, and at most one of the two is its present one. */
  lemma RowsOfOneMessage(at: Wakes.State, a: Slot, b: Slot)
    requires Steady(at) && a in at.ledger.attempts && b in at.ledger.attempts && a != b && a.message == b.message
    ensures a.agent == b.agent && a.execution != b.execution && !(IsCurrent(at.scope, a) && IsCurrent(at.scope, b))
  {
    hide Inv, Sound;
    assert PlacedSlot(a, at.scope) && PlacedSlot(b, at.scope);
  }

  /** An open row of another execution. */
  ghost predicate OpenElsewhere(attempts: map<Slot, Attempt>, caller: Caller, message: Id) {
    exists slot :: Open(attempts, slot) && slot.message == message && slot.execution != caller.execution
  }

  ghost predicate Dispatches(at: Wakes.State, move: Move, message: Id) {
    && move.Acting? && move.act.Claiming?
    && var result := ClaimWake(at.ledger, at.scope, move.act.caller, move.act.provider, move.act.world).result;
    result.Ok? && message in result.value.messages
  }

  /** A claim dispatches the message, and a row of another execution is open. */
  ghost predicate Overlaps(at: Wakes.State, move: Move, message: Id) {
    Dispatches(at, move, message) && OpenElsewhere(at.ledger.attempts, move.act.caller, message)
  }

  /** What a claim opens, and that it opens nothing else. */
  lemma ClaimOpens(l: Ledger, s: Scope, caller: Caller, provider: Id, world: World, slot: Slot)
    ensures var claim := ClaimWake(l, s, caller, provider, world);
            var dispatched := claim.result.Ok? && slot.message in claim.result.value.messages && Own(slot, caller);
            && (dispatched ==> Open(claim.ledger.attempts, slot))
            && (Open(claim.ledger.attempts, slot) ==> dispatched || Open(l.attempts, slot))
            && (!Own(slot, caller) && Open(l.attempts, slot) ==> Open(claim.ledger.attempts, slot))
  {
    hide DispatchRows, Listed, Connected;
    var now := world.tick(0);
    if Current(s, caller, now) {
      var attempts := Swept(l.attempts, caller, now);
      var ids := FirstRows(Listed(Dispatchable(attempts, s, caller, now), Age(s), world), BATCH_LIMIT);
      ClaimRows(attempts, s, caller, now, world);
      DispatchRowsAre(attempts, caller, ids, world.mint(0), now);
    }
  }

  lemma FinishOpensNothing(l: Ledger, s: Scope, caller: Caller, attempt: Id, outcome: Delivery, pick: Pick, world: World, slot: Slot)
    requires outcome != Dispatching
    ensures Open(FinishWake(l, s, caller, attempt, outcome, pick, world).ledger.attempts, slot) ==> Open(l.attempts, slot)
  {
  }

  /** Only a claim opens a row. */
  lemma OnlyClaimsOpen(at: Wakes.State, move: Move, slot: Slot)
    requires Allowed(at, move) && Open(Moved(at, move).ledger.attempts, slot)
    ensures Open(at.ledger.attempts, slot) || (Dispatches(at, move, slot.message) && Own(slot, move.act.caller))
  {
    hide ClaimWake, FinishWake, RetryWake;
    match move
    case Acting(Claiming(caller, provider, world)) => ClaimOpens(at.ledger, at.scope, caller, provider, world, slot);
    case Acting(Finishing(caller, attempt, outcome, pick, world)) => FinishOpensNothing(at.ledger, at.scope, caller, attempt, outcome, pick, world, slot);
    case Acting(Elsewhere(after)) =>
    case Retrying(caller, ids, world) => RetryIsFewer(at.ledger, at.scope, caller, ids, world);
  }

  /** A message comes into two open attempts exactly when a claim dispatches it while a row of another execution of
      its agent is still open: nothing else that may happen to the ledger brings it about. */
  lemma WhenTwiceOpen(at: Wakes.State, move: Move, message: Id)
    requires Steady(at) && Allowed(at, move) && !TwiceOpen(at.ledger.attempts, message)
    ensures TwiceOpen(Moved(at, move).ledger.attempts, message) <==> Overlaps(at, move, message)
  {
    hide Moved, ClaimWake, Inv, Sound, Placed, Open;
    var before, after := at.ledger.attempts, Moved(at, move).ledger.attempts;
    if TwiceOpen(after, message) {
      var a, b :| Open(after, a) && Open(after, b) && a != b && a.message == message && b.message == message;
      OnlyClaimsOpen(at, move, a);
      OnlyClaimsOpen(at, move, b);
      MovedIsSteady(at, move);
      OpenIsRow(after, a);
      OpenIsRow(after, b);
      RowsOfOneMessage(Moved(at, move), a, b);
      if Open(before, a) {
        assert !Open(before, b);
      }
    }
    if Overlaps(at, move, message) {
      var other :| Open(before, other) && other.message == message && other.execution != move.act.caller.execution;
      ClaimDoubles(at, move, message, other);
    }
  }

  lemma OpenIsRow(attempts: map<Slot, Attempt>, slot: Slot)
    requires Open(attempts, slot)
    ensures slot in attempts
  {
  }

  lemma ClaimDoubles(at: Wakes.State, move: Move, message: Id, other: Slot)
    requires Dispatches(at, move, message) && Open(at.ledger.attempts, other) && other.message == message && other.execution != move.act.caller.execution
    ensures TwiceOpen(Moved(at, move).ledger.attempts, message)
  {
    hide ClaimWake, Open;
    var act := move.act;
    ClaimOpens(at.ledger, at.scope, act.caller, act.provider, act.world, other);
    ClaimOpens(at.ledger, at.scope, act.caller, act.provider, act.world, SlotOf(act.caller, message));
  }

  // ---- rows of replaced executions -----------------------------------------------------------

  /** Its execution was replaced. */
  predicate Orphaned(at: Wakes.State, slot: Slot) {
    slot in at.ledger.attempts && slot.agent in at.scope.agents && at.scope.agents[slot.agent].execution != slot.execution
  }

  lemma ClaimSparesOrphans(at: Wakes.State, caller: Caller, provider: Id, world: World, slot: Slot)
    requires Orphaned(at, slot)
    ensures var after := ClaimWake(at.ledger, at.scope, caller, provider, world).ledger.attempts; slot in after && after[slot] == at.ledger.attempts[slot]
  {
    hide DispatchRows, Listed, Connected;
    var l, s, now := at.ledger, at.scope, world.tick(0);
    if Current(s, caller, now) {
      var attempts := Swept(l.attempts, caller, now);
      var ids := FirstRows(Listed(Dispatchable(attempts, s, caller, now), Age(s), world), BATCH_LIMIT);
      ClaimRows(attempts, s, caller, now, world);
      DispatchRowsAre(attempts, caller, ids, world.mint(0), now);
      assert !Own(slot, caller);
    }
  }

  lemma FinishSparesOrphans(at: Wakes.State, caller: Caller, attempt: Id, outcome: Delivery, pick: Pick, world: World, slot: Slot)
    requires Orphaned(at, slot)
    ensures var after := FinishWake(at.ledger, at.scope, caller, attempt, outcome, pick, world).ledger.attempts; slot in after && after[slot] == at.ledger.attempts[slot]
  {
    hide AttemptSlots;
    if Current(at.scope, caller, world.tick(0)) {
      assert !Own(slot, caller);
    }
  }

  lemma StaysReplaced(s: Scope, t: Scope, slot: Slot)
    requires Evolves(s, t) && Handed(s) && PlacedSlot(slot, s) && s.agents[slot.agent].execution != slot.execution
    ensures slot.agent in t.agents && t.agents[slot.agent].execution != slot.execution
    ensures slot.message in t.messages || Gone(t, slot.message)
  {
    assert AgentEvolved(s.agents[slot.agent], t.agents[slot.agent], s.clock, s.issued);
  }

  /** No claim sweeps it, no outcome is recorded on it and no retry deletes it: it goes with its message. */
  lemma OrphanStep(at: Wakes.State, move: Move, slot: Slot)
    requires Steady(at) && Allowed(at, move) && Orphaned(at, slot)
    ensures var end := Moved(at, move);
            if slot in end.ledger.attempts then Orphaned(end, slot) && end.ledger.attempts[slot] == at.ledger.attempts[slot]
            else Gone(end.scope, slot.message)
  {
    hide Inv, Sound, Evolves, ClaimWake, FinishWake, RetryWake, Gone;
    match move
    case Acting(Claiming(caller, provider, world)) => ClaimSparesOrphans(at, caller, provider, world, slot);
    case Acting(Finishing(caller, attempt, outcome, pick, world)) => FinishSparesOrphans(at, caller, attempt, outcome, pick, world, slot);
    case Acting(Elsewhere(after)) =>
      HandedInv(at.scope);
      StaysReplaced(at.scope, after, slot);
    case Retrying(caller, ids, world) =>
      RetryIsFewer(at.ledger, at.scope, caller, ids, world);
      assert Current(at.scope, caller, world.tick(0)) ==> !Own(slot, caller);
  }

  lemma GoneForever(at: Wakes.State, move: Move, slot: Slot)
    requires Steady(at) && Allowed(at, move) && Gone(at.scope, slot.message)
    ensures Gone(Moved(at, move).scope, slot.message) && slot !in Moved(at, move).ledger.attempts
  {
    hide Moved, Sound, Inv;
    MovedIsSteady(at, move);
    GoneNext(at, move, slot);
    NoRow(Moved(at, move), slot);
  }

  lemma GoneNext(at: Wakes.State, move: Move, slot: Slot)
    requires Allowed(at, move) && Gone(at.scope, slot.message)
    ensures Gone(Moved(at, move).scope, slot.message)
  {
    hide ClaimWake, FinishWake, RetryWake, Cascaded, Inv;
  }

  lemma NoRow(at: Wakes.State, slot: Slot)
    requires Steady(at) && Gone(at.scope, slot.message)
    ensures slot !in at.ledger.attempts
  {
    hide Sound, Inv;
  }

  /** Along any run, retries included, the row of a replaced execution stays as it is until its message is deleted. An
      attempt that was open when its execution was replaced is open for good. */
  lemma {:induction false} OrphansStay(at: Wakes.State, moves: seq<Move>, slot: Slot)
    requires Steady(at) && AllAllowed(at, moves) && Orphaned(at, slot)
    ensures Steady(AfterMoves(at, moves))
    ensures var end := AfterMoves(at, moves);
            if slot in end.ledger.attempts then Orphaned(end, slot) && end.ledger.attempts[slot] == at.ledger.attempts[slot]
            else Gone(end.scope, slot.message)
    decreases |moves|
  {
    hide Steady, Allowed, Moved, Gone;
    if moves != [] {
      var init, move := moves[..|moves| - 1], moves[|moves| - 1];
      OrphansStay(at, init, slot);
      var mid := AfterMoves(at, init);
      MovedIsSteady(mid, move);
      if slot in mid.ledger.attempts {
        OrphanStep(mid, move, slot);
      } else {
        GoneForever(mid, move, slot);
      }
    }
  }

  // ---- a run that shows it -------------------------------------------------------------------

  /** Agent 1 claims its message; a second execution of it registers, and claims it too. */
  ghost function Rejoining(): Turn {
    Turn(Register(RegisterInput(Some(1), 30_000, [], false)), At(2_001, 50), 2_001)
  }

  ghost function Second(): AgentRow {
    AgentRow(50, 51, Starting, false, 32_001, 2_001, 2_001)
  }

  ghost function Rejoined(hosted: bool): Scope {
    Greeted(hosted).(agents := map[1 := Second()], issued := {10, 11, 20, 50, 51})
  }

  lemma SecondTakesOver(hosted: bool, log: Log)
    ensures TakeOver(Greeted(hosted).(log := log), 1, Second(), At(2_001, 50)) == Rejoined(hosted).(log := log)
  {
    hide Greeting, SomeOrder;
    var s, world := Greeted(hosted).(log := log), At(2_001, 50);
    var s1 := s.(agents := s.agents[1 := Second()], issued := s.issued + {50, 51});
    assert s1 == Rejoined(hosted).(log := log);
    Fencing.NothingHeld(s1, world);
    assert Lists(world.order({}), {});
    NoneListed(world.order({}));
    NothingStale(s1, 2_001, world);
  }

  lemma RejoinTurn(hosted: bool, log: Log)
    ensures var s := Greeted(hosted).(log := log); var t := Step(s, Rejoining());
            Runs.Possible(s, Rejoining()) && t == Rejoined(hosted).(log := t.log, clock := 2_001)
  {
    hide Append, TakeOver, Rejoined, Reachable, SomeOrder, Greeting, Joined;
    var s := Greeted(hosted).(log := log);
    AtIsFair(2_001, 50, s);
    SecondTakesOver(hosted, log);
    RejoinedFields(hosted);
    JoinedAgent(hosted);
  }

  lemma RejoinedFields(hosted: bool)
    ensures Rejoined(hosted).links == {} && Rejoined(hosted).clock == 1 && Rejoined(hosted).agents == map[1 := Second()]
  {
    hide Greeting;
  }

  /** A claim of an execution that has not connected yet takes the one message that waits. */
  lemma ClaimsTheOne(l: Ledger, s: Scope, caller: Caller, provider: Id, now: Time, first: Id, id: Id)
    requires Current(s, caller, now) && Waiting(s, caller.agent, now) == {id} && SlotOf(caller, id) !in l.attempts && now >= PACE
    requires caller.agent in l.connections ==> l.connections[caller.agent].execution != caller.execution
    ensures var result := ClaimWake(l, s, caller, provider, At(now, first)).result;
            result.Ok? && id in result.value.messages
  {
    hide Waiting, SomeOrder, Listed, DispatchRows;
    var world := At(now, first);
    var attempts := Swept(l.attempts, caller, now);
    assert Dispatchable(attempts, s, caller, now) == {id};
    ListedIsSorted({id}, Age(s), world);
    var listed := Listed({id}, Age(s), world);
    OneListed(listed, id);
  }

  /** A new scope after the registration of agent 1 and a message to it; nobody has been woken yet. */
  ghost function Start(hosted: bool): Wakes.State {
    State(NoWakes(), Run(Fresh(hosted), Expiring()[..2]))
  }

  ghost function Replaced(hosted: bool): Scope {
    Step(Start(hosted).scope, Rejoining())
  }

  ghost function FirstClaim(): Act {
    Claiming(Caller(1, 10), 7, At(2_000, 40))
  }

  ghost function SecondClaim(): Act {
    Claiming(Caller(1, 50), 7, At(3_000, 60))
  }

  lemma StartIs(hosted: bool)
    ensures var s := Start(hosted).scope;
            Inv(s) && s == Greeted(hosted).(log := s.log)
  {
    hide Step, Runs.Possible, Greeted, Joined, Inv;
    var s0, turns := Fresh(hosted), Expiring();
    FirstTurn(hosted);
    var s1 := Step(s0, turns[0]);
    SecondTurn(hosted, s1.log);
    TwoTurns(s0, turns);
    FreshIsGood(hosted, RemoteWork.Limits(0, 0));
    RunKeeps(s0, turns[..2]);
  }

  lemma TwoTurns(s: Scope, turns: seq<Turn>)
    requires |turns| >= 2 && Runs.Possible(s, turns[0]) && Runs.Possible(Step(s, turns[0]), turns[1])
    ensures Unfolds(s, turns[..2]) && Run(s, turns[..2]) == Step(Step(s, turns[0]), turns[1])
  {
    hide Step, Runs.Possible;
    assert turns[..2][..1] == turns[..1] && turns[..1][..0] == [];
    assert Run(s, turns[..1]) == Step(s, turns[0]) && Unfolds(s, turns[..1]);
  }

  lemma GreetingIsThere(hosted: bool, log: Log)
    ensures var s := Greeted(hosted).(log := log); Current(s, Caller(1, 10), 2_000) && Waiting(s, 1, 2_000) == {20}
    ensures var t := Rejoined(hosted).(log := log, clock := 2_001); Current(t, Caller(1, 50), 3_000) && Waiting(t, 1, 3_000) == {20}
  {
    hide NewMessage, Hello;
    GreetingWaits();
  }

  /** The first claim opens a row, and connects the first execution. */
  lemma FirstOpens(s: Scope)
    requires Current(s, Caller(1, 10), 2_000) && Waiting(s, 1, 2_000) == {20}
    ensures var l := Next(State(NoWakes(), s), FirstClaim()).ledger;
            && Open(l.attempts, Slot(1, 10, 20)) && Slot(1, 50, 20) !in l.attempts
            && (1 in l.connections ==> l.connections[1].execution == 10) && l.minted == {40}
  {
    hide Waiting, SomeOrder, ClaimWake, Current, Open;
    ClaimsTheOne(NoWakes(), s, Caller(1, 10), 7, 2_000, 40, 20);
    ClaimOpens(NoWakes(), s, Caller(1, 10), 7, At(2_000, 40), Slot(1, 10, 20));
    ClaimAdds(NoWakes(), s, Caller(1, 10), 7, At(2_000, 40), Slot(1, 50, 20));
  }

  lemma ClaimAdds(l: Ledger, s: Scope, caller: Caller, provider: Id, world: World, slot: Slot)
    requires ClaimWake(l, s, caller, provider, world).result.Ok? && ClaimWake(l, s, caller, provider, world).result.value.messages != []
    ensures var after := ClaimWake(l, s, caller, provider, world).ledger;
            && after.connections.Keys == l.connections.Keys + {caller.agent} && after.connections[caller.agent].execution == caller.execution
            && after.minted == l.minted + {world.mint(0)}
            && (slot !in l.attempts && !Own(slot, caller) ==> slot !in after.attempts)
  {
    hide Listed, DispatchRows, Dispatchable;
    var now := world.tick(0);
    var attempts := Swept(l.attempts, caller, now);
    var ids := FirstRows(Listed(Dispatchable(attempts, s, caller, now), Age(s), world), BATCH_LIMIT);
    ClaimRows(attempts, s, caller, now, world);
    DispatchRowsAre(attempts, caller, ids, world.mint(0), now);
  }

  lemma ReplacedIs(hosted: bool)
    ensures var s, t := Start(hosted).scope, Replaced(hosted);
            Inv(t) && Evolves(s, t) && t == Rejoined(hosted).(log := t.log, clock := 2_001)
  {
    hide Step, Runs.Possible, Greeted, Rejoined, Inv, Evolves;
    StartIs(hosted);
    RejoinTurn(hosted, Start(hosted).scope.log);
    StepKeeps(Start(hosted).scope, Rejoining());
  }

  lemma StillOpen(l: Ledger, s: Scope, slot: Slot)
    requires Open(l.attempts, slot) && slot.message in s.messages
    ensures Open(Cascaded(l, s).attempts, slot)
    ensures Cascaded(l, s) == l.(attempts := Cascaded(l, s).attempts) && Cascaded(l, s).attempts.Keys <= l.attempts.Keys
  {
  }

  /** Both executions claim, the second after it has replaced the first. */
  ghost function Overlapping(replaced: Scope): seq<Move> {
    [Acting(FirstClaim()), Acting(Elsewhere(replaced)), Acting(SecondClaim())]
  }

  lemma ClaimsOverlap(s: Scope, t: Scope)
    requires Inv(t) && Evolves(s, t) && 20 in t.messages
    requires Current(s, Caller(1, 10), 2_000) && Waiting(s, 1, 2_000) == {20} && Current(t, Caller(1, 50), 3_000) && Waiting(t, 1, 3_000) == {20}
    ensures AllAllowed(State(NoWakes(), s), Overlapping(t)) && TwiceOpen(AfterMoves(State(NoWakes(), s), Overlapping(t)).ledger.attempts, 20)
  {
    hide Inv, Evolves, ClaimWake, Open, Cascaded, Waiting, Current, TwiceOpen, AllAllowed, AfterMoves, At;
    var moves, at0 := Overlapping(t), State(NoWakes(), s);
    var at1 := Moved(at0, moves[0]);
    var at2 := Moved(at1, moves[1]);
    FirstOpens(s);
    StillOpen(at1.ledger, t, Slot(1, 10, 20));
    ClaimsTheOne(at2.ledger, t, Caller(1, 50), 7, 3_000, 60, 20);
    SixtyIsNew();
    ThreeMoves(at0, moves);
    ClaimDoubles(at2, moves[2], 20, Slot(1, 10, 20));
  }

  lemma SixtyIsNew()
    ensures At(2_000, 40).mint(0) !in NoWakes().minted && At(3_000, 60).mint(0) !in {40}
  {
  }

  /** In this run from a new scope one message is in two open attempts at once: the first execution claimed it, was
      replaced before it recorded an outcome, and the second claimed it too. */
  lemma OneMessageTwiceOpen(hosted: bool)
    ensures Steady(Start(hosted)) && AllAllowed(Start(hosted), Overlapping(Replaced(hosted)))
    ensures TwiceOpen(AfterMoves(Start(hosted), Overlapping(Replaced(hosted))).ledger.attempts, 20)
  {
    hide Start, Replaced, Inv, Evolves, Waiting, Current, Steady, AllAllowed, TwiceOpen, AfterMoves, Overlapping, NoWakes, Greeted, Rejoined;
    var s, t := Start(hosted).scope, Replaced(hosted);
    StartSteady(hosted);
    StartIs(hosted);
    StartLedger(hosted);
    ReplacedIs(hosted);
    GreetingIsThere(hosted, s.log);
    GreetingIsThere(hosted, t.log);
    RejoinedGreeting(hosted, t);
    ClaimsOverlap(s, t);
  }

  lemma StartSteady(hosted: bool)
    ensures Steady(Start(hosted))
  {
    hide Inv, Run;
    StartIs(hosted);
    NoWakesIsGood(Start(hosted).scope);
  }

  lemma StartLedger(hosted: bool)
    ensures Start(hosted) == State(NoWakes(), Start(hosted).scope) && NoWakes().minted == {}
  {
  }

  lemma RejoinedGreeting(hosted: bool, t: Scope)
    requires t == Rejoined(hosted).(log := t.log, clock := 2_001)
    ensures 20 in t.messages
  {
    hide Greeting;
  }

  lemma ThreeMoves(at: Wakes.State, moves: seq<Move>)
    requires |moves| == 3
    requires Allowed(at, moves[0]) && Allowed(Moved(at, moves[0]), moves[1]) && Allowed(Moved(Moved(at, moves[0]), moves[1]), moves[2])
    ensures AfterMoves(at, moves) == Moved(Moved(Moved(at, moves[0]), moves[1]), moves[2])
    ensures AllAllowed(at, moves)
  {
    hide Moved, Allowed;
    assert moves[..2][..1] == moves[..1] && moves[..1][..0] == [];
    assert AfterMoves(at, moves[..1]) == Moved(at, moves[0]) && AllAllowed(at, moves[..1]);
    assert AfterMoves(at, moves[..2]) == Moved(Moved(at, moves[0]), moves[1]) && AllAllowed(at, moves[..2]);
  }
}
