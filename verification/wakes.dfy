/** The ledger of native wake-ups: which messages were submitted to a live session, and with what outcome
    (bus/native_wake.go). */
module Wakes {
  import opened Model
  import opened Scopes
  import opened Invariants
  import opened Sweeps
  import opened InboxSteps
  import opened Tables

  const OPEN_FOR: Time := 30_000
  const PACE: Time := 2_000
  const BATCH_LIMIT: nat := 20
  const MAX_TRIES: nat := 5

  /** One row for each message and execution of its recipient. */
  datatype Slot = Slot(agent: Id, execution: Id, message: Id)
  datatype Delivery = Dispatching | Submitted | Unavailable | Uncertain
  datatype Attempt = Attempt(id: Id, outcome: Delivery, tries: nat, updatedAt: Time)

  /** `lastOutcome` is absent while a connection waits for its first attempt. */
  datatype Connection = Connection(execution: Id, provider: Id, lastSeenAt: Time, lastAttemptAt: Time, lastOutcome: Option<Delivery>)

  /** `minted` and `dispatched` are history variables: attempt identifiers handed out, and every dispatch so far. */
  datatype Ledger = Ledger(attempts: map<Slot, Attempt>, connections: map<Id, Connection>, minted: set<Id>, dispatched: seq<Slot>)

  datatype Batch = Batch(attempt: Option<Id>, messages: seq<Id>, retryAt: Option<Time>)

  predicate Own(slot: Slot, caller: Caller) {
    slot.agent == caller.agent && slot.execution == caller.execution
  }

  function SlotOf(caller: Caller, message: Id): Slot {
    Slot(caller.agent, caller.execution, message)
  }

  // ---- claim ---------------------------------------------------------------------------------

  /** A dispatcher that vanished may have reached the session: its attempt becomes uncertain. */
  function SweptAttempt(a: Attempt, now: Time): Attempt {
    if a.outcome == Dispatching && a.updatedAt < now - OPEN_FOR then a.(outcome := Uncertain, updatedAt := now) else a
  }

  function Swept(attempts: map<Slot, Attempt>, caller: Caller, now: Time): map<Slot, Attempt> {
    map slot | slot in attempts :: if Own(slot, caller) then SweptAttempt(attempts[slot], now) else attempts[slot]
  }

  function Connected(connections: map<Id, Connection>, caller: Caller, provider: Id, now: Time): map<Id, Connection> {
    if caller.agent !in connections then connections[caller.agent := Connection(caller.execution, provider, now, 0, None)]
    else
      var c := connections[caller.agent];
      if c.execution != caller.execution || c.provider != provider || c.lastSeenAt < now - OPEN_FOR then
        connections[caller.agent := Connection(caller.execution, provider, now,
                                               if c.execution == caller.execution then c.lastAttemptAt else 0,
                                               if c.execution == caller.execution then c.lastOutcome else None)]
      else connections
  }

  /** A message may be dispatched if it never was, or if its last try found the session unavailable a while ago. */
  predicate MayDispatch(attempts: map<Slot, Attempt>, slot: Slot, now: Time) {
    slot !in attempts || (attempts[slot].outcome == Unavailable && attempts[slot].tries < MAX_TRIES && attempts[slot].updatedAt < now - OPEN_FOR)
  }

  function Dispatchable(attempts: map<Slot, Attempt>, s: Scope, caller: Caller, now: Time): set<Id> {
    set id | id in Waiting(s, caller.agent, now) && MayDispatch(attempts, SlotOf(caller, id), now)
  }

  function DispatchRow(attempts: map<Slot, Attempt>, slot: Slot, attempt: Id, now: Time): map<Slot, Attempt> {
    attempts[slot := Attempt(attempt, Dispatching, (if slot in attempts then attempts[slot].tries else 0) + 1, now)]
  }

  function DispatchRows(attempts: map<Slot, Attempt>, caller: Caller, ids: seq<Id>, attempt: Id, now: Time): map<Slot, Attempt>
    decreases |ids|
  {
    if ids == [] then attempts
    else DispatchRow(DispatchRows(attempts, caller, ids[..|ids| - 1], attempt, now), SlotOf(caller, ids[|ids| - 1]), attempt, now)
  }

  function SlotsOf(caller: Caller, ids: seq<Id>): (slots: seq<Slot>)
    ensures |slots| == |ids| && forall i :: 0 <= i < |ids| ==> slots[i] == SlotOf(caller, ids[i])
  {
    seq(|ids|, i requires 0 <= i < |ids| => SlotOf(caller, ids[i]))
  }

  datatype Claim = Claim(ledger: Ledger, result: Result<Batch>)

  function ClaimWake(l: Ledger, s: Scope, caller: Caller, provider: Id, world: World): Claim {
    var now := world.tick(0);
    if !Current(s, caller, now) then Claim(l, Refused(Unauthenticated)) else
      var attempts := Swept(l.attempts, caller, now);
      var connections := Connected(l.connections, caller, provider, now);
      var l1 := l.(attempts := attempts, connections := connections);
      if connections[caller.agent].lastAttemptAt > now - PACE then
        Claim(l1, Ok(Batch(None, [], Some(connections[caller.agent].lastAttemptAt + PACE))))
      else
        var ids := FirstRows(Listed(Dispatchable(attempts, s, caller, now), Age(s), world), BATCH_LIMIT);
        if ids == [] then Claim(l1, Ok(Batch(None, [], None))) else
          var attempt := world.mint(0);
          Claim(Ledger(DispatchRows(attempts, caller, ids, attempt, now),
                       connections[caller.agent := connections[caller.agent].(lastAttemptAt := now, lastOutcome := Some(Dispatching))],
                       l.minted + {attempt}, l.dispatched + SlotsOf(caller, ids)),
                Ok(Batch(Some(attempt), ids, None)))
  }

  // ---- finish and retry ----------------------------------------------------------------------

  function OpenSlots(attempts: map<Slot, Attempt>, caller: Caller, attempt: Id): set<Slot> {
    set slot | slot in attempts && Own(slot, caller) && attempts[slot].id == attempt && attempts[slot].outcome == Dispatching
  }

  function AttemptSlots(attempts: map<Slot, Attempt>, caller: Caller, attempt: Id): set<Slot> {
    set slot | slot in attempts && Own(slot, caller) && attempts[slot].id == attempt
  }

  /** How the engine picks one row of a query. */
  type Pick = pick: set<Slot> -> Slot | forall slots :: slots != {} ==> pick(slots) in slots ghost witness slots => SomeSlot(slots)

  ghost function SomeSlot(slots: set<Slot>): (slot: Slot)
    ensures slots != {} ==> slot in slots
  {
    if slots == {} then Slot(0, 0, 0) else
      var slot :| slot in slots;
      slot
  }

  function Recorded(attempts: map<Slot, Attempt>, slots: set<Slot>, outcome: Delivery, now: Time): map<Slot, Attempt> {
    map slot | slot in attempts :: if slot in slots then attempts[slot].(outcome := outcome, updatedAt := now) else attempts[slot]
  }

  /** What FinishWake leaves, what it answers, and whether it recorded an outcome (and announced it). */
  datatype Finish = Finish(ledger: Ledger, result: Result<()>, recorded: bool)

  function FinishWake(l: Ledger, s: Scope, caller: Caller, attempt: Id, outcome: Delivery, pick: Pick, world: World): Finish {
    if !Current(s, caller, world.tick(0)) then Finish(l, Refused(Unauthenticated), false) else
      var open := OpenSlots(l.attempts, caller, attempt);
      if open == {} then
        var slots := AttemptSlots(l.attempts, caller, attempt);
        if slots == {} then Finish(l, Refused(NotFound), false)
        else if pick(slots) in l.attempts && l.attempts[pick(slots)].outcome != outcome then Finish(l, Refused(Conflict), false)
        else Finish(l, Ok(()), false)
      else
        var connections :=
          if caller.agent in l.connections && l.connections[caller.agent].execution == caller.execution
          then l.connections[caller.agent := l.connections[caller.agent].(lastOutcome := Some(outcome))] else l.connections;
        Finish(l.(attempts := Recorded(l.attempts, open, outcome, world.tick(1)), connections := connections), Ok(()), true)
  }

  /** A submission that may still be under way. */
  predicate UnderWay(attempts: map<Slot, Attempt>, slot: Slot, now: Time) {
    slot in attempts && attempts[slot].outcome == Dispatching && attempts[slot].updatedAt >= now - OPEN_FOR
  }

  /** The rows left after deleting what may be retried, or a conflict. */
  function RetryRows(attempts: map<Slot, Attempt>, caller: Caller, ids: seq<Id>, tick: nat, world: World): Result<map<Slot, Attempt>>
    decreases |ids|
  {
    if ids == [] then Ok(attempts) else
      var init, slot := RetryRows(attempts, caller, ids[..|ids| - 1], tick, world), SlotOf(caller, ids[|ids| - 1]);
      if init.Refused? then init
      else if UnderWay(init.value, slot, world.tick(tick + 2 * (|ids| - 1))) then Refused(Conflict)
      else if slot in init.value && !UnderWay(init.value, slot, world.tick(tick + 2 * (|ids| - 1) + 1)) then Ok(init.value - {slot})
      else init
  }

  function RetryWake(l: Ledger, s: Scope, caller: Caller, ids: seq<Id>, world: World): (Ledger, Result<()>) {
    if !Current(s, caller, world.tick(0)) then (l, Refused(Unauthenticated)) else
      var rows := RetryRows(l.attempts, caller, Unique(ids), 1, world);
      if rows.Refused? then (l, Refused(rows.error)) else (l.(attempts := rows.value), Ok(()))
  }

  /** Rows go with their message. */
  function Cascaded(l: Ledger, s: Scope): Ledger {
    l.(attempts := map slot | slot in l.attempts && slot.message in s.messages :: l.attempts[slot])
  }

  // ---- the rows of one attempt ---------------------------------------------------------------

  /** Rows of one attempt belong to one execution and share their outcome and its time; tries are bounded. */
  ghost predicate Sound(l: Ledger) {
    && (forall slot :: slot in l.attempts ==> l.attempts[slot].id in l.minted && 1 <= l.attempts[slot].tries <= MAX_TRIES)
    && (forall a, b :: a in l.attempts && b in l.attempts && l.attempts[a].id == l.attempts[b].id ==> Alike(l.attempts, a, b))
  }

  ghost predicate Alike(attempts: map<Slot, Attempt>, a: Slot, b: Slot)
    requires a in attempts && b in attempts
  {
    a.agent == b.agent && a.execution == b.execution && attempts[a].outcome == attempts[b].outcome && attempts[a].updatedAt == attempts[b].updatedAt
  }

  lemma {:induction false} DispatchRowsAre(attempts: map<Slot, Attempt>, caller: Caller, ids: seq<Id>, attempt: Id, now: Time)
    requires Distinct(ids)
    ensures var after := DispatchRows(attempts, caller, ids, attempt, now);
            && (forall slot :: slot in after <==> slot in attempts || (Own(slot, caller) && slot.message in ids))
            && (forall slot :: slot in after ==>
                  after[slot] == if Own(slot, caller) && slot.message in ids
                                 then Attempt(attempt, Dispatching, (if slot in attempts then attempts[slot].tries else 0) + 1, now) else attempts[slot])
    decreases |ids|
  {
    if ids != [] {
      SplitLast(ids);
      DispatchRowsAre(attempts, caller, ids[..|ids| - 1], attempt, now);
    }
  }

  lemma SweptIsSound(l: Ledger, caller: Caller, now: Time)
    requires Sound(l)
    ensures Sound(l.(attempts := Swept(l.attempts, caller, now)))
  {
    var after := Swept(l.attempts, caller, now);
    forall a, b | a in after && b in after && after[a].id == after[b].id ensures Alike(after, a, b) {
      assert Alike(l.attempts, a, b);
    }
  }

  lemma DispatchIsSound(l: Ledger, caller: Caller, ids: seq<Id>, attempt: Id, now: Time)
    requires Sound(l) && attempt !in l.minted && Distinct(ids)
    requires forall id :: id in ids ==> SlotOf(caller, id) !in l.attempts || l.attempts[SlotOf(caller, id)].tries < MAX_TRIES
    ensures Sound(l.(attempts := DispatchRows(l.attempts, caller, ids, attempt, now), minted := l.minted + {attempt}))
  {
    hide DispatchRows;
    DispatchRowsAre(l.attempts, caller, ids, attempt, now);
    var after := DispatchRows(l.attempts, caller, ids, attempt, now);
    forall slot | slot in after ensures after[slot].id in l.minted + {attempt} && 1 <= after[slot].tries <= MAX_TRIES {
      if Own(slot, caller) && slot.message in ids {
        assert slot == SlotOf(caller, slot.message);
      }
    }
    forall a, b | a in after && b in after && after[a].id == after[b].id ensures Alike(after, a, b) {
      if a in l.attempts && b in l.attempts && l.attempts[a].id == l.attempts[b].id {
        assert Alike(l.attempts, a, b);
      }
    }
  }

  /** What a claim dispatches: messages without a row, or whose last try found the session unavailable. */
  lemma ClaimRows(attempts: map<Slot, Attempt>, s: Scope, caller: Caller, now: Time, world: World)
    ensures var ids := FirstRows(Listed(Dispatchable(attempts, s, caller, now), Age(s), world), BATCH_LIMIT);
            && Distinct(ids) && |ids| <= BATCH_LIMIT
            && (forall id :: id in ids ==> id in Waiting(s, caller.agent, now) && MayDispatch(attempts, SlotOf(caller, id), now))
  {
    var listed := Listed(Dispatchable(attempts, s, caller, now), Age(s), world);
    ListedIsSorted(Dispatchable(attempts, s, caller, now), Age(s), world);
    assert forall i :: 0 <= i < |listed| ==> listed[i] in listed;
  }

  lemma ClaimIsSound(l: Ledger, s: Scope, caller: Caller, provider: Id, world: World)
    requires Sound(l) && world.mint(0) !in l.minted
    ensures Sound(ClaimWake(l, s, caller, provider, world).ledger)
  {
    hide Swept, Connected, DispatchRows, Listed, Dispatchable;
    var now := world.tick(0);
    if Current(s, caller, now) {
      var attempts := Swept(l.attempts, caller, now);
      SweptIsSound(l, caller, now);
      ClaimRows(attempts, s, caller, now, world);
      var ids := FirstRows(Listed(Dispatchable(attempts, s, caller, now), Age(s), world), BATCH_LIMIT);
      DispatchIsSound(l.(attempts := attempts), caller, ids, world.mint(0), now);
    }
  }

  lemma RecordedIsSound(l: Ledger, caller: Caller, attempt: Id, outcome: Delivery, now: Time)
    requires Sound(l)
    ensures Sound(l.(attempts := Recorded(l.attempts, OpenSlots(l.attempts, caller, attempt), outcome, now)))
  {
    var open := OpenSlots(l.attempts, caller, attempt);
    var after := Recorded(l.attempts, open, outcome, now);
    forall a, b | a in after && b in after && after[a].id == after[b].id ensures Alike(after, a, b) {
      assert Alike(l.attempts, a, b);
      assert a in open <==> b in open;
    }
  }

  lemma SameAttempts(l: Ledger, connections: map<Id, Connection>)
    requires Sound(l)
    ensures Sound(l.(connections := connections))
  {
  }

  lemma FinishIsSound(l: Ledger, s: Scope, caller: Caller, attempt: Id, outcome: Delivery, pick: Pick, world: World)
    requires Sound(l)
    ensures Sound(FinishWake(l, s, caller, attempt, outcome, pick, world).ledger)
  {
    hide Sound, Recorded, OpenSlots, AttemptSlots;
    var after := FinishWake(l, s, caller, attempt, outcome, pick, world).ledger;
    RecordedIsSound(l, caller, attempt, outcome, world.tick(1));
    if FinishWake(l, s, caller, attempt, outcome, pick, world).recorded {
      SameAttempts(l.(attempts := Recorded(l.attempts, OpenSlots(l.attempts, caller, attempt), outcome, world.tick(1))), after.connections);
    }
  }

  lemma {:induction false} RetryRowsAreFewer(attempts: map<Slot, Attempt>, caller: Caller, ids: seq<Id>, tick: nat, world: World)
    ensures var rows := RetryRows(attempts, caller, ids, tick, world);
            rows.Ok? ==> rows.value.Keys <= attempts.Keys && forall slot :: slot in rows.value ==> rows.value[slot] == attempts[slot]
    decreases |ids|
  {
    if ids != [] {
      RetryRowsAreFewer(attempts, caller, ids[..|ids| - 1], tick, world);
    }
  }

  lemma RetryIsSound(l: Ledger, s: Scope, caller: Caller, ids: seq<Id>, world: World)
    requires Sound(l)
    ensures Sound(RetryWake(l, s, caller, ids, world).0)
  {
    hide RetryRows;
    RetryRowsAreFewer(l.attempts, caller, Unique(ids), 1, world);
    var after := RetryWake(l, s, caller, ids, world).0.attempts;
    forall a, b | a in after && b in after && after[a].id == after[b].id ensures Alike(after, a, b) {
      assert Alike(l.attempts, a, b);
    }
  }

  // ---- what callers rely on ------------------------------------------------------------------

  /** A message is dispatched again to the same execution only if the previous outcome was `unavailable`. */
  lemma RedispatchNeedsUnavailable(l: Ledger, s: Scope, caller: Caller, provider: Id, world: World, id: Id)
    requires ClaimWake(l, s, caller, provider, world).result.Ok? && id in ClaimWake(l, s, caller, provider, world).result.value.messages
    ensures id in Waiting(s, caller.agent, world.tick(0))
    ensures SlotOf(caller, id) in l.attempts ==> l.attempts[SlotOf(caller, id)].outcome == Unavailable && l.attempts[SlotOf(caller, id)].tries < MAX_TRIES
  {
    hide DispatchRows, Listed, Connected;
    ClaimRows(Swept(l.attempts, caller, world.tick(0)), s, caller, world.tick(0), world);
  }

  /** A finished attempt answers alike whichever of its rows is read: repeating the recorded outcome succeeds
      and changes nothing, any other outcome is a conflict and changes nothing. */
  lemma FinishReplays(l: Ledger, s: Scope, caller: Caller, attempt: Id, outcome: Delivery, slot: Slot, pick: Pick, world: World)
    requires Sound(l) && Current(s, caller, world.tick(0)) && slot in l.attempts && Own(slot, caller) && l.attempts[slot].id == attempt
    requires l.attempts[slot].outcome != Dispatching
    ensures var out := FinishWake(l, s, caller, attempt, outcome, pick, world);
            out == Finish(l, if outcome == l.attempts[slot].outcome then Ok(()) else Refused(Conflict), false)
  {
    var slots := AttemptSlots(l.attempts, caller, attempt);
    assert slot in slots;
    forall other | other in slots ensures l.attempts[other].outcome == l.attempts[slot].outcome {
      assert Alike(l.attempts, other, slot);
    }
    assert OpenSlots(l.attempts, caller, attempt) == {};
  }

  /** A recorded outcome is recorded for every row of the attempt, and a repetition of it changes nothing. */
  lemma FinishTwice(l: Ledger, s: Scope, caller: Caller, attempt: Id, outcome: Delivery, pick: Pick, world: World, later: Scope, pick': Pick, world': World)
    requires Sound(l) && outcome != Dispatching && FinishWake(l, s, caller, attempt, outcome, pick, world).recorded
    requires Current(later, caller, world'.tick(0))
    ensures var l1 := FinishWake(l, s, caller, attempt, outcome, pick, world).ledger;
            && (forall slot :: slot in l1.attempts && l1.attempts[slot].id == attempt ==> l1.attempts[slot].outcome == outcome)
            && FinishWake(l1, later, caller, attempt, outcome, pick', world') == Finish(l1, Ok(()), false)
  {
    var l1 := FinishWake(l, s, caller, attempt, outcome, pick, world).ledger;
    var open := OpenSlots(l.attempts, caller, attempt);
    var slot :| slot in open;
    FinishIsSound(l, s, caller, attempt, outcome, pick, world);
    assert l1.attempts[slot].outcome == outcome && l1.attempts[slot].id == attempt;
    forall other | other in l1.attempts && l1.attempts[other].id == attempt ensures l1.attempts[other].outcome == outcome {
      assert Alike(l1.attempts, other, slot);
    }
    FinishReplays(l1, later, caller, attempt, outcome, slot, pick', world');
  }

  // ---- how often a message is dispatched -----------------------------------------------------

  function Count(dispatched: seq<Slot>, slot: Slot): nat {
    if dispatched == [] then 0 else
      Count(dispatched[..|dispatched| - 1], slot) + if dispatched[|dispatched| - 1] == slot then 1 else 0
  }

  lemma {:induction false} CountConcat(a: seq<Slot>, b: seq<Slot>, slot: Slot)
    ensures Count(a + b, slot) == Count(a, slot) + Count(b, slot)
    decreases |b|
  {
    if b == [] {
      assert a + b == a;
    } else {
      assert (a + b)[..|a + b| - 1] == a + b[..|b| - 1];
      CountConcat(a, b[..|b| - 1], slot);
    }
  }

  lemma {:induction false} CountOnce(caller: Caller, ids: seq<Id>, slot: Slot)
    requires Distinct(ids)
    ensures Count(SlotsOf(caller, ids), slot) == if Own(slot, caller) && slot.message in ids then 1 else 0
    decreases |ids|
  {
    if ids != [] {
      var init, last := ids[..|ids| - 1], ids[|ids| - 1];
      SplitLast(ids);
      assert SlotsOf(caller, ids)[..|ids| - 1] == SlotsOf(caller, init);
      CountOnce(caller, init, slot);
      assert SlotOf(caller, last) == slot <==> Own(slot, caller) && slot.message == last;
    }
  }

  /** While nobody asks for a retry, a row counts the dispatches of its message; a message without a row was
      never dispatched, unless it is gone for good, and then not too often. */
  ghost predicate Tallied(l: Ledger, s: Scope) {
    forall slot :: Tally(l, s, slot, Count(l.dispatched, slot))
  }

  predicate Tally(l: Ledger, s: Scope, slot: Slot, count: nat) {
    if slot in l.attempts then count == l.attempts[slot].tries else if Gone(s, slot.message) then count <= MAX_TRIES else count == 0
  }

  predicate Gone(s: Scope, message: Id) {
    message in s.issued && message !in s.messages
  }

  lemma ClaimTallies(l: Ledger, s: Scope, caller: Caller, provider: Id, world: World)
    requires Tallied(l, s)
    ensures Tallied(ClaimWake(l, s, caller, provider, world).ledger, s)
  {
    hide DispatchRows, Listed, Connected, Count;
    var now := world.tick(0);
    if Current(s, caller, now) {
      var attempts := Swept(l.attempts, caller, now);
      var ids := FirstRows(Listed(Dispatchable(attempts, s, caller, now), Age(s), world), BATCH_LIMIT);
      ClaimRows(attempts, s, caller, now, world);
      DispatchRowsAre(attempts, caller, ids, world.mint(0), now);
      forall slot ensures Count(l.dispatched + SlotsOf(caller, ids), slot) == Count(l.dispatched, slot) + (if Own(slot, caller) && slot.message in ids then 1 else 0) {
        CountConcat(l.dispatched, SlotsOf(caller, ids), slot);
        CountOnce(caller, ids, slot);
      }
      DispatchTallies(l, s, caller, ids, world.mint(0), now);
    }
  }

  lemma DispatchTallies(l: Ledger, s: Scope, caller: Caller, ids: seq<Id>, attempt: Id, now: Time)
    requires Tallied(l, s) && Distinct(ids) && forall id :: id in ids ==> id in s.messages
    ensures var attempts := Swept(l.attempts, caller, now);
            Tallied(l.(attempts := attempts), s)
            && Tallied(l.(attempts := DispatchRows(attempts, caller, ids, attempt, now), dispatched := l.dispatched + SlotsOf(caller, ids)), s)
  {
    hide DispatchRows, Count;
    var attempts := Swept(l.attempts, caller, now);
    DispatchRowsAre(attempts, caller, ids, attempt, now);
    forall slot ensures Count(l.dispatched + SlotsOf(caller, ids), slot) == Count(l.dispatched, slot) + (if Own(slot, caller) && slot.message in ids then 1 else 0) {
      CountConcat(l.dispatched, SlotsOf(caller, ids), slot);
      CountOnce(caller, ids, slot);
    }
  }

  lemma FinishTallies(l: Ledger, s: Scope, caller: Caller, attempt: Id, outcome: Delivery, pick: Pick, world: World)
    requires Tallied(l, s)
    ensures Tallied(FinishWake(l, s, caller, attempt, outcome, pick, world).ledger, s)
  {
    hide Count;
  }

  /** Any transaction of the scope, and the rows that go with the messages it deletes. */
  lemma ScopeTallies(l: Ledger, s: Scope, t: Scope)
    requires Sound(l) && Tallied(l, s) && Evolves(s, t) && Handed(s) && forall slot :: slot in l.attempts ==> slot.message in s.messages
    ensures Tallied(Cascaded(l, t), t)
  {
    hide Count;
    forall slot ensures Tally(Cascaded(l, t), t, slot, Count(l.dispatched, slot)) {
      assert Tally(l, s, slot, Count(l.dispatched, slot));
      assert Gone(s, slot.message) ==> Gone(t, slot.message);
    }
  }

  /** What may happen to the ledger while nobody asks for a retry. */
  datatype Act =
    | Claiming(caller: Caller, provider: Id, world: World)
    | Finishing(caller: Caller, attempt: Id, outcome: Delivery, pick: Pick, world: World)
    | Elsewhere(after: Scope)

  datatype State = State(ledger: Ledger, scope: Scope)

  ghost predicate Possible(at: State, act: Act) {
    match act
    case Claiming(_, _, world) => world.mint(0) !in at.ledger.minted
    case Finishing(_, _, outcome, _, _) => outcome != Dispatching
    case Elsewhere(after) => Inv(after) && Evolves(at.scope, after)
  }

  ghost function Next(at: State, act: Act): State {
    match act
    case Claiming(caller, provider, world) => State(ClaimWake(at.ledger, at.scope, caller, provider, world).ledger, at.scope)
    case Finishing(caller, attempt, outcome, pick, world) => State(FinishWake(at.ledger, at.scope, caller, attempt, outcome, pick, world).ledger, at.scope)
    case Elsewhere(after) => State(Cascaded(at.ledger, after), after)
  }

  ghost predicate Good(at: State) {
    Sound(at.ledger) && Tallied(at.ledger, at.scope) && Inv(at.scope) && Placed(at.ledger.attempts, at.scope)
  }

  /** Every row is for a message of its agent, and names an execution that was handed out. */
  ghost predicate Placed(attempts: map<Slot, Attempt>, s: Scope) {
    forall slot :: slot in attempts ==> PlacedSlot(slot, s)
  }

  ghost predicate PlacedSlot(slot: Slot, s: Scope) {
    slot.message in s.messages && s.messages[slot.message].to == Address(slot.agent) && slot.agent in s.agents && slot.execution in s.issued
  }

  lemma CurrentIsIssued(s: Scope, caller: Caller, now: Time)
    requires Inv(s) && Current(s, caller, now)
    ensures caller.agent in s.agents && s.agents[caller.agent].execution == caller.execution && caller.execution in s.issued
  {
  }

  lemma ClaimPlaces(l: Ledger, s: Scope, caller: Caller, provider: Id, world: World)
    requires Inv(s) && Placed(l.attempts, s)
    ensures Placed(ClaimWake(l, s, caller, provider, world).ledger.attempts, s)
  {
    hide Inv, DispatchRows, Listed, Connected;
    var now := world.tick(0);
    if Current(s, caller, now) {
      var attempts := Swept(l.attempts, caller, now);
      var ids := FirstRows(Listed(Dispatchable(attempts, s, caller, now), Age(s), world), BATCH_LIMIT);
      CurrentIsIssued(s, caller, now);
      ClaimRows(attempts, s, caller, now, world);
      DispatchRowsAre(attempts, caller, ids, world.mint(0), now);
    }
  }

  lemma CascadePlaces(l: Ledger, s: Scope, t: Scope)
    requires Placed(l.attempts, s) && Evolves(s, t)
    ensures Placed(Cascaded(l, t).attempts, t)
  {
  }

  /** A bus that has woken nobody yet. */
  function NoWakes(): Ledger {
    Ledger(map[], map[], {}, [])
  }

  lemma NoWakesIsGood(s: Scope)
    requires Inv(s)
    ensures Good(State(NoWakes(), s))
  {
    hide Inv;
  }

  lemma RowsHaveMessages(at: State)
    requires Placed(at.ledger.attempts, at.scope)
    ensures forall slot :: slot in at.ledger.attempts ==> slot.message in at.scope.messages
  {
  }

  lemma NextIsGood(at: State, act: Act)
    requires Good(at) && Possible(at, act)
    ensures Good(Next(at, act))
  {
    hide Sound, Tallied, Evolves, ClaimWake, FinishWake, Inv, PlacedSlot;
    match act
    case Claiming(caller, provider, world) =>
      ClaimIsSound(at.ledger, at.scope, caller, provider, world);
      ClaimTallies(at.ledger, at.scope, caller, provider, world);
      ClaimPlaces(at.ledger, at.scope, caller, provider, world);
    case Finishing(caller, attempt, outcome, pick, world) =>
      FinishIsSound(at.ledger, at.scope, caller, attempt, outcome, pick, world);
      FinishTallies(at.ledger, at.scope, caller, attempt, outcome, pick, world);
      FinishKeepsRows(at.ledger, at.scope, caller, attempt, outcome, pick, world);
    case Elsewhere(after) =>
      HandedInv(at.scope);
      RowsHaveMessages(at);
      CascadePlaces(at.ledger, at.scope, after);
      ScopeTallies(at.ledger, at.scope, after);
      CascadeIsSound(at.ledger, after);
  }

  lemma FinishKeepsRows(l: Ledger, s: Scope, caller: Caller, attempt: Id, outcome: Delivery, pick: Pick, world: World)
    ensures FinishWake(l, s, caller, attempt, outcome, pick, world).ledger.attempts.Keys == l.attempts.Keys
  {
  }

  lemma CascadeIsSound(l: Ledger, s: Scope)
    requires Sound(l)
    ensures Sound(Cascaded(l, s))
  {
    var after := Cascaded(l, s).attempts;
    forall a, b | a in after && b in after && after[a].id == after[b].id ensures Alike(after, a, b) {
      assert Alike(l.attempts, a, b);
    }
  }

  ghost function After(at: State, acts: seq<Act>): State
    decreases |acts|
  {
    if acts == [] then at else Next(After(at, acts[..|acts| - 1]), acts[|acts| - 1])
  }

  ghost predicate AllPossible(at: State, acts: seq<Act>)
    decreases |acts|
  {
    acts == [] || (AllPossible(at, acts[..|acts| - 1]) && Possible(After(at, acts[..|acts| - 1]), acts[|acts| - 1]))
  }

  lemma {:induction false} AfterIsGood(at: State, acts: seq<Act>)
    requires Good(at) && AllPossible(at, acts)
    ensures Good(After(at, acts))
    decreases |acts|
  {
    hide Good, Possible, Next;
    if acts != [] {
      AfterIsGood(at, acts[..|acts| - 1]);
      NextIsGood(After(at, acts[..|acts| - 1]), acts[|acts| - 1]);
    }
  }

  /** Without a retry no message is ever dispatched to one execution more than five times, however claims, outcomes
      and other transactions, deletions included, interleave. */
  lemma AtMostFiveDispatches(at: State, acts: seq<Act>, slot: Slot)
    requires Good(at) && AllPossible(at, acts)
    ensures Count(After(at, acts).ledger.dispatched, slot) <= MAX_TRIES
  {
    hide After, AllPossible, Count;
    AfterIsGood(at, acts);
    var end := After(at, acts);
    assert Tally(end.ledger, end.scope, slot, Count(end.ledger.dispatched, slot));
  }

  // ---- how long an outcome stays -------------------------------------------------------------

  lemma ClaimKeepsOutcome(l: Ledger, s: Scope, caller: Caller, provider: Id, world: World, slot: Slot)
    requires slot in l.attempts && l.attempts[slot].outcome != Dispatching
    ensures var after := ClaimWake(l, s, caller, provider, world).ledger.attempts;
            && slot in after
            && (after[slot] == l.attempts[slot]
                || (l.attempts[slot].outcome == Unavailable && Own(slot, caller)
                    && after[slot].outcome == Dispatching && after[slot].tries == l.attempts[slot].tries + 1))
  {
    hide Listed, Connected, DispatchRows;
    var now := world.tick(0);
    if Current(s, caller, now) {
      var attempts := Swept(l.attempts, caller, now);
      var ids := FirstRows(Listed(Dispatchable(attempts, s, caller, now), Age(s), world), BATCH_LIMIT);
      ClaimRows(attempts, s, caller, now, world);
      DispatchRowsAre(attempts, caller, ids, world.mint(0), now);
      assert attempts[slot] == l.attempts[slot];
      assert Own(slot, caller) ==> slot == SlotOf(caller, slot.message);
    }
  }

  lemma FinishKeepsOutcome(l: Ledger, s: Scope, caller: Caller, attempt: Id, outcome: Delivery, pick: Pick, world: World, slot: Slot)
    requires slot in l.attempts && l.attempts[slot].outcome != Dispatching
    ensures var after := FinishWake(l, s, caller, attempt, outcome, pick, world).ledger.attempts; slot in after && after[slot] == l.attempts[slot]
  {
    hide AttemptSlots;
    assert slot !in OpenSlots(l.attempts, caller, attempt);
  }

  /** Whatever comes next but a retry, a recorded outcome stays until its message is deleted, or, after `unavailable`,
      until a claim of the same execution dispatches it once more. */
  lemma OutcomeSteps(at: State, act: Act, slot: Slot)
    requires Good(at) && Possible(at, act) && slot in at.ledger.attempts && at.ledger.attempts[slot].outcome != Dispatching
    ensures var before, end := at.ledger.attempts[slot], Next(at, act);
            if slot !in end.ledger.attempts then Gone(end.scope, slot.message)
            else
              || end.ledger.attempts[slot] == before
              || (act.Claiming? && before.outcome == Unavailable && Own(slot, act.caller)
                  && end.ledger.attempts[slot].outcome == Dispatching && end.ledger.attempts[slot].tries == before.tries + 1)
  {
    hide Sound, Tallied, ClaimWake, FinishWake;
    match act
    case Claiming(caller, provider, world) => ClaimKeepsOutcome(at.ledger, at.scope, caller, provider, world, slot);
    case Finishing(caller, attempt, outcome, pick, world) => FinishKeepsOutcome(at.ledger, at.scope, caller, attempt, outcome, pick, world, slot);
    case Elsewhere(after) =>
  }

  /** Along any run without a retry, `submitted` and `uncertain` stay as they were recorded for as long as the message
      is there. */
  lemma {:induction false} OutcomesStay(at: State, acts: seq<Act>, slot: Slot)
    requires Good(at) && AllPossible(at, acts) && slot in at.ledger.attempts
    requires at.ledger.attempts[slot].outcome == Delivery.Submitted || at.ledger.attempts[slot].outcome == Uncertain
    ensures var end := After(at, acts);
            if slot in end.ledger.attempts then end.ledger.attempts[slot] == at.ledger.attempts[slot] else Gone(end.scope, slot.message)
    decreases |acts|
  {
    hide Good, Possible, Next, Gone;
    if acts != [] {
      var init, act := acts[..|acts| - 1], acts[|acts| - 1];
      OutcomesStay(at, init, slot);
      AfterIsGood(at, init);
      var mid := After(at, init);
      if slot in mid.ledger.attempts {
        OutcomeSteps(mid, act, slot);
      } else {
        GoneStays(mid, act, slot);
      }
    }
  }

  lemma GoneStays(at: State, act: Act, slot: Slot)
    requires Good(at) && Possible(at, act) && Gone(at.scope, slot.message)
    ensures Gone(Next(at, act).scope, slot.message) && slot !in Next(at, act).ledger.attempts
  {
    hide Gone, ClaimWake, FinishWake;
    GoneLater(at, act, slot);
    NextIsGood(at, act);
    NoRowForGone(Next(at, act), slot);
  }

  lemma GoneLater(at: State, act: Act, slot: Slot)
    requires Possible(at, act) && Gone(at.scope, slot.message)
    ensures Gone(Next(at, act).scope, slot.message)
  {
    hide ClaimWake, FinishWake, Cascaded;
  }

  lemma NoRowForGone(at: State, slot: Slot)
    requires Good(at) && Gone(at.scope, slot.message)
    ensures slot !in at.ledger.attempts
  {
    hide Sound, Tallied;
  }

  // ---- the tables ----------------------------------------------------------------------------

  lemma DispatchNext(attempts: map<Slot, Attempt>, caller: Caller, ids: seq<Id>, i: nat, attempt: Id, now: Time)
    requires i < |ids|
    ensures DispatchRows(attempts, caller, ids[..i + 1], attempt, now) == DispatchRow(DispatchRows(attempts, caller, ids[..i], attempt, now), SlotOf(caller, ids[i]), attempt, now)
  {
    assert ids[..i + 1][..i] == ids[..i];
  }

  lemma RetryNext(attempts: map<Slot, Attempt>, caller: Caller, ids: seq<Id>, i: nat, tick: nat, world: World)
    requires i < |ids|
    ensures var init, slot := RetryRows(attempts, caller, ids[..i], tick, world), SlotOf(caller, ids[i]);
            RetryRows(attempts, caller, ids[..i + 1], tick, world) ==
              if init.Refused? then init
              else if UnderWay(init.value, slot, world.tick(tick + 2 * i)) then Refused(Conflict)
              else if slot in init.value && !UnderWay(init.value, slot, world.tick(tick + 2 * i + 1)) then Ok(init.value - {slot})
              else init
  {
    assert ids[..i + 1][..i] == ids[..i];
  }

  lemma {:induction false} RetryStaysRefused(attempts: map<Slot, Attempt>, caller: Caller, ids: seq<Id>, n: nat, tick: nat, world: World)
    requires n <= |ids| && RetryRows(attempts, caller, ids[..n], tick, world).Refused?
    ensures RetryRows(attempts, caller, ids, tick, world) == RetryRows(attempts, caller, ids[..n], tick, world)
    decreases |ids|
  {
    if n < |ids| {
      assert ids[..|ids| - 1][..n] == ids[..n];
      RetryStaysRefused(attempts, caller, ids[..|ids| - 1], n, tick, world);
    } else {
      assert ids[..n] == ids;
    }
  }
}
