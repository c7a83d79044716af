/** The wake tables as the program updates them, proved to do what the ledger's functions say. */
module WakeStore {
  import opened Model
  import opened Scopes
  import opened Invariants
  import opened Tables
  import opened Wakes

  /** wake_attempts and wake_connections, updated in place. */
  class WakeTables {
    var attempts: map<Slot, Attempt>
    var connections: map<Id, Connection>
    ghost var minted: set<Id>
    ghost var dispatched: seq<Slot>

    ghost function State(): Ledger
      reads this
    {
      Ledger(attempts, connections, minted, dispatched)
    }

    constructor ()
      ensures Sound(State()) && forall s :: Tallied(State(), s)
    {
      attempts, connections := map[], map[];
      minted, dispatched := {}, [];
    }

    method ClaimWake(s: Scope, caller: Caller, provider: Id, world: World) returns (result: Result<Batch>)
      modifies this
      ensures Claim(State(), result) == Wakes.ClaimWake(old(State()), s, caller, provider, world)
    {
      hide DispatchRows, Dispatchable;
      var now := world.tick(0);
      if !Current(s, caller, now) {
        return Refused(Unauthenticated);
      }
      attempts := Swept(attempts, caller, now);
      connections := Connected(connections, caller, provider, now);
      if connections[caller.agent].lastAttemptAt > now - PACE {
        return Ok(Batch(None, [], Some(connections[caller.agent].lastAttemptAt + PACE)));
      }
      var ids := FirstRows(Listed(Dispatchable(attempts, s, caller, now), Age(s), world), BATCH_LIMIT);
      if |ids| == 0 {
        return Ok(Batch(None, [], None));
      }
      DispatchAll(caller, ids, world.mint(0), now);
      result := Ok(Batch(Some(world.mint(0)), ids, None));
    }

    /** One upsert for each message, then the connection. */
    method DispatchAll(caller: Caller, ids: seq<Id>, attempt: Id, now: Time)
      requires caller.agent in connections
      modifies this
      ensures State() == Ledger(DispatchRows(old(attempts), caller, ids, attempt, now),
                                old(connections)[caller.agent := old(connections)[caller.agent].(lastAttemptAt := now, lastOutcome := Some(Dispatching))],
                                old(minted) + {attempt}, old(dispatched) + SlotsOf(caller, ids))
    {
      assert ids[..0] == [];
      for i := 0 to |ids|
        invariant attempts == DispatchRows(old(attempts), caller, ids[..i], attempt, now)
        invariant connections == old(connections) && minted == old(minted) && dispatched == old(dispatched)
      {
        DispatchNext(old(attempts), caller, ids, i, attempt, now);
        var slot := SlotOf(caller, ids[i]);
        var tries := if slot in attempts then attempts[slot].tries else 0;
        attempts := attempts[slot := Attempt(attempt, Dispatching, tries + 1, now)];
      }
      assert ids[..|ids|] == ids;
      connections := connections[caller.agent := connections[caller.agent].(lastAttemptAt := now, lastOutcome := Some(Dispatching))];
      minted, dispatched := minted + {attempt}, dispatched + SlotsOf(caller, ids);
    }

    method FinishWake(s: Scope, caller: Caller, attempt: Id, outcome: Delivery, pick: Pick, world: World) returns (result: Result<()>, recorded: bool)
      modifies this
      ensures Finish(State(), result, recorded) == Wakes.FinishWake(old(State()), s, caller, attempt, outcome, pick, world)
    {
      hide Recorded;
      if !Current(s, caller, world.tick(0)) {
        return Refused(Unauthenticated), false;
      }
      var open := OpenSlots(attempts, caller, attempt);
      if open == {} {
        var slots := AttemptSlots(attempts, caller, attempt);
        if slots == {} {
          return Refused(NotFound), false;
        }
        var previous := pick(slots);
        if previous in attempts && attempts[previous].outcome != outcome {
          return Refused(Conflict), false;
        }
        return Ok(()), false;
      }
      attempts := Recorded(attempts, open, outcome, world.tick(1));
      if caller.agent in connections && connections[caller.agent].execution == caller.execution {
        connections := connections[caller.agent := connections[caller.agent].(lastOutcome := Some(outcome))];
      }
      result, recorded := Ok(()), true;
    }

    /** Nothing is forgotten if any of the listed submissions may still be under way. */
    method RetryWake(s: Scope, caller: Caller, ids: seq<Id>, world: World) returns (result: Result<()>)
      modifies this
      ensures (State(), result) == Wakes.RetryWake(old(State()), s, caller, ids, world)
    {
      hide RetryRows;
      if !Current(s, caller, world.tick(0)) {
        return Refused(Unauthenticated);
      }
      var saved, slots := attempts, Unique(ids);
      result := DeleteRows(caller, slots, world);
      if result.Refused? {
        attempts := saved;
      }
    }

    method DeleteRows(caller: Caller, ids: seq<Id>, world: World) returns (result: Result<()>)
      modifies this`attempts
      ensures var rows := RetryRows(old(attempts), caller, ids, 1, world);
              if rows.Ok? then result == Ok(()) && attempts == rows.value else result == Refused(rows.error)
    {
      assert ids[..0] == [];
      for i := 0 to |ids|
        invariant RetryRows(old(attempts), caller, ids[..i], 1, world) == Ok(attempts)
      {
        RetryNext(old(attempts), caller, ids, i, 1, world);
        var slot := SlotOf(caller, ids[i]);
        if UnderWay(attempts, slot, world.tick(1 + 2 * i)) {
          RetryStaysRefused(old(attempts), caller, ids, i + 1, 1, world);
          return Refused(Conflict);
        }
        if slot in attempts && !UnderWay(attempts, slot, world.tick(1 + 2 * i + 1)) {
          attempts := attempts - {slot};
        }
      }
      assert ids[..|ids|] == ids;
      result := Ok(());
    }
  }
}
