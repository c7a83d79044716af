/** Each loop of row writes keeps the invariant, evolves the scope, and changes exactly the listed rows. */
module Sweeps {
  import opened Model
  import opened Logs
  import opened Scopes
  import opened RemoteWork
  import opened Invariants
  import opened Rows

  /** A sweep touches message rows, remote tasks and the log, and nothing else. */
  ghost predicate Sweeps(s: Scope, t: Scope) {
    t == s.(messages := t.messages, remoteTasks := t.remoteTasks, log := t.log) && t.messages.Keys == s.messages.Keys
  }

  /** The listed rows changed by `change`; the others did not change. */
  ghost predicate Changes(s: Scope, t: Scope, ids: seq<Id>, change: Message -> Message) {
    && Sweeps(s, t)
    && (forall id :: id in s.messages ==> t.messages[id] == if id in ids then change(s.messages[id]) else s.messages[id])
  }

  /** One more row after a sweep. */
  lemma ChangesStep(s: Scope, t: Scope, u: Scope, init: seq<Id>, last: Id, change: Message -> Message)
    requires Changes(s, t, init, change) && last in s.messages && last !in init
    requires Sweeps(t, u) && u.messages == t.messages[last := change(t.messages[last])]
    ensures Changes(s, u, init + [last], change)
  {
  }

  lemma SplitLast(ids: seq<Id>)
    requires ids != [] && Distinct(ids)
    ensures var init, last := ids[..|ids| - 1], ids[|ids| - 1];
            ids == init + [last] && last !in init && Distinct(init) && (forall id :: id in init ==> id in ids) && last in ids
  {
  }

  // ---- expiry --------------------------------------------------------------------------------

  lemma ExpireRowChanges(s: Scope, id: Id, now: Time)
    requires id in s.messages && Live(s.messages[id].state)
    ensures Sweeps(s, ExpireRow(s, id, now))
    ensures ExpireRow(s, id, now).messages == s.messages[id := AsExpired(s.messages[id])]
  {
    AdvanceFrame(s, id, Expiry, now);
  }

  lemma {:induction false} ExpireRowsKeep(s: Scope, ids: seq<Id>, now: Time, out: set<Id>)
    requires Between(s, out) && Distinct(ids)
    requires forall id :: id in ids ==> id in s.messages && s.messages[id].expiresAt.Some? && Live(s.messages[id].state)
    ensures Between(ExpireRows(s, ids, now), out) && Evolves(s, ExpireRows(s, ids, now))
    ensures Changes(s, ExpireRows(s, ids, now), ids, AsExpired)
    decreases |ids|
  {
    hide Between, Evolves, ExpireRow;
    EvolvesReflexive(s);
    if ids != [] {
      var init, last := ids[..|ids| - 1], ids[|ids| - 1];
      SplitLast(ids);
      ExpireRowsKeep(s, init, now, out);
      var t := ExpireRows(s, init, now);
      ExpireRowKeeps(t, last, now, out);
      ExpireRowChanges(t, last, now);
      ChangesStep(s, t, ExpireRow(t, last, now), init, last, AsExpired);
      HandedBetween(s, out);
      EvolvesTransitive(s, t, ExpireRow(t, last, now));
    }
  }

  lemma HandedBetween(s: Scope, out: set<Id>)
    requires Between(s, out)
    ensures Handed(s)
  {
  }

  lemma ExpireKeeps(s: Scope, now: Time, world: World, out: set<Id>)
    requires Between(s, out)
    ensures Between(Expire(s, now, world), out) && Evolves(s, Expire(s, now, world))
    ensures Changes(s, Expire(s, now, world), world.order(Due(s, now)), AsExpired)
  {
    hide Between, Evolves, ExpireRows;
    assert Lists(world.order(Due(s, now)), Due(s, now));
    ExpireRowsKeep(s, world.order(Due(s, now)), now, out);
  }

  /** After the sweep nothing that is due is still live. */
  lemma ExpireIsComplete(s: Scope, now: Time, world: World)
    requires Between(s, {})
    ensures Due(Expire(s, now, world), now) == {}
  {
    hide Between, Evolves, Expire;
    ExpireKeeps(s, now, world, {});
    assert Lists(world.order(Due(s, now)), Due(s, now));
  }

  // ---- release -------------------------------------------------------------------------------

  lemma {:induction false} FreeRowsKeep(s: Scope, ids: seq<Id>, now: Time, out: set<Id>)
    requires Between(s, out) && Distinct(ids)
    requires forall id :: id in ids ==> id in s.messages && s.messages[id].state == Reserved
    ensures Between(FreeRows(s, ids, now), out) && Evolves(s, FreeRows(s, ids, now))
    ensures Changes(s, FreeRows(s, ids, now), ids, AsFreed)
    decreases |ids|
  {
    hide Between, Evolves, FreeRow;
    EvolvesReflexive(s);
    if ids != [] {
      var init, last := ids[..|ids| - 1], ids[|ids| - 1];
      SplitLast(ids);
      FreeRowsKeep(s, init, now, out);
      var t := FreeRows(s, init, now);
      FreeRowKeeps(t, last, now, out);
      FreeRowChanges(t, last, now);
      ChangesStep(s, t, FreeRow(t, last, now), init, last, AsFreed);
      HandedBetween(s, out);
      EvolvesTransitive(s, t, FreeRow(t, last, now));
    }
  }

  lemma FreeRowChanges(s: Scope, id: Id, now: Time)
    requires id in s.messages
    ensures Sweeps(s, FreeRow(s, id, now)) && FreeRow(s, id, now).messages == s.messages[id := AsFreed(s.messages[id])]
  {
  }

  /** What a release leaves: the reservation is gone and its messages are queued or delivered again. */
  ghost predicate Releases(s: Scope, t: Scope, agent: Id, reservation: Id, ids: seq<Id>) {
    && t.reservations == DropReservation(s, agent, reservation).reservations
    && Changes(s, t.(reservations := s.reservations), ids, AsFreed)
  }

  lemma ReleaseKeeps(s: Scope, agent: Id, reservation: Id, now: Time, world: World, out: set<Id>)
    requires Between(s, out)
    ensures Between(Release(s, agent, reservation, now, world), out) && Evolves(s, Release(s, agent, reservation, now, world))
    ensures Releases(s, Release(s, agent, reservation, now, world), agent, reservation, world.order(Held(s, agent, reservation)))
  {
    hide Between, Evolves, FreeRows, Held, AsFreed, Changes, Releases, DropReservation;
    var ids := world.order(Held(s, agent, reservation));
    assert Lists(ids, Held(s, agent, reservation));
    HeldAreReserved(s, agent, reservation);
    FreeRowsKeep(s, ids, now, out);
    var t := FreeRows(s, ids, now);
    DropReleases(s, t, agent, reservation, ids);
    if reservation in s.reservations && s.reservations[reservation].agent == agent {
      NobodyHolds(s, t, agent, reservation, ids, out);
      DropKeeps(t, agent, reservation, out);
      HandedBetween(s, out);
      EvolvesTransitive(s, t, DropReservation(t, agent, reservation));
    }
  }

  lemma DropReleases(s: Scope, t: Scope, agent: Id, reservation: Id, ids: seq<Id>)
    requires Changes(s, t, ids, AsFreed)
    ensures Releases(s, DropReservation(t, agent, reservation), agent, reservation, ids) && t.reservations == s.reservations
    ensures !(reservation in s.reservations && s.reservations[reservation].agent == agent) ==> DropReservation(t, agent, reservation) == t
  {
    hide AsFreed;
  }

  lemma HeldAreReserved(s: Scope, agent: Id, reservation: Id)
    ensures forall id :: id in Held(s, agent, reservation) ==> id in s.messages && s.messages[id].state == Reserved
  {
  }

  lemma NobodyHolds(s: Scope, t: Scope, agent: Id, reservation: Id, ids: seq<Id>, out: set<Id>)
    requires Between(s, out) && reservation in s.reservations && s.reservations[reservation].agent == agent
    requires Lists(ids, Held(s, agent, reservation)) && Changes(s, t, ids, AsFreed)
    ensures forall id :: id in t.messages ==> t.messages[id].reservation != Some(reservation)
  {
    hide Threads, RemoteRows, Agreement, LogOk, KeysUnique, AgentRows, TaskRows, Board, ProgressRows, LinkRows, ReservationRows;
    forall id | id in t.messages ensures t.messages[id].reservation != Some(reservation) {
      assert Stamped(s.messages[id]) && HeldBy(s.messages[id], s.reservations);
    }
  }

  lemma {:induction false} ReleaseEachKeeps(s: Scope, ids: seq<Id>, tick: nat, world: World, out: set<Id>)
    requires Between(s, out)
    ensures Between(ReleaseEach(s, ids, tick, world), out) && Evolves(s, ReleaseEach(s, ids, tick, world))
    ensures var t := ReleaseEach(s, ids, tick, world);
            && t == s.(messages := t.messages, reservations := t.reservations, log := t.log)
            && t.messages.Keys == s.messages.Keys
            && (forall r :: r in t.reservations <==> r in s.reservations && r !in ids)
            && (forall r :: r in t.reservations ==> t.reservations[r] == s.reservations[r])
    decreases |ids|
  {
    hide Between, Evolves, Release;
    EvolvesReflexive(s);
    if ids != [] {
      var init, last := ids[..|ids| - 1], ids[|ids| - 1];
      assert ids == init + [last];
      ReleaseEachKeeps(s, init, tick, world, out);
      var t := ReleaseEach(s, init, tick, world);
      if last in t.reservations {
        var agent, now := t.reservations[last].agent, world.tick(tick + |init|);
        ReleaseKeeps(t, agent, last, now, world, out);
        FreeOnly(t, world.order(Held(t, agent, last)), now);
        assert Release(t, agent, last, now, world) == DropReservation(FreeRows(t, world.order(Held(t, agent, last)), now), agent, last) by {
          ReleaseIs(t, agent, last, now, world);
        }
        HandedBetween(s, out);
        EvolvesTransitive(s, t, Release(t, agent, last, now, world));
      }
    }
  }

  lemma ReleaseIs(s: Scope, agent: Id, reservation: Id, now: Time, world: World)
    ensures Release(s, agent, reservation, now, world) == DropReservation(FreeRows(s, world.order(Held(s, agent, reservation)), now), agent, reservation)
  {
  }

  /** Freeing rows writes only message rows and the log. */
  lemma {:induction false} FreeOnly(s: Scope, ids: seq<Id>, now: Time)
    ensures var t := FreeRows(s, ids, now); t == s.(messages := t.messages, log := t.log) && t.messages.Keys == s.messages.Keys
    decreases |ids|
  {
    if ids != [] {
      FreeOnly(s, ids[..|ids| - 1], now);
    }
  }

  // ---- ordered queries -----------------------------------------------------------------------

  ghost predicate Sorted(rows: seq<Id>, key: Id -> Time) {
    forall i, j :: 0 <= i < j < |rows| ==> key(rows[i]) <= key(rows[j])
  }

  lemma {:induction false} InsertByKeeps(row: Id, rows: seq<Id>, key: Id -> Time)
    ensures multiset(InsertBy(row, rows, key)) == multiset{row} + multiset(rows)
  {
    if rows != [] && key(row) > key(rows[0]) {
      InsertByKeeps(row, rows[1..], key);
      assert rows == [rows[0]] + rows[1..];
    }
  }

  lemma InsertByMembers(row: Id, rows: seq<Id>, key: Id -> Time)
    ensures forall i :: 0 <= i < |InsertBy(row, rows, key)| ==> InsertBy(row, rows, key)[i] == row || InsertBy(row, rows, key)[i] in rows
  {
    hide InsertBy;
    InsertByKeeps(row, rows, key);
    var all := InsertBy(row, rows, key);
    forall i | 0 <= i < |all| ensures all[i] == row || all[i] in rows {
      assert all[i] in multiset(all);
    }
  }

  lemma {:induction false} InsertBySorted(row: Id, rows: seq<Id>, key: Id -> Time)
    requires Sorted(rows, key)
    ensures Sorted(InsertBy(row, rows, key), key)
  {
    if rows != [] && key(row) > key(rows[0]) {
      InsertBySorted(row, rows[1..], key);
      InsertByMembers(row, rows[1..], key);
      assert forall x :: x in rows[1..] ==> key(rows[0]) <= key(x);
    }
  }

  /** ORDER BY returns the same rows, in order. */
  lemma {:induction false} SortBySorts(rows: seq<Id>, key: Id -> Time)
    ensures Sorted(SortBy(rows, key), key)
    ensures multiset(SortBy(rows, key)) == multiset(rows)
  {
    if rows != [] {
      SortBySorts(rows[1..], key);
      InsertBySorted(rows[0], SortBy(rows[1..], key), key);
      InsertByKeeps(rows[0], SortBy(rows[1..], key), key);
      assert rows == [rows[0]] + rows[1..];
    }
  }

  lemma {:induction false} DistinctMultiset(rows: seq<Id>)
    ensures Distinct(rows) <==> forall id :: multiset(rows)[id] <= 1
    decreases |rows|
  {
    if rows != [] {
      var init, last := rows[..|rows| - 1], rows[|rows| - 1];
      assert rows == init + [last];
      DistinctMultiset(init);
      if Distinct(rows) {
        assert last !in init;
        assert last !in multiset(init);
      }
      if forall id :: multiset(rows)[id] <= 1 {
        assert forall id :: multiset(init)[id] <= multiset(rows)[id];
        assert last in init ==> multiset(rows)[last] >= 2;
      }
    }
  }

  /** Sorting a listing of a set gives a listing of it. */
  lemma SortByLists(rows: seq<Id>, ids: set<Id>, key: Id -> Time)
    requires Lists(rows, ids)
    ensures Lists(SortBy(rows, key), ids) && |SortBy(rows, key)| == |rows|
  {
    SortBySorts(rows, key);
    var sorted := SortBy(rows, key);
    assert forall id :: id in sorted <==> id in multiset(sorted);
    assert forall id :: id in rows <==> id in multiset(rows);
    DistinctMultiset(rows);
    DistinctMultiset(sorted);
    assert |multiset(sorted)| == |multiset(rows)|;
  }

  // ---- reserve, deliver, acknowledge ---------------------------------------------------------

  lemma {:induction false} ReserveRowsKeep(s: Scope, ids: seq<Id>, reservation: Id, now: Time, out: set<Id>)
    requires Between(s, out) && Distinct(ids) && reservation in s.reservations
    requires forall id :: id in ids ==> id in s.messages && s.messages[id].state in {Queued, Delivered} && s.messages[id].to == Address(s.reservations[reservation].agent)
    ensures Between(ReserveRows(s, ids, reservation, now), out) && Evolves(s, ReserveRows(s, ids, reservation, now))
    ensures Changes(s, ReserveRows(s, ids, reservation, now), ids, m => AsReserved(m, reservation))
    decreases |ids|
  {
    hide Between, Evolves, ReserveRow;
    EvolvesReflexive(s);
    if ids != [] {
      var init, last := ids[..|ids| - 1], ids[|ids| - 1];
      SplitLast(ids);
      ReserveRowsKeep(s, init, reservation, now, out);
      var t := ReserveRows(s, init, reservation, now);
      ReserveRowKeeps(t, last, reservation, now, out);
      ReserveRowChanges(t, last, reservation, now);
      ChangesStep(s, t, ReserveRow(t, last, reservation, now), init, last, m => AsReserved(m, reservation));
      HandedBetween(s, out);
      EvolvesTransitive(s, t, ReserveRow(t, last, reservation, now));
    }
  }

  lemma ReserveRowChanges(s: Scope, id: Id, reservation: Id, now: Time)
    requires id in s.messages
    ensures Sweeps(s, ReserveRow(s, id, reservation, now))
    ensures ReserveRow(s, id, reservation, now).messages == s.messages[id := AsReserved(s.messages[id], reservation)]
  {
  }

  lemma {:induction false} DeliverRowsKeep(s: Scope, ids: seq<Id>, now: Time, out: set<Id>)
    requires Between(s, out) && Distinct(ids)
    requires forall id :: id in ids ==> id in s.messages && s.messages[id].state == Reserved
    ensures Between(DeliverRows(s, ids, now), out) && Evolves(s, DeliverRows(s, ids, now))
    ensures Changes(s, DeliverRows(s, ids, now), ids, m => AsDelivered(m, now))
    decreases |ids|
  {
    hide Between, Evolves, DeliverRow;
    EvolvesReflexive(s);
    if ids != [] {
      var init, last := ids[..|ids| - 1], ids[|ids| - 1];
      SplitLast(ids);
      DeliverRowsKeep(s, init, now, out);
      var t := DeliverRows(s, init, now);
      DeliverRowKeeps(t, last, now, out);
      DeliverRowChanges(t, last, now);
      ChangesStep(s, t, DeliverRow(t, last, now), init, last, m => AsDelivered(m, now));
      HandedBetween(s, out);
      EvolvesTransitive(s, t, DeliverRow(t, last, now));
    }
  }

  lemma DeliverRowChanges(s: Scope, id: Id, now: Time)
    requires id in s.messages
    ensures Sweeps(s, DeliverRow(s, id, now))
    ensures DeliverRow(s, id, now).messages == s.messages[id := AsDelivered(s.messages[id], now)]
  {
    AdvanceFrame(s, id, Delivery, now);
  }

  /** The acknowledged rows of a sweep, whatever the clock read at each of them. */
  ghost predicate Acknowledges(s: Scope, t: Scope, ids: seq<Id>, agent: Id) {
    && Sweeps(s, t) && t.remoteTasks == s.remoteTasks
    && (forall id :: id in s.messages ==>
          if id in ids && Acknowledgeable(s, id, agent) then
            t.messages[id].acknowledgedAt.Some? && t.messages[id] == AsAcknowledged(s.messages[id], t.messages[id].acknowledgedAt.value)
          else t.messages[id] == s.messages[id])
  }

  lemma AcknowledgesNone(s: Scope, agent: Id)
    ensures Acknowledges(s, s, [], agent)
  {
  }

  lemma AcknowledgesStep(s: Scope, t: Scope, init: seq<Id>, last: Id, agent: Id, now: Time)
    requires Acknowledges(s, t, init, agent) && last !in init
    ensures Acknowledges(s, AcknowledgeRow(t, last, agent, now), init + [last], agent)
  {
    hide Append;
    var u, ids := AcknowledgeRow(t, last, agent, now), init + [last];
    if Acknowledgeable(t, last, agent) {
      assert u.messages == t.messages[last := AsAcknowledged(t.messages[last], now)];
      assert Acknowledgeable(s, last, agent);
    }
    forall id | id in s.messages && id != last ensures u.messages[id] == t.messages[id] && (id in ids <==> id in init) {
    }
  }

  lemma {:induction false} AcknowledgeRowsKeep(s: Scope, ids: seq<Id>, agent: Id, tick: nat, world: World, out: set<Id>)
    requires Between(s, out) && Distinct(ids)
    ensures Between(AcknowledgeRows(s, ids, agent, tick, world), out) && Evolves(s, AcknowledgeRows(s, ids, agent, tick, world))
    ensures Acknowledges(s, AcknowledgeRows(s, ids, agent, tick, world), ids, agent)
    decreases |ids|
  {
    hide Between, Evolves, AcknowledgeRow, Acknowledges;
    EvolvesReflexive(s);
    AcknowledgesNone(s, agent);
    if ids != [] {
      var init, last := ids[..|ids| - 1], ids[|ids| - 1];
      SplitLast(ids);
      AcknowledgeRowsKeep(s, init, agent, tick, world, out);
      var t := AcknowledgeRows(s, init, agent, tick, world);
      var now := world.tick(tick + |ids| - 1);
      AcknowledgeRowKeeps(t, last, agent, now, out);
      AcknowledgesStep(s, t, init, last, agent, now);
      HandedBetween(s, out);
      EvolvesTransitive(s, t, AcknowledgeRow(t, last, agent, now));
    }
  }
}
