/** A statement that updates many rows at once does what updating them one after another does. */
module Statements {
  import opened Model
  import opened Logs
  import opened Scopes
  import opened RemoteWork
  import opened Invariants
  import opened Rows
  import opened Sweeps

  /** UPDATE ... over the listed rows. */
  function Updated(messages: map<Id, Message>, ids: seq<Id>, change: Message -> Message): map<Id, Message> {
    map id | id in messages :: if id in ids then change(messages[id]) else messages[id]
  }

  lemma ChangedIsUpdated(s: Scope, t: Scope, ids: seq<Id>, change: Message -> Message)
    requires Changes(s, t, ids, change)
    ensures t.messages == Updated(s.messages, ids, change)
  {
  }

  // ---- release -------------------------------------------------------------------------------

  lemma {:induction false} FreeRowsChange(s: Scope, ids: seq<Id>, now: Time)
    requires Distinct(ids) && forall id :: id in ids ==> id in s.messages
    ensures Changes(s, FreeRows(s, ids, now), ids, AsFreed)
    decreases |ids|
  {
    hide FreeRow;
    if ids != [] {
      var init, last := ids[..|ids| - 1], ids[|ids| - 1];
      SplitLast(ids);
      FreeRowsChange(s, init, now);
      var t := FreeRows(s, init, now);
      FreeRowChanges(t, last, now);
      ChangesStep(s, t, FreeRow(t, last, now), init, last, AsFreed);
    }
  }

  function Released(s: Scope, id: Id): Pending
    requires id in s.messages
  {
    Pending(MessageReleased, MessageSubject(id), MessageState(AsFreed(s.messages[id]).state))
  }

  /** One more released row is one more event, about the row as it was. */
  lemma FreeOneMore(s: Scope, ids: seq<Id>, i: nat, now: Time)
    requires i < |ids| && Distinct(ids) && forall id :: id in ids ==> id in s.messages
    ensures FreeRows(s, ids[..i + 1], now).log == Append(FreeRows(s, ids[..i], now).log, Released(s, ids[i]), now)
  {
    hide Append;
    var init := ids[..i];
    assert ids[..i + 1][..i] == init && ids[..i + 1] == init + [ids[i]];
    FreeRowsChange(s, init, now);
    assert ids[i] !in init;
  }

  /** Freeing rows one by one is one UPDATE and one event for each. */
  lemma FreeRowsBulk(s: Scope, ids: seq<Id>, now: Time)
    requires Distinct(ids) && forall id :: id in ids ==> id in s.messages
    ensures FreeRows(s, ids, now) == s.(messages := Updated(s.messages, ids, AsFreed), log := FreeRows(s, ids, now).log)
  {
    hide FreeRows;
    FreeRowsChange(s, ids, now);
    FreeOnly(s, ids, now);
    ChangedIsUpdated(s, FreeRows(s, ids, now), ids, AsFreed);
  }

  // ---- deliver -------------------------------------------------------------------------------

  lemma {:induction false} DeliverRowsChange(s: Scope, ids: seq<Id>, now: Time)
    requires Distinct(ids) && forall id :: id in ids ==> id in s.messages
    ensures Changes(s, DeliverRows(s, ids, now), ids, m => AsDelivered(m, now))
    decreases |ids|
  {
    hide DeliverRow;
    if ids != [] {
      var init, last := ids[..|ids| - 1], ids[|ids| - 1];
      SplitLast(ids);
      DeliverRowsChange(s, init, now);
      var t := DeliverRows(s, init, now);
      DeliverRowChanges(t, last, now);
      ChangesStep(s, t, DeliverRow(t, last, now), init, last, m => AsDelivered(m, now));
    }
  }

  lemma SetElsewhere(s: Scope, messages: map<Id, Message>, reservations: map<Id, Reservation>, task: Id, state: RemoteState, now: Time)
    requires task in s.remoteTasks
    ensures SetRemote(s.(messages := messages, reservations := reservations), task, state, now)
         == SetRemote(s, task, state, now).(messages := messages, reservations := reservations)
  {
    hide Append;
  }

  /** Moving a remote task along reads no message row and no reservation. */
  lemma AdvanceElsewhere(s: Scope, messages: map<Id, Message>, reservations: map<Id, Reservation>, id: Id, cause: Cause, now: Time)
    ensures AdvanceRemote(s.(messages := messages, reservations := reservations), id, cause, now)
         == AdvanceRemote(s, id, cause, now).(messages := messages, reservations := reservations)
  {
    hide SetRemote, NextRemote;
    if id in s.correlations && s.correlations[id].task in s.remoteTasks {
      var task := s.correlations[id].task;
      var next := NextRemote(cause, s.remoteTasks[task].state);
      if next.Some? {
        SetElsewhere(s, messages, reservations, task, next.value, now);
      }
    }
  }

  function DeliveredEvent(id: Id): Pending {
    Pending(MessageDelivered, MessageSubject(id), MessageState(Delivered))
  }

  /** One more delivered row moves its remote task along and adds one event. */
  lemma DeliverOneMore(s: Scope, ids: seq<Id>, i: nat, now: Time)
    requires i < |ids| && Distinct(ids) && forall id :: id in ids ==> id in s.messages
    ensures var t, u := DeliverRows(s, ids[..i], now), DeliverRows(s, ids[..i + 1], now);
            var v := if s.messages[ids[i]].from.kind.RemoteKind? then AdvanceRemote(t, ids[i], Delivery, now) else t;
            u == v.(messages := u.messages, log := Append(v.log, DeliveredEvent(ids[i]), now))
  {
    hide Append, AdvanceRemote;
    var init := ids[..i];
    assert ids[..i + 1][..i] == init && ids[..i + 1] == init + [ids[i]];
    DeliverRowsChange(s, init, now);
    assert ids[i] !in init;
    AdvanceFrame(DeliverRows(s, init, now), ids[i], Delivery, now);
  }

  lemma {:induction false} DeliverOnly(s: Scope, ids: seq<Id>, now: Time)
    ensures var t := DeliverRows(s, ids, now); t == s.(messages := t.messages, remoteTasks := t.remoteTasks, log := t.log)
    decreases |ids|
  {
    hide AdvanceRemote, Append;
    if ids != [] {
      var init, last := ids[..|ids| - 1], ids[|ids| - 1];
      DeliverOnly(s, init, now);
      AdvanceFrame(DeliverRows(s, init, now), last, Delivery, now);
    }
  }

  /** Delivering rows one by one is one UPDATE, and the remote moves and events in turn. */
  lemma DeliverRowsBulk(s: Scope, ids: seq<Id>, now: Time)
    requires Distinct(ids) && forall id :: id in ids ==> id in s.messages
    ensures DeliverRows(s, ids, now).messages == Updated(s.messages, ids, m => AsDelivered(m, now))
    ensures DeliverRows(s, ids, now).reservations == s.reservations
  {
    hide DeliverRows;
    DeliverRowsChange(s, ids, now);
    DeliverOnly(s, ids, now);
    ChangedIsUpdated(s, DeliverRows(s, ids, now), ids, m => AsDelivered(m, now));
  }

  // ---- reserve, expire, acknowledge ----------------------------------------------------------

  lemma {:induction false} ReserveRowsChange(s: Scope, ids: seq<Id>, reservation: Id, now: Time)
    requires Distinct(ids) && forall id :: id in ids ==> id in s.messages
    ensures Changes(s, ReserveRows(s, ids, reservation, now), ids, m => AsReserved(m, reservation))
    decreases |ids|
  {
    hide ReserveRow;
    if ids != [] {
      var init, last := ids[..|ids| - 1], ids[|ids| - 1];
      SplitLast(ids);
      ReserveRowsChange(s, init, reservation, now);
      var t := ReserveRows(s, init, reservation, now);
      ReserveRowChanges(t, last, reservation, now);
      ChangesStep(s, t, ReserveRow(t, last, reservation, now), init, last, m => AsReserved(m, reservation));
    }
  }

  /** A row that a loop has not reached yet is as it was. */
  lemma ReserveNext(s: Scope, ids: seq<Id>, i: nat, reservation: Id, now: Time)
    requires i < |ids| && Distinct(ids) && forall id :: id in ids ==> id in s.messages
    ensures var t := ReserveRows(s, ids[..i], reservation, now);
            && ids[i] in t.messages && t.messages[ids[i]] == s.messages[ids[i]]
            && ReserveRows(s, ids[..i + 1], reservation, now) == ReserveRow(t, ids[i], reservation, now)
  {
    hide ReserveRow;
    var init := ids[..i];
    assert ids[..i + 1][..i] == init && ids[..i + 1] == init + [ids[i]];
    ReserveRowsChange(s, init, reservation, now);
    assert ids[i] !in init;
  }

  lemma {:induction false} ExpireRowsChange(s: Scope, ids: seq<Id>, now: Time)
    requires Distinct(ids) && forall id :: id in ids ==> id in s.messages && Live(s.messages[id].state)
    ensures Changes(s, ExpireRows(s, ids, now), ids, AsExpired)
    decreases |ids|
  {
    hide ExpireRow;
    if ids != [] {
      var init, last := ids[..|ids| - 1], ids[|ids| - 1];
      SplitLast(ids);
      ExpireRowsChange(s, init, now);
      var t := ExpireRows(s, init, now);
      ExpireRowChanges(t, last, now);
      ChangesStep(s, t, ExpireRow(t, last, now), init, last, AsExpired);
    }
  }

  lemma ExpireNext(s: Scope, ids: seq<Id>, i: nat, now: Time)
    requires i < |ids| && Distinct(ids) && forall id :: id in ids ==> id in s.messages && Live(s.messages[id].state)
    ensures forall id :: id in ids[..i] ==> id in s.messages
    ensures forall id :: id in ids[..i + 1] ==> id in s.messages
    ensures var t := ExpireRows(s, ids[..i], now);
            && ids[i] in t.messages && t.messages[ids[i]] == s.messages[ids[i]]
            && ExpireRows(s, ids[..i + 1], now) == ExpireRow(t, ids[i], now)
  {
    hide ExpireRow;
    var init := ids[..i];
    assert ids[..i + 1][..i] == init && ids[..i + 1] == init + [ids[i]];
    ExpireRowsChange(s, init, now);
    assert ids[i] !in init;
  }

  lemma {:induction false} AcknowledgeRowsChange(s: Scope, ids: seq<Id>, agent: Id, tick: nat, world: World)
    requires Distinct(ids)
    ensures Acknowledges(s, AcknowledgeRows(s, ids, agent, tick, world), ids, agent)
    decreases |ids|
  {
    hide AcknowledgeRow, Acknowledges;
    AcknowledgesNone(s, agent);
    if ids != [] {
      var init, last := ids[..|ids| - 1], ids[|ids| - 1];
      SplitLast(ids);
      AcknowledgeRowsChange(s, init, agent, tick, world);
      AcknowledgesStep(s, AcknowledgeRows(s, init, agent, tick, world), init, last, agent, world.tick(tick + |ids| - 1));
    }
  }

  lemma AcknowledgeNext(s: Scope, ids: seq<Id>, i: nat, agent: Id, tick: nat, world: World)
    requires i < |ids| && Distinct(ids)
    ensures var t := AcknowledgeRows(s, ids[..i], agent, tick, world);
            && (Acknowledgeable(t, ids[i], agent) <==> Acknowledgeable(s, ids[i], agent))
            && AcknowledgeRows(s, ids[..i + 1], agent, tick, world) == AcknowledgeRow(t, ids[i], agent, world.tick(tick + i))
    ensures CountAcknowledged(s, ids[..i + 1], agent) == CountAcknowledged(s, ids[..i], agent) + if Acknowledgeable(s, ids[i], agent) then 1 else 0
  {
    hide AcknowledgeRow;
    var init := ids[..i];
    assert ids[..i + 1][..i] == init && ids[..i + 1] == init + [ids[i]];
    AcknowledgeRowsChange(s, init, agent, tick, world);
    assert ids[i] !in init;
  }

  // ---- other loops ---------------------------------------------------------------------------

  lemma ReleaseNext(s: Scope, ids: seq<Id>, i: nat, tick: nat, world: World)
    requires i < |ids|
    ensures var t := ReleaseEach(s, ids[..i], tick, world);
            ReleaseEach(s, ids[..i + 1], tick, world)
            == if ids[i] in t.reservations then Release(t, t.reservations[ids[i]].agent, ids[i], world.tick(tick + i), world) else t
  {
    hide Release;
    assert ids[..i + 1][..i] == ids[..i];
  }

  lemma ReopenNext(s: Scope, ids: seq<Id>, i: nat, now: Time)
    requires i < |ids|
    ensures var t := ReopenRows(s, ids[..i], now);
            ReopenRows(s, ids[..i + 1], now) == if ids[i] in t.tasks then ReopenRow(t, ids[i], now) else t
  {
    hide ReopenRow;
    assert ids[..i + 1][..i] == ids[..i];
  }

  lemma ReleaseAgentsNext(s: Scope, agents: seq<Id>, i: nat, tick: nat, world: World)
    requires i < |agents|
    ensures var t := ReleaseAgents(s, agents[..i], tick, world);
            ReleaseAgents(s, agents[..i + 1], tick, world) == ReleaseEach(t, world.order(ReservationsOf(t, agents[i])), tick, world)
  {
    hide ReleaseEach;
    assert agents[..i + 1][..i] == agents[..i];
  }

  lemma LinkEventsNext(s: Scope, agent: Id, peers: seq<Id>, i: nat)
    requires i < |peers|
    ensures var pair := OrderedPair(agent, peers[i]);
            LinkEvents(s, agent, peers[..i + 1])
            == LinkEvents(s, agent, peers[..i]) + if pair in s.links then [] else [Pending(LinkCreated, LinkSubject(pair.0, pair.1), Unstated)]
  {
    assert peers[..i + 1][..i] == peers[..i];
  }
}
