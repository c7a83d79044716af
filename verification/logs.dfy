/** The event log of a scope: contiguous revisions, a retention floor and a bounded hosted history.
    bus/events.go and the event part of bus/storage.go. */
module Logs {
  import opened Model

  const CHUNK: nat := 128
  const HOSTED_HISTORY: nat := 100_000

  /** `events` lists the retained rows by revision. `hosted` says whether the scope is a hosted workspace. */
  datatype Log = Log(events: seq<Event>, revision: nat, floor: nat, hosted: bool)

  /** What a delete up to `floor` leaves: later revisions, and every import marker. */
  function Kept(events: seq<Event>, floor: nat): seq<Event> {
    if events == [] then []
    else if events[0].revision <= floor && !events[0].what.kind.ScopeImported? then Kept(events[1..], floor)
    else [events[0]] + Kept(events[1..], floor)
  }

  function Max(a: nat, b: nat): nat {
    if a < b then b else a
  }

  /** Rows for a batch that starts after `revision`. */
  function Numbered(revision: nat, batch: seq<Pending>, now: Time): (rows: seq<Event>)
    ensures |rows| == |batch|
    ensures forall i :: 0 <= i < |rows| ==> rows[i] == Event(revision + 1 + i, batch[i], now)
  {
    seq(|batch|, i requires 0 <= i < |batch| => Event(revision + 1 + i, batch[i], now))
  }

  /** A hosted log is trimmed when a batch takes its revision past a multiple of one hundred. */
  predicate Trims(log: Log, added: nat) {
    && log.hosted
    && log.revision + added > HOSTED_HISTORY
    && log.revision / 100 < (log.revision + added) / 100
  }

  function TrimFloor(revision: nat): (floor: nat)
    requires revision >= HOSTED_HISTORY
    ensures revision - 100_099 <= floor <= revision - HOSTED_HISTORY
  {
    revision / 100 * 100 - HOSTED_HISTORY
  }

  /** Up to where the insertion of `added` rows trims the log, if it does. */
  function TrimPoint(log: Log, added: nat): Option<nat> {
    if Trims(log, added) then Some(TrimFloor(log.revision + added)) else None
  }

  function Insert(log: Log, rows: seq<Event>, point: Option<nat>): Log {
    var revision := log.revision + |rows|;
    match point
    case None => log.(events := log.events + rows, revision := revision)
    case Some(floor) => log.(events := Kept(log.events + rows, floor), revision := revision, floor := Max(log.floor, floor))
  }

  /** One INSERT of a whole batch, and the trim that may follow it. */
  function AppendBatch(log: Log, batch: seq<Pending>, now: Time): Log {
    Insert(log, Numbered(log.revision, batch, now), TrimPoint(log, |batch|))
  }

  /** The simple form: one event at a time. */
  function Append(log: Log, what: Pending, now: Time): Log {
    AppendBatch(log, [what], now)
  }

  function AppendAll(log: Log, batch: seq<Pending>, now: Time): Log {
    if batch == [] then log else Append(AppendAll(log, batch[..|batch| - 1], now), batch[|batch| - 1], now)
  }

  // ---- the log's invariant -------------------------------------------------------------------

  /** The number of retained events that are not above the floor. They can only be import markers. */
  function Below(log: Log): int {
    |log.events| - (log.revision - log.floor)
  }

  /** Stored revisions cover (floor, revision] exactly; only import markers survive below. */
  ghost predicate Covers(log: Log) {
    && log.floor <= log.revision
    && 0 <= Below(log)
    && (forall i :: Below(log) <= i < |log.events| ==> log.events[i].revision == log.floor + 1 + i - Below(log))
    && (forall i :: 0 <= i < Below(log) ==> log.events[i].revision <= log.floor && log.events[i].what.kind.ScopeImported?)
    && Ascending(log.events)
    && (forall e :: e in log.events ==> WellFormed(e))
  }

  /** Revisions start at one, and import markers carry no state. */
  ghost predicate WellFormed(e: Event) {
    0 < e.revision && (e.what.kind.ScopeImported? ==> e.what.attribute.Unstated?)
  }

  ghost predicate Plain(batch: seq<Pending>) {
    forall p :: p in batch && p.kind.ScopeImported? ==> p.attribute.Unstated?
  }

  /** A hosted log keeps little more than its last hundred thousand events. */
  ghost predicate Bounded(log: Log) {
    log.hosted && log.revision > HOSTED_HISTORY ==> log.floor >= TrimFloor(log.revision)
  }

  ghost predicate Ascending(events: seq<Event>) {
    forall i, j :: 0 <= i < j < |events| ==> events[i].revision < events[j].revision
  }

  lemma HostedHistoryIsBounded(log: Log)
    requires Covers(log) && Bounded(log) && log.hosted
    ensures log.revision - log.floor <= 100_099
  {
  }

  // ---- deleting up to a floor ----------------------------------------------------------------

  lemma {:induction false} KeptConcat(a: seq<Event>, b: seq<Event>, floor: nat)
    ensures Kept(a + b, floor) == Kept(a, floor) + Kept(b, floor)
  {
    if a == [] {
      assert a + b == b;
    } else {
      assert (a + b)[1..] == a[1..] + b;
      KeptConcat(a[1..], b, floor);
    }
  }

  lemma {:induction false} KeptMembers(events: seq<Event>, floor: nat)
    ensures forall e :: e in Kept(events, floor) <==> e in events && (e.revision > floor || e.what.kind.ScopeImported?)
  {
    if events != [] {
      KeptMembers(events[1..], floor);
      assert forall e :: e in events <==> e == events[0] || e in events[1..];
    }
  }

  lemma {:induction false} KeptAll(events: seq<Event>, floor: nat)
    requires forall e :: e in events ==> e.revision > floor || e.what.kind.ScopeImported?
    ensures Kept(events, floor) == events
  {
    if events != [] {
      KeptAll(events[1..], floor);
    }
  }

  lemma {:induction false} KeptTwice(events: seq<Event>, low: nat, high: nat)
    requires low <= high
    ensures Kept(Kept(events, low), high) == Kept(events, high)
  {
    if events != [] {
      KeptTwice(events[1..], low, high);
      if events[0].revision <= low && !events[0].what.kind.ScopeImported? {
      } else {
        KeptConcat([events[0]], Kept(events[1..], low), high);
        KeptConcat([events[0]], events[1..], high);
        assert [events[0]] + events[1..] == events;
      }
    }
  }

  lemma {:induction false} KeptAscends(events: seq<Event>, floor: nat)
    requires Ascending(events)
    ensures Ascending(Kept(events, floor))
  {
    if events != [] {
      KeptAscends(events[1..], floor);
      KeptMembers(events[1..], floor);
      forall e | e in Kept(events[1..], floor) ensures events[0].revision < e.revision {
      }
    }
  }

  /** A delete up to a later floor keeps the rows above it and, of the rest, import markers only. */
  lemma KeptSplit(log: Log, floor: nat)
    requires Covers(log) && log.floor <= floor <= log.revision
    ensures var cut := Below(log) + floor - log.floor;
            0 <= cut <= |log.events| && Kept(log.events, floor) == Kept(log.events[..cut], floor) + log.events[cut..]
  {
    var cut := Below(log) + floor - log.floor;
    var a, b := log.events[..cut], log.events[cut..];
    assert log.events == a + b;
    KeptConcat(a, b, floor);
    KeptAll(b, floor);
  }

  lemma KeptMarkers(events: seq<Event>, floor: nat)
    requires forall i :: 0 <= i < |events| ==> events[i].revision <= floor
    ensures forall i :: 0 <= i < |Kept(events, floor)| ==> Kept(events, floor)[i].revision <= floor && Kept(events, floor)[i].what.kind.ScopeImported?
  {
    KeptMembers(events, floor);
    var kept := Kept(events, floor);
    forall i | 0 <= i < |kept| ensures kept[i].revision <= floor && kept[i].what.kind.ScopeImported? {
      assert kept[i] in kept;
    }
  }

  lemma KeptWellFormed(events: seq<Event>, floor: nat)
    requires forall e :: e in events ==> WellFormed(e)
    ensures forall e :: e in Kept(events, floor) ==> WellFormed(e)
  {
    KeptMembers(events, floor);
  }

  lemma BelowFloor(log: Log, floor: nat)
    requires Covers(log) && log.floor <= floor <= log.revision
    ensures forall i :: 0 <= i < Below(log) + floor - log.floor ==> log.events[i].revision <= floor
  {
  }

  lemma KeptCovers(log: Log, floor: nat)
    requires Covers(log) && log.floor <= floor <= log.revision
    ensures Covers(log.(events := Kept(log.events, floor), floor := floor))
  {
    hide Kept;
    var cut := Below(log) + floor - log.floor;
    KeptSplit(log, floor);
    KeptAscends(log.events, floor);
    BelowFloor(log, floor);
    KeptMarkers(log.events[..cut], floor);
    KeptWellFormed(log.events, floor);
  }

  /** `rows` continue the revisions of the log. */
  ghost predicate Continues(log: Log, rows: seq<Event>) {
    && (forall i :: 0 <= i < |rows| ==> rows[i].revision == log.revision + 1 + i)
    && (forall i :: 0 <= i < |rows| ==> WellFormed(rows[i]))
  }

  lemma LongerCovers(log: Log, rows: seq<Event>)
    requires Covers(log) && Continues(log, rows)
    ensures Covers(log.(events := log.events + rows, revision := log.revision + |rows|))
  {
    assert forall i :: 0 <= i < |log.events| ==> log.events[i].revision <= log.revision;
  }

  lemma InsertCovers(log: Log, rows: seq<Event>, point: Option<nat>)
    requires Covers(log) && Continues(log, rows)
    requires point.Some? ==> point.value <= log.revision + |rows|
    ensures Covers(Insert(log, rows, point))
  {
    LongerCovers(log, rows);
    if point.Some? {
      var longer := log.(events := log.events + rows, revision := log.revision + |rows|);
      if log.floor <= point.value {
        KeptCovers(longer, point.value);
      } else {
        NothingBelow(longer, point.value);
      }
    }
  }

  lemma NumberedContinues(log: Log, batch: seq<Pending>, now: Time)
    requires Plain(batch)
    ensures Continues(log, Numbered(log.revision, batch, now))
  {
    assert forall i :: 0 <= i < |batch| ==> batch[i] in batch;
  }

  lemma AppendBatchCovers(log: Log, batch: seq<Pending>, now: Time)
    requires Covers(log) && Plain(batch)
    ensures Covers(AppendBatch(log, batch, now))
  {
    NumberedContinues(log, batch, now);
    InsertCovers(log, Numbered(log.revision, batch, now), TrimPoint(log, |batch|));
  }

  lemma AppendBatchBounded(log: Log, batch: seq<Pending>, now: Time)
    requires Bounded(log)
    ensures Bounded(AppendBatch(log, batch, now))
    ensures AppendBatch(log, batch, now).floor >= log.floor
  {
  }

  /** Deleting up to a point that is not above the floor deletes nothing. */
  lemma NothingBelow(log: Log, point: nat)
    requires Covers(log) && point <= log.floor
    ensures Kept(log.events, point) == log.events
  {
    forall e | e in log.events ensures e.revision > point || e.what.kind.ScopeImported? {
      var i :| 0 <= i < |log.events| && log.events[i] == e;
      if i >= Below(log) {
        assert log.events[i].revision > log.floor;
      }
    }
    KeptAll(log.events, point);
  }

  // ---- the batched form refines the simple one -----------------------------------------------

  /** The deletes that run when one event follows a batch, against the delete that runs when both go in together. */
  ghost predicate Refines(first: Option<nat>, second: Option<nat>, both: Option<nat>) {
    match (first, second)
    case (None, None) => both == None || both == Some(0)
    case (None, Some(high)) => both == Some(high)
    case (Some(low), None) => both == Some(low)
    case (Some(low), Some(high)) => both == Some(high) && low <= high
  }

  lemma TrimPointsRefine(log: Log, added: nat)
    ensures Refines(TrimPoint(log, added), TrimPoint(log.(revision := log.revision + added), 1), TrimPoint(log, added + 1))
  {
  }

  lemma InsertStep(log: Log, rows: seq<Event>, last: seq<Event>, first: Option<nat>, second: Option<nat>, both: Option<nat>)
    requires forall e :: e in log.events + (rows + last) ==> e.revision > 0
    requires first.Some? ==> forall e :: e in last ==> e.revision > first.value
    requires Refines(first, second, both)
    ensures Insert(log, rows + last, both) == Insert(Insert(log, rows, first), last, second)
  {
    assert log.events + (rows + last) == log.events + rows + last;
    if first.Some? {
      TrimThenAppend(log.events + rows, last, first.value, if second.Some? then second.value else first.value);
    } else if second.None? && both.Some? {
      KeptAll(log.events + rows + last, 0);
    }
  }

  /** Deleting, then appending, then deleting again is appending and then deleting once. */
  lemma TrimThenAppend(before: seq<Event>, last: seq<Event>, low: nat, high: nat)
    requires low <= high && forall e :: e in last ==> e.revision > low
    ensures Kept(before, low) + last == Kept(before + last, low)
    ensures Kept(Kept(before, low) + last, high) == Kept(before + last, high)
  {
    KeptConcat(before, last, low);
    KeptAll(last, low);
    KeptTwice(before + last, low, high);
  }

  /** Appending one more event to a batch is appending it after the batch. */
  lemma AppendBatchStep(log: Log, batch: seq<Pending>, what: Pending, now: Time)
    requires Covers(log) && Plain(batch)
    ensures AppendBatch(log, batch + [what], now) == Append(AppendBatch(log, batch, now), what, now)
  {
    hide Covers, Plain, Insert, TrimPoint;
    var rows, last := Numbered(log.revision, batch, now), Numbered(log.revision + |batch|, [what], now);
    var first, second, both := TrimPoint(log, |batch|), TrimPoint(log.(revision := log.revision + |batch|), 1), TrimPoint(log, |batch| + 1);
    NumberedSplits(log.revision, batch, what, now);
    TrimPointsRefine(log, |batch|);
    PositiveRevisions(log, rows + last);
    FirstIsBefore(log, |batch|);
    InsertStep(log, rows, last, first, second, both);
    TrimPointAfter(log, rows, first);
  }

  lemma NumberedSplits(revision: nat, batch: seq<Pending>, what: Pending, now: Time)
    ensures Numbered(revision, batch + [what], now) == Numbered(revision, batch, now) + Numbered(revision + |batch|, [what], now)
  {
  }

  /** A batch never trims its own rows. */
  lemma FirstIsBefore(log: Log, added: nat)
    ensures TrimPoint(log, added).Some? ==> TrimPoint(log, added).value < log.revision + added
  {
  }

  lemma PositiveRevisions(log: Log, rows: seq<Event>)
    requires Covers(log) && forall i :: 0 <= i < |rows| ==> rows[i].revision > 0
    ensures forall e :: e in log.events + rows ==> e.revision > 0
  {
    assert forall e :: e in log.events ==> WellFormed(e);
  }

  lemma TrimPointAfter(log: Log, rows: seq<Event>, point: Option<nat>)
    ensures TrimPoint(Insert(log, rows, point), 1) == TrimPoint(log.(revision := log.revision + |rows|), 1)
    ensures Insert(log, rows, point).revision == log.revision + |rows|
  {
  }

  lemma {:induction false} AppendBatchIsAppendAll(log: Log, batch: seq<Pending>, now: Time)
    requires Covers(log) && Plain(batch)
    ensures AppendBatch(log, batch, now) == AppendAll(log, batch, now)
  {
    if batch == [] {
      assert log.events + [] == log.events;
    } else {
      var init, what := batch[..|batch| - 1], batch[|batch| - 1];
      assert init + [what] == batch;
      AppendBatchIsAppendAll(log, init, now);
      AppendBatchStep(log, init, what, now);
    }
  }

  lemma {:induction false} AppendAllConcat(log: Log, a: seq<Pending>, b: seq<Pending>, now: Time)
    ensures AppendAll(log, a + b, now) == AppendAll(AppendAll(log, a, now), b, now)
    decreases |b|
  {
    if b == [] {
      assert a + b == a;
    } else {
      var init := b[..|b| - 1];
      assert (a + b)[..|a + b| - 1] == a + init;
      AppendAllConcat(log, a, init, now);
    }
  }

  lemma {:induction false} AppendAllCovers(log: Log, batch: seq<Pending>, now: Time)
    requires Covers(log) && Bounded(log) && Plain(batch)
    ensures Covers(AppendAll(log, batch, now)) && Bounded(AppendAll(log, batch, now))
    ensures AppendAll(log, batch, now).floor >= log.floor
    ensures AppendAll(log, batch, now).revision == log.revision + |batch|
  {
    if batch != [] {
      var init := batch[..|batch| - 1];
      AppendAllCovers(log, init, now);
      AppendBatchCovers(AppendAll(log, init, now), [batch[|batch| - 1]], now);
      AppendBatchBounded(AppendAll(log, init, now), [batch[|batch| - 1]], now);
    }
  }

  // ---- what the log says about a row ---------------------------------------------------------

  /** The `state`/`status` attribute of the newest retained event about `subject` that carries one. */
  function Newest(events: seq<Event>, subject: Subject): Option<Attribute> {
    if events == [] then None else
      var last := events[|events| - 1].what;
      if last.subject == subject && !last.attribute.Unstated? then Some(last.attribute)
      else Newest(events[..|events| - 1], subject)
  }

  /** The log does not contradict `attribute` as the current state of `subject`. */
  ghost predicate Agrees(log: Log, subject: Subject, attribute: Attribute) {
    var newest := Newest(log.events, subject);
    newest == None || newest == Some(attribute)
  }

  lemma {:induction false} NewestOfMarkers(events: seq<Event>, floor: nat, subject: Subject)
    requires forall e :: e in events ==> WellFormed(e) && e.revision <= floor
    ensures Newest(Kept(events, floor), subject) == None
  {
    KeptMembers(events, floor);
    NoStateNoNewest(Kept(events, floor), subject);
  }

  lemma {:induction false} NoStateNoNewest(events: seq<Event>, subject: Subject)
    requires forall e :: e in events ==> e.what.attribute.Unstated?
    ensures Newest(events, subject) == None
  {
    if events != [] {
      NoStateNoNewest(events[..|events| - 1], subject);
    }
  }

  /** Deleting old events can silence the log about a row; it never makes it say something else. */
  lemma {:induction false} NewestKept(events: seq<Event>, floor: nat, subject: Subject)
    requires Ascending(events) && forall e :: e in events ==> WellFormed(e)
    ensures Newest(Kept(events, floor), subject) in {None, Newest(events, subject)}
  {
    if events != [] {
      hide Kept, Newest;
      var init, last := events[..|events| - 1], events[|events| - 1];
      assert events == init + [last];
      KeptMore(init, last, floor);
      NewestMore(init, last, subject);
      if last.revision > floor || last.what.kind.ScopeImported? {
        NewestMore(Kept(init, floor), last, subject);
        NewestKept(init, floor, subject);
      } else {
        EarlierIsLower(init, last);
        NewestOfMarkers(init, floor, subject);
      }
    }
  }

  lemma NewestMore(init: seq<Event>, last: Event, subject: Subject)
    ensures Newest(init + [last], subject)
         == if last.what.subject == subject && !last.what.attribute.Unstated? then Some(last.what.attribute) else Newest(init, subject)
  {
    assert (init + [last])[..|init|] == init;
  }

  lemma KeptMore(init: seq<Event>, last: Event, floor: nat)
    ensures Kept(init + [last], floor) == if last.revision > floor || last.what.kind.ScopeImported? then Kept(init, floor) + [last] else Kept(init, floor)
  {
    KeptConcat(init, [last], floor);
    assert Kept([last], floor) == if last.revision > floor || last.what.kind.ScopeImported? then [last] else [];
  }

  lemma EarlierIsLower(init: seq<Event>, last: Event)
    requires Ascending(init + [last])
    ensures forall e :: e in init ==> e.revision < last.revision
  {
    assert forall i :: 0 <= i < |init| ==> (init + [last])[i] == init[i];
    assert (init + [last])[|init|] == last;
  }

  /** A new event that states a row's new state settles agreement; one about anything else keeps it. */
  lemma AppendAgrees(log: Log, what: Pending, now: Time, subject: Subject, attribute: Attribute)
    requires Covers(log) && Plain([what])
    requires if what.subject == subject && !what.attribute.Unstated? then what.attribute == attribute else Agrees(log, subject, attribute)
    ensures Agrees(Append(log, what, now), subject, attribute)
  {
    hide Newest, Kept;
    var rows := Numbered(log.revision, [what], now);
    assert rows == [Event(log.revision + 1, what, now)];
    NewestMore(log.events, rows[0], subject);
    LongerAscends(log, what, now);
    if Trims(log, 1) {
      NewestKept(log.events + rows, TrimFloor(log.revision + 1), subject);
    }
  }

  lemma LongerAscends(log: Log, what: Pending, now: Time)
    requires Covers(log) && Plain([what])
    ensures var longer := log.events + Numbered(log.revision, [what], now);
            Ascending(longer) && forall e :: e in longer ==> WellFormed(e)
  {
    NumberedContinues(log, [what], now);
    LongerCovers(log, Numbered(log.revision, [what], now));
  }

  // ---- retention of the log ------------------------------------------------------------------

  /** The first retained revision that was written at or after `since`. */
  function FirstSince(events: seq<Event>, since: Time): (first: Option<nat>)
    ensures first.Some? ==> exists e :: e in events && e.revision == first.value
  {
    if events == [] then None
    else if events[0].createdAt >= since then Some(events[0].revision)
    else FirstSince(events[1..], since)
  }

  /** The floor a prune reaches for: just below the first event to keep, never below the present floor. */
  function PruneFloor(log: Log, before: Time): (floor: int)
  {
    var reach := match FirstSince(log.events, before) case Some(first) => first - 1 case None => log.revision;
    if reach < log.floor then log.floor else reach
  }

  function CountPruned(events: seq<Event>, floor: int): nat {
    if events == [] then 0 else
      (if events[0].revision <= floor && !events[0].what.kind.ScopeImported? then 1 else 0) + CountPruned(events[1..], floor)
  }

  function PruneLog(log: Log, before: Time): Log {
    var floor := PruneFloor(log, before);
    if CountPruned(log.events, floor) > 0 then
      log.(events := Kept(log.events, floor), floor := Max(log.floor, floor))
    else log
  }

  lemma PruneFloorInRange(log: Log, before: Time)
    requires Covers(log)
    ensures log.floor <= PruneFloor(log, before) <= log.revision
  {
    var first := FirstSince(log.events, before);
    if first.Some? {
      var e :| e in log.events && e.revision == first.value;
    }
  }

  /** Pruning keeps the coverage of the log and reports exactly how many events it removes. */
  lemma PruneLogCovers(log: Log, before: Time)
    requires Covers(log)
    ensures Covers(PruneLog(log, before)) && (Bounded(log) ==> Bounded(PruneLog(log, before)))
    ensures PruneLog(log, before).revision == log.revision && PruneLog(log, before).floor >= log.floor
    ensures |PruneLog(log, before).events| == |log.events| - CountPruned(log.events, PruneFloor(log, before))
  {
    PruneFloorInRange(log, before);
    KeptCovers(log, PruneFloor(log, before));
    KeptCount(log.events, PruneFloor(log, before));
  }

  lemma {:induction false} KeptCount(events: seq<Event>, floor: nat)
    ensures |Kept(events, floor)| == |events| - CountPruned(events, floor)
  {
    if events != [] {
      KeptCount(events[1..], floor);
    }
  }

  lemma PruneLogAgrees(log: Log, before: Time, subject: Subject, attribute: Attribute)
    requires Covers(log) && Agrees(log, subject, attribute)
    ensures Agrees(PruneLog(log, before), subject, attribute)
  {
    PruneFloorInRange(log, before);
    NewestKept(log.events, PruneFloor(log, before), subject);
  }

  // ---- whole histories of one log ------------------------------------------------------------

  /** What a transaction does to the log: it appends a batch, or prunes. */
  datatype LogAct = Writes(batch: seq<Pending>, now: Time) | Prunes(before: Time)

  function Perform(log: Log, act: LogAct): Log {
    match act
    case Writes(batch, now) => AppendBatch(log, batch, now)
    case Prunes(before) => PruneLog(log, before)
  }

  function Performed(log: Log, acts: seq<LogAct>): Log
    decreases |acts|
  {
    if acts == [] then log else Performed(Perform(log, acts[0]), acts[1..])
  }

  ghost predicate PlainActs(acts: seq<LogAct>) {
    forall act :: act in acts && act.Writes? ==> Plain(act.batch)
  }

  lemma {:induction false} PerformedConcat(log: Log, a: seq<LogAct>, b: seq<LogAct>)
    ensures Performed(log, a + b) == Performed(Performed(log, a), b)
    decreases |a|
  {
    if a == [] {
      assert a + b == b;
    } else {
      assert (a + b)[1..] == a[1..] + b;
      PerformedConcat(Perform(log, a[0]), a[1..], b);
    }
  }

  /** A later log is the earlier one after some appends and prunes, and neither counter has gone back. */
  ghost predicate LogEvolved(log: Log, later: Log) {
    || later == log
    || (log.revision <= later.revision && log.floor <= later.floor && exists acts :: PlainActs(acts) && Performed(log, acts) == later)
  }

  lemma LogEvolvesTransitive(a: Log, b: Log, c: Log)
    requires LogEvolved(a, b) && LogEvolved(b, c)
    ensures LogEvolved(a, c)
  {
    if a != b && b != c {
      var first :| PlainActs(first) && Performed(a, first) == b;
      var next :| PlainActs(next) && Performed(b, next) == c;
      PerformedConcat(a, first, next);
      assert PlainActs(first + next);
    }
  }

  lemma ActEvolves(log: Log, act: LogAct)
    requires log.revision <= Perform(log, act).revision && log.floor <= Perform(log, act).floor && (act.Writes? ==> Plain(act.batch))
    ensures LogEvolved(log, Perform(log, act))
  {
    hide Perform, Plain;
    var later := Perform(log, act);
    assert Performed(later, [act][1..]) == later;
    assert PlainActs([act]) && Performed(log, [act]) == later;
  }
}
