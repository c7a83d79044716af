/** Reading the event log from a cursor: the server's page (bus/events.go, Events) and the client's
    loop (bus/client.go, WatchEvents), against any interleaving of appends and prunes. */
module Cursors {
  import opened Model
  import opened Logs

  datatype Page = Page(events: seq<Event>, next: nat, current: nat, minimum: nat, resync: bool)

  function After(events: seq<Event>, cursor: nat): seq<Event> {
    if events == [] then []
    else (if events[0].revision > cursor then [events[0]] else []) + After(events[1..], cursor)
  }

  function Take<T>(rows: seq<T>, limit: nat): seq<T> {
    if limit < |rows| then rows[..limit] else rows
  }

  function ReadPage(log: Log, cursor: nat, limit: nat): Result<Page> {
    if cursor > log.revision then Refused(InvalidArgument)
    else if cursor < log.floor then Ok(Page([], log.revision, log.revision, log.floor, true))
    else
      var rows := Take(After(log.events, cursor), limit);
      Ok(Page(rows, if rows == [] then cursor else rows[|rows| - 1].revision, log.revision, log.floor, false))
  }

  // ---- what was ever written -----------------------------------------------------------------

  /** `history` lists every event ever appended; each retained row is one of them, unaltered. */
  ghost predicate Faithful(log: Log, history: seq<Event>) {
    && |history| == log.revision
    && (forall i :: 0 <= i < |history| ==> history[i].revision == i + 1)
    && (forall i :: 0 <= i < |log.events| ==> Records(history, log.events[i]))
  }

  ghost predicate Records(history: seq<Event>, e: Event) {
    0 < e.revision <= |history| && history[e.revision - 1] == e
  }

  lemma {:induction false} AfterSplit(low: seq<Event>, high: seq<Event>, cursor: nat)
    requires forall e :: e in low ==> e.revision <= cursor
    requires forall e :: e in high ==> e.revision > cursor
    ensures After(low + high, cursor) == high
  {
    if low != [] {
      assert (low + high)[1..] == low[1..] + high;
      AfterSplit(low[1..], high, cursor);
    } else {
      assert low + high == high;
      if high != [] {
        assert [] + high[1..] == high[1..];
        AfterSplit([], high[1..], cursor);
      }
    }
  }

  /** The retained rows above a cursor are the tail of the history. */
  lemma TailIsHistory(log: Log, history: seq<Event>, cursor: nat)
    requires Covers(log) && Faithful(log, history) && log.floor <= cursor <= log.revision
    ensures log.events[Below(log) + cursor - log.floor..] == history[cursor..]
  {
    var cut := Below(log) + cursor - log.floor;
    forall j | cut <= j < |log.events| ensures log.events[j] == history[cursor + j - cut] {
      assert Records(history, log.events[j]);
    }
  }

  lemma AfterIsHistory(log: Log, history: seq<Event>, cursor: nat)
    requires Covers(log) && Faithful(log, history) && log.floor <= cursor <= log.revision
    ensures After(log.events, cursor) == history[cursor..]
  {
    hide Covers, Below;
    CutAt(log, cursor);
    var cut := Below(log) + cursor - log.floor;
    TailIsHistory(log, history, cursor);
    AfterSplit(log.events[..cut], log.events[cut..], cursor);
    assert log.events == log.events[..cut] + log.events[cut..];
  }

  /** Where the retained rows pass a cursor. */
  lemma CutAt(log: Log, cursor: nat)
    requires Covers(log) && log.floor <= cursor <= log.revision
    ensures var cut := Below(log) + cursor - log.floor;
            && 0 <= cut <= |log.events|
            && (forall e :: e in log.events[..cut] ==> e.revision <= cursor) && (forall e :: e in log.events[cut..] ==> e.revision > cursor)
  {
  }

  lemma TakeOfTail(history: seq<Event>, cursor: nat, limit: nat)
    requires cursor <= |history|
    ensures var next := if |history| - cursor < limit then |history| else cursor + limit;
            Take(history[cursor..], limit) == history[cursor..next]
  {
    var next := if |history| - cursor < limit then |history| else cursor + limit;
    if limit < |history| - cursor {
      assert history[cursor..][..limit] == history[cursor..next];
    } else {
      assert history[cursor..] == history[cursor..next];
    }
  }

  lemma LastRevision(history: seq<Event>, cursor: nat, next: nat)
    requires cursor < next <= |history| && forall i :: 0 <= i < |history| ==> history[i].revision == i + 1
    ensures history[cursor..next][next - cursor - 1].revision == next
  {
  }

  /** The cursor contract of one page: from any cursor at or above the floor, the next events of the
      history, each once and in order, and as many as the limit allows. */
  lemma PageIsNext(log: Log, history: seq<Event>, cursor: nat, limit: nat)
    requires Covers(log) && Faithful(log, history) && log.floor <= cursor <= log.revision
    ensures var next := if log.revision - cursor < limit then log.revision else cursor + limit;
            ReadPage(log, cursor, limit) == Ok(Page(history[cursor..next], next, log.revision, log.floor, false))
  {
    hide Covers, After, Take, Records;
    AfterIsHistory(log, history, cursor);
    TakeOfTail(history, cursor, limit);
    var next := if log.revision - cursor < limit then log.revision else cursor + limit;
    if cursor < next {
      LastRevision(history, cursor, next);
    }
  }

  // ---- the reader against every interleaving -------------------------------------------------

  ghost function Recorded(log: Log, history: seq<Event>, act: LogAct): seq<Event> {
    match act
    case Writes(batch, now) => history + Numbered(log.revision, batch, now)
    case Prunes(_) => history
  }

  lemma WriteIsFaithful(log: Log, history: seq<Event>, batch: seq<Pending>, now: Time)
    requires Faithful(log, history)
    ensures Faithful(AppendBatch(log, batch, now), history + Numbered(log.revision, batch, now))
  {
    var rows, point := Numbered(log.revision, batch, now), TrimPoint(log, |batch|);
    var longer, after := log.events + rows, AppendBatch(log, batch, now);
    if point.Some? {
      KeptMembers(longer, point.value);
    }
    forall i | 0 <= i < |after.events| ensures Records(history + rows, after.events[i]) {
      var e := after.events[i];
      assert e in longer;
      if e in log.events {
        assert Records(history, e);
      }
    }
  }

  lemma PruneIsFaithful(log: Log, history: seq<Event>, before: Time)
    requires Covers(log) && Faithful(log, history)
    ensures Faithful(PruneLog(log, before), history)
  {
    PruneFloorInRange(log, before);
    KeptMembers(log.events, PruneFloor(log, before));
    var events := PruneLog(log, before).events;
    forall i | 0 <= i < |events| ensures Records(history, events[i]) {
      assert events[i] in log.events;
    }
  }

  lemma PerformIsFaithful(log: Log, history: seq<Event>, act: LogAct)
    requires Covers(log) && Bounded(log) && Faithful(log, history)
    requires act.Writes? ==> Plain(act.batch)
    ensures Covers(Perform(log, act)) && Bounded(Perform(log, act))
    ensures Faithful(Perform(log, act), Recorded(log, history, act))
    ensures log.floor <= Perform(log, act).floor
  {
    match act
    case Writes(batch, now) =>
      AppendBatchCovers(log, batch, now);
      AppendBatchBounded(log, batch, now);
      WriteIsFaithful(log, history, batch, now);
    case Prunes(before) =>
      PruneLogCovers(log, before);
      PruneIsFaithful(log, history, before);
  }

  /** What a poller can see: the log at each poll, while others append and prune in between. */
  ghost predicate Views(views: seq<Log>, history: seq<Event>) {
    && (forall i :: 0 <= i < |views| ==> views[i].revision <= |history| && Covers(views[i]) && Faithful(views[i], history[..views[i].revision]))
    && (forall i, j :: 0 <= i < j < |views| ==> views[i].revision <= views[j].revision)
  }

  /** The logs after each act of a run. */
  function Snapshots(log: Log, acts: seq<LogAct>): (logs: seq<Log>)
    ensures |logs| == |acts|
    decreases |acts|
  {
    if acts == [] then [] else
      var log' := Perform(log, acts[0]);
      [log'] + Snapshots(log', acts[1..])
  }

  ghost function Chronicle(log: Log, history: seq<Event>, acts: seq<LogAct>): seq<Event>
    decreases |acts|
  {
    if acts == [] then history else Chronicle(Perform(log, acts[0]), Recorded(log, history, acts[0]), acts[1..])
  }

  lemma PerformedRevision(log: Log, history: seq<Event>, act: LogAct)
    requires Covers(log) && Faithful(log, history)
    ensures log.revision <= Perform(log, act).revision && |history| == log.revision && |Recorded(log, history, act)| == Perform(log, act).revision
    ensures history <= Recorded(log, history, act)
  {
  }

  /** Every run of appends and prunes gives its pollers views of one growing history. */
  lemma {:induction false} RunsGiveViews(log: Log, history: seq<Event>, acts: seq<LogAct>)
    requires Covers(log) && Bounded(log) && Faithful(log, history)
    requires forall act :: act in acts && act.Writes? ==> Plain(act.batch)
    ensures Views(Snapshots(log, acts), Chronicle(log, history, acts))
    ensures history <= Chronicle(log, history, acts)
    ensures forall i :: 0 <= i < |acts| ==> log.revision <= Snapshots(log, acts)[i].revision
    decreases |acts|
  {
    hide Perform, Covers, Bounded, Faithful, Plain;
    if acts != [] {
      var log', history' := Perform(log, acts[0]), Recorded(log, history, acts[0]);
      PerformIsFaithful(log, history, acts[0]);
      PerformedRevision(log, history, acts[0]);
      RunsGiveViews(log', history', acts[1..]);
      var all := Chronicle(log, history, acts);
      assert all[..log'.revision] == history';
    }
  }

  lemma OnlyTheFutureIsRefused(log: Log, cursor: nat, limit: nat)
    ensures ReadPage(log, cursor, limit).Refused? <==> cursor > log.revision
  {
  }

  lemma FirstView(views: seq<Log>, history: seq<Event>)
    requires Views(views, history) && views != []
    ensures forall i :: 0 <= i < |views| ==> views[0].revision <= views[i].revision <= |history|
  {
  }

  /** One poll of a view, in terms of the history. */
  lemma PollsHistory(views: seq<Log>, history: seq<Event>, i: nat, cursor: nat, limit: nat)
    requires Views(views, history) && i < |views| && cursor <= views[i].revision
    ensures views[i].revision <= |history|
    ensures ReadPage(views[i], cursor, limit).Ok?
    ensures var page := ReadPage(views[i], cursor, limit).value;
            if cursor < views[i].floor then page.resync && page.events == []
            else
              && !page.resync
              && page.next == (if views[i].revision - cursor < limit then views[i].revision else cursor + limit)
              && page.events == history[cursor..page.next]
  {
    hide Covers, Faithful;
    var view := views[i];
    if cursor >= view.floor {
      PageIsNext(view, history[..view.revision], cursor, limit);
      var page := ReadPage(view, cursor, limit).value;
      assert history[..view.revision][cursor..page.next] == history[cursor..page.next];
    }
  }

  function Events(pages: seq<Page>): seq<Event> {
    if pages == [] then [] else Events(pages[..|pages| - 1]) + pages[|pages| - 1].events
  }

  lemma EventsThen(pages: seq<Page>, page: Page)
    ensures Events(pages + [page]) == Events(pages) + page.events
    ensures (pages + [page])[..|pages|] == pages
  {
    assert (pages + [page])[..|pages|] == pages;
  }

  /** Where the client stands after some polls: it has yielded the history up to its cursor. */
  ghost predicate Watching(start: nat, views: seq<Log>, history: seq<Event>, yielded: seq<Page>, cursor: nat, polls: nat)
    requires views != []
  {
    && polls <= |views| && start <= cursor <= |history|
    && (if polls == 0 then cursor == start else cursor <= views[polls - 1].revision)
    && Events(yielded) == history[start..cursor]
    && (forall i :: 0 <= i < |yielded| ==> !yielded[i].resync)
    && (polls > 0 ==> cursor >= views[0].revision || cursor >= start + polls)
  }

  lemma WatchStarts(start: nat, views: seq<Log>, history: seq<Event>)
    requires Views(views, history) && views != [] && start <= views[0].revision
    ensures Watching(start, views, history, [], start, 0)
  {
    FirstView(views, history);
  }

  lemma WatchPolls(start: nat, views: seq<Log>, history: seq<Event>, yielded: seq<Page>, cursor: nat, polls: nat, limit: nat)
    requires limit > 0 && Views(views, history) && polls < |views| && start <= views[0].revision
    requires Watching(start, views, history, yielded, cursor, polls)
    ensures cursor <= views[polls].revision && ReadPage(views[polls], cursor, limit).Ok?
    ensures var page := ReadPage(views[polls], cursor, limit).value;
            && (page.resync <==> cursor < views[polls].floor) && (page.resync ==> page.events == [])
            && (!page.resync ==> Watching(start, views, history, if page.events != [] then yielded + [page] else yielded, page.next, polls + 1))
  {
    hide ReadPage, Faithful, Covers;
    FirstView(views, history);
    PollsHistory(views, history, polls, cursor, limit);
    var page := ReadPage(views[polls], cursor, limit).value;
    EventsThen(yielded, page);
    if !page.resync {
      assert history[start..cursor] + history[cursor..page.next] == history[start..page.next];
    }
  }

  /** The cursor of the i-th poll, if none before it asks for a resync. */
  function CursorAt(views: seq<Log>, start: nat, limit: nat, i: nat): nat
    requires i <= |views|
  {
    if i == 0 then start else
      var cursor := CursorAt(views, start, limit, i - 1);
      var page := ReadPage(views[i - 1], cursor, limit);
      if page.Ok? then page.value.next else cursor
  }

  /** Some poll finds its cursor below the floor. */
  ghost predicate FallsBehind(views: seq<Log>, start: nat, limit: nat) {
    exists i :: 0 <= i < |views| && CursorAt(views, start, limit, i) < views[i].floor
  }

  /** No poll so far has found its cursor below the floor. */
  ghost predicate OnTrack(views: seq<Log>, start: nat, limit: nat, cursor: nat, polls: nat) {
    && polls <= |views| && cursor == CursorAt(views, start, limit, polls)
    && forall i :: 0 <= i < polls ==> CursorAt(views, start, limit, i) >= views[i].floor
  }

  lemma StartsOnTrack(views: seq<Log>, start: nat, limit: nat)
    ensures OnTrack(views, start, limit, start, 0)
    ensures views == [] ==> !FallsBehind(views, start, limit)
  {
  }

  lemma StaysOnTrack(views: seq<Log>, start: nat, limit: nat, cursor: nat, polls: nat)
    requires OnTrack(views, start, limit, cursor, polls) && polls < |views|
    ensures cursor == CursorAt(views, start, limit, polls)
    ensures cursor < views[polls].floor ==> FallsBehind(views, start, limit)
    ensures cursor >= views[polls].floor && ReadPage(views[polls], cursor, limit).Ok? ==>
              OnTrack(views, start, limit, ReadPage(views[polls], cursor, limit).value.next, polls + 1)
  {
    hide ReadPage;
  }

  lemma NeverBehind(views: seq<Log>, start: nat, limit: nat, cursor: nat)
    requires OnTrack(views, start, limit, cursor, |views|)
    ensures !FallsBehind(views, start, limit)
  {
    hide CursorAt;
  }

  /** The client's loop over successive polls. It yields every event after its cursor exactly once and
      in order, whatever is appended or pruned meanwhile, stops for a resync exactly when a poll finds its
      cursor below the floor, and fails exactly when it starts beyond the current revision. */
  method WatchEvents(start: nat, limit: nat, views: seq<Log>, ghost history: seq<Event>)
    returns (yielded: seq<Page>, cursor: nat, polls: nat, resync: bool, failed: bool)
    requires limit > 0 && Views(views, history)
    ensures polls <= |views|
    ensures failed == (views != [] && start > views[0].revision)
    ensures failed || views == [] ==> yielded == [] && cursor == start && !resync
    ensures !failed && views != [] ==> start <= cursor <= |history|
    ensures !failed && views != [] && !resync ==> polls == |views| && Events(yielded) == history[start..cursor]
    ensures !failed ==> (resync <==> FallsBehind(views, start, limit))
    ensures resync ==> 0 < polls && cursor == CursorAt(views, start, limit, polls - 1) < views[polls - 1].floor
    ensures resync ==> yielded != [] && yielded[|yielded| - 1].resync && Events(yielded[..|yielded| - 1]) == history[start..cursor]
    ensures forall i :: 0 <= i < |yielded| ==> yielded[i].resync == (resync && i == |yielded| - 1)
    ensures !failed && !resync && views != [] && views[0].revision - start <= |views| ==> cursor >= views[0].revision
  {
    hide ReadPage, Views, Events, OnTrack, FallsBehind, CursorAt;
    yielded, cursor, polls, resync := [], start, 0, false;
    failed := false;
    StartsOnTrack(views, start, limit);
    if views == [] {
      return;
    }
    failed := ReadPage(views[0], start, limit).Refused?;
    OnlyTheFutureIsRefused(views[0], start, limit);
    if failed {
      return;
    }
    WatchStarts(start, views, history);
    while polls < |views|
      invariant !resync && Watching(start, views, history, yielded, cursor, polls)
      invariant OnTrack(views, start, limit, cursor, polls)
    {
      StaysOnTrack(views, start, limit, cursor, polls);
      WatchPolls(start, views, history, yielded, cursor, polls, limit);
      var page := ReadPage(views[polls], cursor, limit).value;
      polls := polls + 1;
      if page.resync {
        assert (yielded + [page])[..|yielded|] == yielded;
        yielded, resync := yielded + [page], true;
        return;
      }
      cursor := page.next;
      if page.events != [] {
        yielded := yielded + [page];
      }
    }
    NeverBehind(views, start, limit, cursor);
  }
}
