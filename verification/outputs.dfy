/** Output streams: retained history, the reader's cursor, and the publish rate (bus/output_streams.go). */
module Outputs {
  import opened Model

  const PUBLISH_RATE: nat := 120
  const READ_RATE: nat := 600

  /** A producer is an agent or a scoped credential. */
  datatype Producer = AgentProducer(id: Id) | PrincipalProducer(id: Id)
  datatype Value = Value(sequence: nat, producer: Producer, content: string, createdAt: Time)

  datatype Stream = Stream(retention: nat, sequence: nat, floor: nat, values: seq<Value>)

  // ---- the retained history ------------------------------------------------------------------

  function Above(values: seq<Value>, floor: nat): seq<Value> {
    if values == [] then [] else (if values[0].sequence > floor then [values[0]] else []) + Above(values[1..], floor)
  }

  /** Retained values are numbered exactly from the floor to the current sequence, and are at most the limit. */
  ghost predicate Retained(s: Stream) {
    && s.floor <= s.sequence && |s.values| == s.sequence - s.floor <= s.retention
    && (forall i :: 0 <= i < |s.values| ==> s.values[i].sequence == s.floor + 1 + i)
  }

  function Appended(s: Stream, producer: Producer, content: string, now: Time): Stream {
    var sequence := s.sequence + 1;
    var values := s.values + [Value(sequence, producer, content, now)];
    if sequence - s.retention > s.floor then Stream(s.retention, sequence, sequence - s.retention, Above(values, sequence - s.retention))
    else Stream(s.retention, sequence, s.floor, values)
  }

  lemma {:induction false} AboveTail(values: seq<Value>, first: nat, floor: nat)
    requires forall i :: 0 <= i < |values| ==> values[i].sequence == first + i
    requires first <= floor + 1 <= first + |values|
    ensures Above(values, floor) == values[floor + 1 - first..]
  {
    if values != [] {
      if first <= floor {
        AboveTail(values[1..], first + 1, floor);
      } else {
        AboveAll(values, floor);
      }
    }
  }

  lemma {:induction false} AboveAll(values: seq<Value>, floor: nat)
    requires forall i :: 0 <= i < |values| ==> values[i].sequence > floor
    ensures Above(values, floor) == values
  {
    if values != [] {
      AboveAll(values[1..], floor);
    }
  }

  /** Publishing keeps the numbering exact and the history within its limit. */
  lemma AppendRetains(s: Stream, producer: Producer, content: string, now: Time)
    requires Retained(s) && s.retention > 0
    ensures var t := Appended(s, producer, content, now);
            Retained(t) && t.sequence == s.sequence + 1 && t.floor >= s.floor && t.retention == s.retention
            && t.values[|t.values| - 1] == Value(t.sequence, producer, content, now)
  {
    var values := s.values + [Value(s.sequence + 1, producer, content, now)];
    if s.sequence + 1 - s.retention > s.floor {
      AboveTail(values, s.floor + 1, s.sequence + 1 - s.retention);
    }
  }

  // ---- the reader ----------------------------------------------------------------------------

  datatype Page = Page(values: seq<Value>, next: nat, current: nat, minimum: nat, resync: bool)

  function FirstValues(values: seq<Value>, limit: nat): seq<Value> {
    if limit < |values| then values[..limit] else values
  }

  /** bus/output_streams.go outputHistory. */
  function History(s: Stream, after: nat, limit: nat): Result<Page> {
    if after > s.sequence then Refused(InvalidArgument)
    else if after < s.floor then Ok(Page([], s.sequence, s.sequence, s.floor, true))
    else
      var rows := FirstValues(Above(s.values, after), limit);
      Ok(Page(rows, if rows == [] then after else rows[|rows| - 1].sequence, s.sequence, s.floor, false))
  }

  /** `all` lists every value ever published to the stream; what is retained is its end. */
  ghost predicate Tells(s: Stream, all: seq<Value>) {
    && |all| == s.sequence && s.floor <= s.sequence && s.values == all[s.floor..]
    && (forall i :: 0 <= i < |all| ==> all[i].sequence == i + 1)
  }

  lemma AppendTells(s: Stream, all: seq<Value>, producer: Producer, content: string, now: Time)
    requires Retained(s) && Tells(s, all) && s.retention > 0
    ensures Tells(Appended(s, producer, content, now), all + [Value(s.sequence + 1, producer, content, now)])
  {
    var longer := all + [Value(s.sequence + 1, producer, content, now)];
    var values := s.values + [Value(s.sequence + 1, producer, content, now)];
    assert values == longer[s.floor..];
    if s.sequence + 1 - s.retention > s.floor {
      AboveTail(values, s.floor + 1, s.sequence + 1 - s.retention);
      assert longer[s.floor..][s.sequence + 1 - s.retention - s.floor..] == longer[s.sequence + 1 - s.retention..];
    }
  }

  /** Where a page from `after` ends. */
  function NextAfter(current: nat, after: nat, limit: nat): nat {
    if current - after < limit then current else after + limit
  }

  /** What a query for the values above a cursor finds. */
  lemma RowsAbove(s: Stream, all: seq<Value>, after: nat)
    requires Retained(s) && Tells(s, all) && s.floor <= after <= s.sequence
    ensures Above(s.values, after) == all[after..]
  {
    AboveTail(s.values, s.floor + 1, after);
    assert all[s.floor..][after - s.floor..] == all[after..];
  }

  lemma PageOf(all: seq<Value>, after: nat, limit: nat)
    requires after <= |all|
    ensures after <= NextAfter(|all|, after, limit) <= |all|
    ensures FirstValues(all[after..], limit) == all[after..NextAfter(|all|, after, limit)]
  {
  }

  /** From any cursor at or above the floor a page is the next of what was published, each value once and in
      order; below the floor it asks for a resync, and beyond the current sequence it is refused. */
  lemma HistoryContract(s: Stream, all: seq<Value>, after: nat, limit: nat)
    requires Retained(s) && Tells(s, all)
    ensures History(s, after, limit).Refused? <==> after > s.sequence
    ensures after <= s.sequence ==> (History(s, after, limit).value.resync <==> after < s.floor)
    ensures s.floor <= after <= s.sequence ==>
              var next := NextAfter(s.sequence, after, limit);
              after <= next <= |all|
              && History(s, after, limit) == Ok(Page(all[after..next], next, s.sequence, s.floor, false))
  {
    hide Retained, Above, FirstValues;
    if s.floor <= after <= s.sequence {
      RowsAbove(s, all, after);
      PageOf(all, after, limit);
    }
  }

  /** What a reader sees of a growing stream: the stream at each of its reads. */
  ghost predicate Views(views: seq<Stream>, all: seq<Value>) {
    && (forall i :: 0 <= i < |views| ==> views[i].sequence <= |all| && Retained(views[i]) && Tells(views[i], all[..views[i].sequence]))
    && (forall i, j :: 0 <= i < j < |views| ==> views[i].sequence <= views[j].sequence)
  }

  /** The values a reader collects by following `next`, where it stops, and whether it was told to resync. */
  function Follow(views: seq<Stream>, after: nat, limit: nat): (seq<Value>, nat, bool)
    decreases |views|
  {
    if views == [] then ([], after, false) else
      match History(views[0], after, limit)
      case Refused(_) => ([], after, false)
      case Ok(page) =>
        if page.resync then ([], after, true) else
          var (values, cursor, resync) := Follow(views[1..], page.next, limit);
          (page.values + values, cursor, resync)
  }

  lemma ViewsTail(views: seq<Stream>, all: seq<Value>)
    requires Views(views, all) && views != []
    ensures Views(views[1..], all)
  {
    hide Retained, Tells;
  }

  lemma PrefixSlice(all: seq<Value>, n: nat, low: nat, high: nat)
    requires low <= high <= n <= |all|
    ensures all[..n][low..high] == all[low..high]
  {
  }

  lemma PageEnds(s: Stream, after: nat, limit: nat)
    requires Retained(s) && after <= s.sequence
    ensures after <= History(s, after, limit).value.next <= s.sequence
  {
    if after >= s.floor {
      AboveTail(s.values, s.floor + 1, after);
    }
  }

  /** The cursor with which a reader comes to the i-th view, if it is not stopped before. */
  function CursorAt(views: seq<Stream>, after: nat, limit: nat, i: nat): nat
    requires i <= |views|
  {
    Follow(views[..i], after, limit).1
  }

  /** Some read finds its cursor below the floor. */
  ghost predicate FallsBehind(views: seq<Stream>, after: nat, limit: nat) {
    exists i :: 0 <= i < |views| && CursorAt(views, after, limit, i) < views[i].floor
  }

  /** After a page that is no resync, the cursors are those of the rest of the reads. */
  lemma CursorMovesOn(views: seq<Stream>, after: nat, limit: nat, i: nat)
    requires 0 < i <= |views| && History(views[0], after, limit).Ok? && !History(views[0], after, limit).value.resync
    ensures CursorAt(views, after, limit, i) == CursorAt(views[1..], History(views[0], after, limit).value.next, limit, i - 1)
  {
    hide History;
    assert views[..i][0] == views[0] && views[..i][1..] == views[1..][..i - 1];
  }

  lemma FallsBehindLater(views: seq<Stream>, after: nat, limit: nat)
    requires views != [] && History(views[0], after, limit).Ok? && !History(views[0], after, limit).value.resync && after >= views[0].floor
    ensures FallsBehind(views, after, limit) <==> FallsBehind(views[1..], History(views[0], after, limit).value.next, limit)
  {
    hide History, CursorAt;
    var next := History(views[0], after, limit).value.next;
    assert CursorAt(views, after, limit, 0) == after by { CursorStarts(views, after, limit); }
    if i :| 0 <= i < |views| && CursorAt(views, after, limit, i) < views[i].floor {
      if i > 0 {
        CursorMovesOn(views, after, limit, i);
        assert CursorAt(views[1..], next, limit, i - 1) < views[1..][i - 1].floor;
      }
    }
    if i :| 0 <= i < |views[1..]| && CursorAt(views[1..], next, limit, i) < views[1..][i].floor {
      CursorMovesOn(views, after, limit, i + 1);
      assert CursorAt(views, after, limit, i + 1) < views[i + 1].floor;
    }
  }

  lemma CursorStarts(views: seq<Stream>, after: nat, limit: nat)
    ensures CursorAt(views, after, limit, 0) == after
  {
  }

  /** A reader that follows its cursor while values are published meanwhile collects each value after its
      cursor exactly once and in order, until it is told to resync; and that happens exactly when one of its
      reads finds its cursor below the floor. */
  lemma {:induction false} FollowReadsOnce(views: seq<Stream>, all: seq<Value>, after: nat, limit: nat)
    requires Views(views, all) && (views != [] ==> after <= views[0].sequence) && after <= |all|
    ensures var (values, cursor, resync) := Follow(views, after, limit);
            && after <= cursor <= |all| && values == all[after..cursor]
            && (resync <==> FallsBehind(views, after, limit))
    decreases |views|
  {
    hide History, Retained, Tells, NextAfter, FallsBehind, CursorAt;
    if views == [] {
      assert !FallsBehind([], after, limit) by { NothingBehind(after, limit); }
    } else {
      var s := views[0];
      assert |all[..s.sequence]| == s.sequence;
      HistoryContract(s, all[..s.sequence], after, limit);
      var page := History(s, after, limit).value;
      if !page.resync {
        PageEnds(s, after, limit);
        PrefixSlice(all, s.sequence, after, page.next);
        assert Views(views[1..], all) by { ViewsTail(views, all); }
        assert |views| > 1 ==> views[1..][0].sequence >= s.sequence;
        FollowReadsOnce(views[1..], all, page.next, limit);
        FallsBehindLater(views, after, limit);
        var (values, cursor, resync) := Follow(views[1..], page.next, limit);
        assert all[after..page.next] + all[page.next..cursor] == all[after..cursor];
      } else {
        BehindAtOnce(views, after, limit);
      }
    }
  }

  lemma NothingBehind(after: nat, limit: nat)
    ensures !FallsBehind([], after, limit)
  {
  }

  lemma BehindAtOnce(views: seq<Stream>, after: nat, limit: nat)
    requires views != [] && after < views[0].floor
    ensures FallsBehind(views, after, limit)
  {
    hide CursorAt;
    CursorStarts(views, after, limit);
    assert CursorAt(views, after, limit, 0) < views[0].floor;
  }

  // ---- runs of publishes ---------------------------------------------------------------------

  datatype Publication = Publication(producer: Producer, content: string, at: Time)

  /** The stream after a run of publishes. */
  function After(s: Stream, run: seq<Publication>): Stream {
    if run == [] then s else
      var last := run[|run| - 1];
      Appended(After(s, run[..|run| - 1]), last.producer, last.content, last.at)
  }

  /** Every value of the past, and every value that a run publishes after it. */
  function Everything(past: seq<Value>, run: seq<Publication>): seq<Value> {
    past + seq(|run|, i requires 0 <= i < |run| => Value(|past| + i + 1, run[i].producer, run[i].content, run[i].at))
  }

  lemma EverythingMore(past: seq<Value>, run: seq<Publication>)
    requires run != []
    ensures var last := run[|run| - 1];
            Everything(past, run) == Everything(past, run[..|run| - 1]) + [Value(|past| + |run|, last.producer, last.content, last.at)]
  {
  }

  /** A new stream has no past. */
  lemma NewStream(retention: nat)
    ensures Retained(Stream(retention, 0, 0, [])) && Tells(Stream(retention, 0, 0, []), [])
  {
  }

  /** Some past fits any stream, an imported one too: what is retained is its end. */
  lemma SomePast(s: Stream)
    requires Retained(s)
    ensures exists past :: Tells(s, past)
  {
    var lost := seq(s.floor, i requires 0 <= i < s.floor => Value(i + 1, AgentProducer(0), "", 0));
    assert Tells(s, lost + s.values);
  }

  lemma {:induction false} RunRetains(s: Stream, past: seq<Value>, run: seq<Publication>)
    requires s.retention > 0 && Retained(s) && Tells(s, past)
    ensures Retained(After(s, run)) && Tells(After(s, run), Everything(past, run)) && After(s, run).retention == s.retention
    ensures After(s, run).sequence == |past| + |run|
  {
    hide Retained, Tells, Appended, Everything;
    if run == [] {
      NothingPublished(s, past, run);
    } else {
      var init, last := run[..|run| - 1], run[|run| - 1];
      RunRetains(s, past, init);
      var t := After(s, init);
      AppendRetains(t, last.producer, last.content, last.at);
      AppendTells(t, Everything(past, init), last.producer, last.content, last.at);
      EverythingMore(past, run);
    }
  }

  lemma NothingPublished(s: Stream, past: seq<Value>, run: seq<Publication>)
    requires Tells(s, past) && run == []
    ensures Everything(past, run) == past && s.sequence == |past|
  {
  }

  /** What a reader sees that looks after the first `moments[0]`, then after the first `moments[1]`, … publishes. */
  function Seen(s: Stream, run: seq<Publication>, moments: seq<nat>): seq<Stream>
    requires forall i :: 0 <= i < |moments| ==> moments[i] <= |run|
  {
    seq(|moments|, i requires 0 <= i < |moments| => After(s, run[..moments[i]]))
  }

  ghost predicate InTurn(moments: seq<nat>, last: nat) {
    && (forall i :: 0 <= i < |moments| ==> moments[i] <= last)
    && (forall i, j :: 0 <= i < j < |moments| ==> moments[i] <= moments[j])
  }

  /** Whatever is published to a stream, and whenever a reader looks, it has views of one growing stream. */
  lemma PublishesGiveViews(s: Stream, past: seq<Value>, run: seq<Publication>, moments: seq<nat>)
    requires s.retention > 0 && Retained(s) && Tells(s, past) && InTurn(moments, |run|)
    ensures Views(Seen(s, run, moments), Everything(past, run))
    ensures forall i :: 0 <= i < |moments| ==> Seen(s, run, moments)[i].sequence == |past| + moments[i]
  {
    hide Retained, Tells, After;
    var views, all := Seen(s, run, moments), Everything(past, run);
    forall i | 0 <= i < |views|
      ensures views[i].sequence == |past| + moments[i] && Retained(views[i]) && Tells(views[i], all[..views[i].sequence]) {
      RunRetains(s, past, run[..moments[i]]);
      assert Everything(past, run[..moments[i]]) == all[..|past| + moments[i]];
    }
  }

  /** After any run of publishes to a new or an imported stream, and between them, a reader at any cursor reads each later
      value once and in order, and is told to resync exactly when its cursor has fallen below the floor. */
  lemma EveryReaderReadsOnce(s: Stream, past: seq<Value>, run: seq<Publication>, moments: seq<nat>, after: nat, limit: nat)
    requires s.retention > 0 && Retained(s) && Tells(s, past) && InTurn(moments, |run|)
    requires after <= |past| + if moments == [] then |run| else moments[0]
    ensures var views, all := Seen(s, run, moments), Everything(past, run);
            var (values, cursor, resync) := Follow(views, after, limit);
            && after <= cursor <= |all| && values == all[after..cursor]
            && (resync <==> FallsBehind(views, after, limit))
  {
    hide Views, Follow, FallsBehind, After, Retained, Tells;
    PublishesGiveViews(s, past, run, moments);
    FollowReadsOnce(Seen(s, run, moments), Everything(past, run), after, limit);
  }

  // ---- the rate ------------------------------------------------------------------------------

  /** What a producer has used of one window. */
  datatype Usage = Usage(publishes: nat, fetches: nat)
  datatype Slot = Slot(producer: Producer, window: Time)

  function Window(now: Time): (window: Time)
    ensures window <= now < window + 60_000 && window % 60_000 == 0
  {
    now - now % 60_000
  }

  /** Counts of windows before the previous one are dropped. */
  function Kept(quota: map<Slot, Usage>, now: Time): map<Slot, Usage> {
    map slot | slot in quota && slot.window >= Window(now) - 60_000 :: quota[slot]
  }

  function UsageOf(quota: map<Slot, Usage>, slot: Slot): Usage {
    if slot in quota then quota[slot] else Usage(0, 0)
  }

  /** bus/output_streams.go consumeOutputQuota. */
  function Consume(quota: map<Slot, Usage>, producer: Producer, publish: bool, now: Time): Result<map<Slot, Usage>> {
    var slot := Slot(producer, Window(now));
    var used := UsageOf(Kept(quota, now), slot);
    var more := if publish then used.(publishes := used.publishes + 1) else used.(fetches := used.fetches + 1);
    if (if publish then more.publishes > PUBLISH_RATE else more.fetches > READ_RATE) then Refused(Backpressure) else Ok(Kept(quota, now)[slot := more])
  }

  datatype Use = Use(producer: Producer, publish: bool, at: Time)

  /** The accepted publishes of a producer at times from `low` to `high`, both included. */
  function Publishes(uses: seq<Use>, producer: Producer, low: Time, high: Time): nat {
    if uses == [] then 0 else
      var last := uses[|uses| - 1];
      Publishes(uses[..|uses| - 1], producer, low, high) + if last.publish && last.producer == producer && low <= last.at <= high then 1 else 0
  }

  /** The accepted publishes of a producer in the window that starts at `window`. */
  function InWindow(uses: seq<Use>, producer: Producer, window: Time): nat {
    Publishes(uses, producer, window, window + 59_999)
  }

  /** Sixty seconds see no more publishes than the two windows they meet. */
  lemma {:induction false} PublishesSplit(uses: seq<Use>, producer: Producer, from: Time, window: Time)
    requires window <= from < window + 60_000
    ensures Publishes(uses, producer, from, from + 60_000) <= InWindow(uses, producer, window) + InWindow(uses, producer, window + 60_000)
  {
    if uses != [] {
      PublishesSplit(uses[..|uses| - 1], producer, from, window);
    }
  }

  lemma {:induction false} NoneLater(uses: seq<Use>, producer: Producer, low: Time, high: Time)
    requires forall i :: 0 <= i < |uses| ==> uses[i].at < low
    ensures Publishes(uses, producer, low, high) == 0
  {
    if uses != [] {
      NoneLater(uses[..|uses| - 1], producer, low, high);
    }
  }

  /** The counters agree with the accepted uses for every window that is still counted, and no window is over the rate. */
  ghost predicate Metered(quota: map<Slot, Usage>, uses: seq<Use>, last: Time) {
    && (forall i :: 0 <= i < |uses| ==> uses[i].at <= last)
    && (forall p, w: Time :: w % 60_000 == 0 ==> InWindow(uses, p, w) <= PUBLISH_RATE)
    && (forall p, w: Time :: w % 60_000 == 0 && w >= Window(last) - 60_000 ==> UsageOf(quota, Slot(p, w)).publishes == InWindow(uses, p, w))
  }

  lemma PublishesMore(uses: seq<Use>, use: Use, producer: Producer, low: Time, high: Time)
    ensures Publishes(uses + [use], producer, low, high)
         == Publishes(uses, producer, low, high) + if use.publish && use.producer == producer && low <= use.at <= high then 1 else 0
  {
    assert (uses + [use])[..|uses|] == uses;
  }

  lemma SameWindow(now: Time, w: Time)
    requires w % 60_000 == 0
    ensures w <= now <= w + 59_999 <==> w == Window(now)
  {
  }

  /** One more use counts in its own window alone. */
  lemma WindowMore(uses: seq<Use>, use: Use, producer: Producer, w: Time)
    requires w % 60_000 == 0
    ensures InWindow(uses + [use], producer, w)
         == InWindow(uses, producer, w) + if use.publish && use.producer == producer && w == Window(use.at) then 1 else 0
  {
    PublishesMore(uses, use, producer, w, w + 59_999);
    SameWindow(use.at, w);
  }

  /** A window that has not been counted since it became current has no uses yet. */
  lemma UsageNow(quota: map<Slot, Usage>, uses: seq<Use>, last: Time, now: Time, p: Producer, w: Time)
    requires Metered(quota, uses, last) && last <= now && w % 60_000 == 0 && w >= Window(now) - 60_000
    ensures UsageOf(Kept(quota, now), Slot(p, w)).publishes == InWindow(uses, p, w)
  {
    assert Window(last) <= Window(now) by {
      WindowsGrow(last, now);
    }
    assert UsageOf(Kept(quota, now), Slot(p, w)) == UsageOf(quota, Slot(p, w));
  }

  lemma WindowsGrow(a: Time, b: Time)
    requires a <= b
    ensures Window(a) <= Window(b)
  {
    assert Window(a) == 60_000 * (a / 60_000) && Window(b) == 60_000 * (b / 60_000);
  }

  lemma ConsumeMeters(quota: map<Slot, Usage>, uses: seq<Use>, last: Time, producer: Producer, publish: bool, now: Time)
    requires Metered(quota, uses, last) && last <= now && Consume(quota, producer, publish, now).Ok?
    ensures Metered(Consume(quota, producer, publish, now).value, uses + [Use(producer, publish, now)], now)
  {
    hide InWindow, Window;
    var use := Use(producer, publish, now);
    var after, more := Consume(quota, producer, publish, now).value, uses + [use];
    assert Window(now) % 60_000 == 0 by {
      WindowIsMultiple(now);
    }
    UsageNow(quota, uses, last, now, producer, Window(now));
    forall p, w: Time | w % 60_000 == 0 ensures InWindow(more, p, w) <= PUBLISH_RATE {
      WindowMore(uses, use, p, w);
    }
    forall p, w: Time | w % 60_000 == 0 && w >= Window(now) - 60_000 ensures UsageOf(after, Slot(p, w)).publishes == InWindow(more, p, w) {
      UsageNow(quota, uses, last, now, p, w);
      WindowMore(uses, use, p, w);
    }
  }

  lemma WindowIsMultiple(now: Time)
    ensures Window(now) % 60_000 == 0
  {
  }

  /** Any sixty seconds admit at most 240 publishes of one producer. */
  lemma SixtySeconds(quota: map<Slot, Usage>, uses: seq<Use>, last: Time, producer: Producer, from: Time)
    requires Metered(quota, uses, last)
    ensures Publishes(uses, producer, from, from + 60_000) <= 240
  {
    hide InWindow, Publishes;
    var w := Window(from);
    assert (w + 60_000) % 60_000 == 0;
    PublishesSplit(uses, producer, from, w);
    assert InWindow(uses, producer, w) <= PUBLISH_RATE && InWindow(uses, producer, w + 60_000) <= PUBLISH_RATE;
  }

  /** A run of attempts with a clock that never runs backwards: the accepted ones. */
  function Accepted(quota: map<Slot, Usage>, attempts: seq<Use>): (map<Slot, Usage>, seq<Use>)
    decreases |attempts|
  {
    if attempts == [] then (quota, []) else
      var (q, uses) := Accepted(quota, attempts[..|attempts| - 1]);
      var last := attempts[|attempts| - 1];
      match Consume(q, last.producer, last.publish, last.at)
      case Ok(after) => (after, uses + [last])
      case Refused(_) => (q, uses)
  }

  lemma {:induction false} RunsAreMetered(attempts: seq<Use>, last: Time)
    requires (forall i, j :: 0 <= i < j < |attempts| ==> attempts[i].at <= attempts[j].at) && forall i :: 0 <= i < |attempts| ==> attempts[i].at <= last
    ensures var (q, uses) := Accepted(map[], attempts); Metered(q, uses, last)
    decreases |attempts|
  {
    hide Consume, Publishes;
    if attempts == [] {
      NoneYet(last);
    } else {
      var init, use := attempts[..|attempts| - 1], attempts[|attempts| - 1];
      RunsAreMetered(init, use.at);
      var (q, uses) := Accepted(map[], init);
      if Consume(q, use.producer, use.publish, use.at).Ok? {
        ConsumeMeters(q, uses, use.at, use.producer, use.publish, use.at);
      }
      var (q', uses') := Accepted(map[], attempts);
      LaterMetered(q', uses', use.at, last);
    }
  }

  lemma NoneYet(last: Time)
    ensures Metered(map[], [], last)
  {
  }

  lemma LaterMetered(quota: map<Slot, Usage>, uses: seq<Use>, last: Time, later: Time)
    requires Metered(quota, uses, last) && last <= later
    ensures Metered(quota, uses, later)
  {
    hide InWindow;
    WindowsGrow(last, later);
  }

  /** In every run of publishes and reads, any sixty seconds admit at most 240 publishes of one producer. */
  lemma PublishRate(attempts: seq<Use>, producer: Producer, from: Time)
    requires forall i, j :: 0 <= i < j < |attempts| ==> attempts[i].at <= attempts[j].at
    ensures Publishes(Accepted(map[], attempts).1, producer, from, from + 60_000) <= 240
  {
    hide Accepted, Publishes;
    var last := if attempts == [] then 0 else attempts[|attempts| - 1].at;
    RunsAreMetered(attempts, last);
    SixtySeconds(Accepted(map[], attempts).0, Accepted(map[], attempts).1, last, producer, from);
  }

  // ---- the stream as the program updates it --------------------------------------------------

  class OutputStream {
    const retention: nat
    var sequence: nat
    var floor: nat
    var values: seq<Value>
    var quota: map<Slot, Usage>

    function State(): Stream
      reads this
    {
      Stream(retention, sequence, floor, values)
    }

    constructor (retention: nat)
      requires retention > 0
      ensures State() == Stream(retention, 0, 0, []) && Retained(State()) && Tells(State(), []) && quota == map[]
    {
      this.retention := retention;
      sequence, floor, values, quota := 0, 0, [], map[];
    }

    /** bus/output_streams.go PublishOutput, for an authorised producer. */
    method Publish(producer: Producer, content: string, now: Time) returns (result: Result<nat>)
      requires Retained(State()) && retention > 0
      modifies this
      ensures Retained(State())
      ensures var consumed := Consume(old(quota), producer, true, now);
              if consumed.Refused? then result == Refused(Backpressure) && State() == old(State()) && quota == old(quota)
              else result == Ok(sequence) && State() == Appended(old(State()), producer, content, now) && quota == consumed.value
    {
      AppendRetains(State(), producer, content, now);
      var consumed := Consume(quota, producer, true, now);
      if consumed.Refused? {
        return Refused(Backpressure);
      }
      quota := consumed.value;
      sequence := sequence + 1;
      values := values + [Value(sequence, producer, content, now)];
      if sequence - retention > floor {
        floor := sequence - retention;
        values := Above(values, floor);
      }
      result := Ok(sequence);
    }
  }
}
