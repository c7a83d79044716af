/** What pollers of the event log see along a whole run of a scope. */
module RunViews {
  import opened Model
  import opened Logs
  import opened Scopes
  import opened Invariants
  import opened Runs
  import opened Cursors

  /** The logs that a poller finds at chosen points of a run. */
  ghost function LogsAt(s: Scope, turns: seq<Turn>, points: seq<nat>): (logs: seq<Log>)
    requires forall i :: 0 <= i < |points| ==> points[i] <= |turns|
    ensures |logs| == |points|
    ensures forall i :: 0 <= i < |points| ==> logs[i] == Run(s, turns[..points[i]]).log
  {
    seq(|points|, i requires 0 <= i < |points| => Run(s, turns[..points[i]]).log)
  }

  ghost predicate InTurn(points: seq<nat>, last: nat) {
    && (forall i :: 0 <= i < |points| ==> points[i] <= last)
    && (forall i, j :: 0 <= i < j < |points| ==> points[i] <= points[j])
  }

  /** The history goes on as the acts write: nothing already written changes. */
  lemma {:induction false} ActsTell(log: Log, history: seq<Event>, acts: seq<LogAct>)
    requires Covers(log) && Bounded(log) && Faithful(log, history) && PlainActs(acts)
    ensures exists later :: history <= later && Faithful(Performed(log, acts), later)
    decreases |acts|
  {
    hide Covers, Bounded, Faithful, Plain, Perform, Recorded;
    if acts == [] {
      assert Faithful(Performed(log, acts), history);
    } else {
      var act := acts[0];
      PerformIsFaithful(log, history, act);
      PerformedRevision(log, history, act);
      ActsTell(Perform(log, act), Recorded(log, history, act), acts[1..]);
      var later :| Recorded(log, history, act) <= later && Faithful(Performed(Perform(log, act), acts[1..]), later);
      assert history <= later && Faithful(Performed(log, acts), later);
    }
  }

  lemma EvolvedTells(log: Log, later: Log, history: seq<Event>)
    requires Covers(log) && Bounded(log) && Faithful(log, history) && LogEvolved(log, later)
    ensures exists more :: history <= more && Faithful(later, more)
  {
    hide Covers, Bounded, Faithful, Performed;
    if later != log {
      var acts :| PlainActs(acts) && Performed(log, acts) == later;
      ActsTell(log, history, acts);
    }
  }

  /** Some history fits any log: what is retained is part of it. */
  lemma SomeHistory(log: Log)
    requires Covers(log)
    ensures exists history :: Faithful(log, history)
  {
    var history := seq(log.revision, i requires 0 <= i < log.revision => EventAt(log, i + 1));
    forall i | 0 <= i < |log.events| ensures Records(history, log.events[i]) {
      var e := log.events[i];
      assert e in log.events;
      assert 0 < e.revision <= log.revision;
      OnlyOne(log, e);
    }
    assert Faithful(log, history);
  }

  /** The retained event of a revision; any event stands for one that has been deleted. */
  ghost function EventAt(log: Log, revision: nat): (e: Event)
    ensures e.revision == revision
  {
    if exists e :: e in log.events && e.revision == revision then
      var e :| e in log.events && e.revision == revision;
      e
    else Event(revision, Pending(ScopeImported, ScopeSubject, Unstated), 0)
  }

  lemma OnlyOne(log: Log, e: Event)
    requires Covers(log) && e in log.events
    ensures EventAt(log, e.revision) == e
  {
    var other := EventAt(log, e.revision);
    var i :| 0 <= i < |log.events| && log.events[i] == e;
    var j :| 0 <= j < |log.events| && log.events[j] == other;
    OneRow(log.events, i, j);
  }

  lemma OneRow(events: seq<Event>, i: nat, j: nat)
    requires Ascending(events) && i < |events| && j < |events| && events[i].revision == events[j].revision
    ensures i == j
  {
  }

  lemma LogFacts(s: Scope)
    requires Inv(s)
    ensures Covers(s.log) && Bounded(s.log)
  {
  }

  lemma EvolvedLog(s: Scope, t: Scope)
    requires Evolves(s, t)
    ensures LogEvolved(s.log, t.log) && s.log.revision <= t.log.revision
  {
  }

  /** One history tells every point of a run. */
  ghost predicate Tells(s: Scope, turns: seq<Turn>, all: seq<Event>) {
    forall k :: 0 <= k <= |turns| ==> ToldAt(Run(s, turns[..k]).log, all)
  }

  ghost predicate ToldAt(log: Log, all: seq<Event>) {
    Covers(log) && log.revision <= |all| && Faithful(log, all[..log.revision])
  }

  lemma StillTold(log: Log, all: seq<Event>, more: seq<Event>)
    requires ToldAt(log, all) && all <= more
    ensures ToldAt(log, more)
  {
    hide Covers, Faithful;
    assert more[..log.revision] == all[..log.revision];
  }

  lemma NowTold(log: Log, all: seq<Event>)
    requires Covers(log) && Faithful(log, all)
    ensures ToldAt(log, all)
  {
    hide Covers;
    assert all[..log.revision] == all;
  }

  lemma {:induction false} RunTells(s: Scope, turns: seq<Turn>, history: seq<Event>)
    requires Inv(s) && Unfolds(s, turns) && Faithful(s.log, history)
    ensures exists all :: history <= all && Faithful(Run(s, turns).log, all) && Tells(s, turns, all)
    decreases |turns|
  {
    hide Inv, Evolves, Step, Possible, Faithful, Covers, Bounded, ToldAt, LogEvolved;
    if turns == [] {
      LogFacts(s);
      NowTold(s.log, history);
      assert turns[..0] == turns;
      assert Tells(s, turns, history);
    } else {
      var init, last := turns[..|turns| - 1], turns[|turns| - 1];
      RunTells(s, init, history);
      var all :| history <= all && Faithful(Run(s, init).log, all) && Tells(s, init, all);
      RunKeeps(s, init);
      LogFacts(Run(s, init));
      StepKeeps(Run(s, init), last);
      EvolvedLog(Run(s, init), Run(s, turns));
      EvolvedTells(Run(s, init).log, Run(s, turns).log, all);
      var more :| all <= more && Faithful(Run(s, turns).log, more);
      RunKeeps(s, turns);
      LogFacts(Run(s, turns));
      NowTold(Run(s, turns).log, more);
      forall k | 0 <= k <= |turns| ensures ToldAt(Run(s, turns[..k]).log, more) {
        if k < |turns| {
          assert turns[..k] == init[..k];
          StillTold(Run(s, turns[..k]).log, all, more);
        } else {
          assert turns[..k] == turns;
        }
      }
      assert Tells(s, turns, more);
    }
  }

  lemma RevisionsGrow(s: Scope, turns: seq<Turn>, i: nat, j: nat)
    requires Inv(s) && Unfolds(s, turns) && i <= j <= |turns|
    ensures Run(s, turns[..i]).log.revision <= Run(s, turns[..j]).log.revision
  {
    hide Inv, Evolves, Run, Unfolds;
    var init := turns[..j];
    assert init == turns[..i] + turns[i..j];
    assert turns == init + turns[j..];
    RunSplits(s, init, turns[j..]);
    LaterEvolves(s, turns[..i], turns[i..j]);
    EvolvedLog(Run(s, turns[..i]), Run(s, init));
  }

  /** Whatever points of a run a poller reads the log at, the logs it finds are views of one history:
      what WatchEvents promises of views holds of every run of the bus. */
  lemma RunLogsAreViews(s: Scope, turns: seq<Turn>, points: seq<nat>)
    requires Inv(s) && Unfolds(s, turns) && InTurn(points, |turns|)
    ensures exists all :: Views(LogsAt(s, turns, points), all)
  {
    hide Inv, Run, Unfolds, Faithful, Covers;
    LogFacts(s);
    SomeHistory(s.log);
    var history :| Faithful(s.log, history);
    RunTells(s, turns, history);
    var all :| history <= all && Faithful(Run(s, turns).log, all) && Tells(s, turns, all);
    var logs := LogsAt(s, turns, points);
    forall i | 0 <= i < |logs| ensures ToldAt(logs[i], all) {
      assert ToldAt(Run(s, turns[..points[i]]).log, all);
    }
    forall i, j | 0 <= i < j < |logs| ensures logs[i].revision <= logs[j].revision {
      RevisionsGrow(s, turns, points[i], points[j]);
    }
    assert Views(logs, all);
  }
}
