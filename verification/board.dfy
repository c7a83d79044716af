/** Writes to the task board, and what the board's invariant means for everyone who waits on it. */
module BoardSteps {
  import opened Model
  import opened Logs
  import opened Scopes
  import opened RemoteWork
  import opened Invariants
  import opened Rows
  import opened Sweeps

  // ---- the dependency graph ------------------------------------------------------------------

  /** A task row may change while its dependencies stay; it may leave `open` only when they are done. */
  lemma BoardMoves(tasks: map<Id, Task>, id: Id, row: Task)
    requires Board(tasks) && id in tasks && TaskEvolved(tasks[id], row)
    requires row.status != Open ==> forall d :: d in row.dependencies ==> d in tasks && tasks[d].status == Done
    ensures Board(tasks[id := row])
  {
    var after := tasks[id := row];
    var rank: map<Id, nat> :| Ranks(rank, tasks);
    assert Ranks(rank, after);
    forall x | x in after ensures Resolved(after, x) {
      assert Resolved(tasks, x);
    }
  }

  /** A rank for a new task: above all of its dependencies. */
  function Above(rank: map<Id, nat>, dependencies: seq<Id>): (n: nat)
    ensures forall d :: d in dependencies && d in rank ==> rank[d] < n
  {
    if dependencies == [] then 0 else
      var init, last := dependencies[..|dependencies| - 1], dependencies[|dependencies| - 1];
      assert dependencies == init + [last];
      var n := Above(rank, init);
      if last in rank && rank[last] >= n then rank[last] + 1 else n
  }

  lemma BoardGrows(tasks: map<Id, Task>, id: Id, row: Task)
    requires Board(tasks) && id !in tasks && row.status == Open
    requires Distinct(row.dependencies) && forall d :: d in row.dependencies ==> d in tasks
    ensures Board(tasks[id := row])
  {
    var after := tasks[id := row];
    var rank: map<Id, nat> :| Ranks(rank, tasks);
    var higher := rank[id := Above(rank, row.dependencies)];
    forall x, d | x in after && d in after[x].dependencies && d in after ensures higher[d] < higher[x] {
      if x != id {
        assert Resolved(tasks, x);
        assert d in tasks;
      }
    }
    assert Ranks(higher, after);
    forall x | x in after ensures Resolved(after, x) {
      if x != id {
        assert Resolved(tasks, x);
      }
    }
  }

  // ---- rows ----------------------------------------------------------------------------------

  /** Task rows and the log: nothing else. */
  ghost predicate MovesTasks(s: Scope, t: Scope) {
    t == s.(tasks := t.tasks, log := t.log) && t.tasks.Keys == s.tasks.Keys
  }

  lemma MoveTaskCore(s: Scope, id: Id, row: Task, kind: EventKind, now: Time, out: set<Id>)
    requires Core(s, out) && id in s.tasks && Unmarked(kind)
    requires TaskEvolved(s.tasks[id], row) && TaskRow(row, s.agents, out)
    requires row.status != Open ==> forall d :: d in row.dependencies ==> d in s.tasks && s.tasks[d].status == Done
    ensures Core(MoveTask(s, id, row, kind, now), out)
  {
    hide Covers, Bounded, Agrees, Append, MessageRows, KeysUnique, ReservationRows, AgentRows, TaskRow, Board, LinkRows;
    var s1 := s.(tasks := s.tasks[id := row]);
    var what := Pending(kind, TaskSubject(id), TaskStatus(row.status));
    LogGrows(s.log, what, now);
    AgreementKept(s1, what, now);
    BoardMoves(s.tasks, id, row);
    assert ProgressRows(s1.progress, s1.tasks, s1.agents);
  }

  lemma EvolvesTask(s: Scope, t: Scope, id: Id, row: Task)
    requires id in s.tasks && TaskEvolved(s.tasks[id], row)
    requires t == s.(tasks := s.tasks[id := row], log := t.log) && LogEvolved(s.log, t.log)
    ensures Evolves(s, t)
  {
  }

  lemma MoveTaskKeeps(s: Scope, id: Id, row: Task, kind: EventKind, now: Time, out: set<Id>)
    requires Between(s, out) && id in s.tasks && Unmarked(kind)
    requires TaskEvolved(s.tasks[id], row) && TaskRow(row, s.agents, out)
    requires row.status != Open ==> forall d :: d in row.dependencies ==> d in s.tasks && s.tasks[d].status == Done
    ensures Between(MoveTask(s, id, row, kind, now), out) && Evolves(s, MoveTask(s, id, row, kind, now))
    ensures MovesTasks(s, MoveTask(s, id, row, kind, now)) && MoveTask(s, id, row, kind, now).tasks == s.tasks[id := row]
  {
    hide Core, Evolves, LogOk, RemoteRows, Threads, Append;
    MoveTaskCore(s, id, row, kind, now, out);
    LogOf(s, out);
    LogGrows(s.log, Pending(kind, TaskSubject(id), TaskStatus(row.status)), now);
    EvolvesTask(s, MoveTask(s, id, row, kind, now), id, row);
    KeepRemote(s, MoveTask(s, id, row, kind, now));
  }

  /** What the invariant says of one task row. */
  lemma TaskFacts(s: Scope, out: set<Id>, id: Id)
    requires Between(s, out) && id in s.tasks
    ensures TaskRow(s.tasks[id], s.agents, out) && Resolved(s.tasks, id) && id in s.progress
  {
  }

  lemma ReopenRowKeeps(s: Scope, id: Id, now: Time, out: set<Id>)
    requires Between(s, out) && id in s.tasks
    ensures Between(ReopenRow(s, id, now), out) && Evolves(s, ReopenRow(s, id, now))
    ensures MovesTasks(s, ReopenRow(s, id, now))
    ensures ReopenRow(s, id, now).tasks == s.tasks[id := AsReopened(s.tasks[id], now)]
  {
    hide Between, Evolves, Append;
    EvolvesReflexive(s);
    TaskFacts(s, out, id);
    if s.tasks[id].status == Claimed {
      MoveTaskKeeps(s, id, AsReopened(s.tasks[id], now), TaskReleased, now, out);
    }
  }

  ghost predicate Reopens(s: Scope, t: Scope, ids: seq<Id>, now: Time) {
    && MovesTasks(s, t)
    && (forall id :: id in s.tasks ==> t.tasks[id] == if id in ids then AsReopened(s.tasks[id], now) else s.tasks[id])
  }

  lemma {:induction false} ReopenRowsKeep(s: Scope, ids: seq<Id>, now: Time, out: set<Id>)
    requires Between(s, out) && Distinct(ids) && forall id :: id in ids ==> id in s.tasks
    ensures Between(ReopenRows(s, ids, now), out) && Evolves(s, ReopenRows(s, ids, now))
    ensures Reopens(s, ReopenRows(s, ids, now), ids, now)
    decreases |ids|
  {
    hide Between, Evolves, ReopenRow;
    EvolvesReflexive(s);
    if ids != [] {
      var init, last := ids[..|ids| - 1], ids[|ids| - 1];
      SplitLast(ids);
      ReopenRowsKeep(s, init, now, out);
      var t := ReopenRows(s, init, now);
      ReopenRowKeeps(t, last, now, out);
      HandedBetween(s, out);
      EvolvesTransitive(s, t, ReopenRow(t, last, now));
    }
  }

  /** After the release of stale claims, every remaining claim belongs to a live execution. */
  lemma ReleaseStaleKeeps(s: Scope, now: Time, world: World, out: set<Id>)
    requires Between(s, out)
    ensures var t := ReleaseStale(s, now, world);
            && Between(t, out) && Evolves(s, t) && MovesTasks(s, t)
            && (forall id :: id in t.tasks && t.tasks[id].status == Claimed ==> ClaimLives(t, t.tasks[id], now) && t.tasks[id] == s.tasks[id])
            && (forall id :: id in t.tasks && t.tasks[id] != s.tasks[id] ==> id in Stale(s, now) && t.tasks[id] == AsReopened(s.tasks[id], now))
  {
    hide Between, Evolves, ReopenRows;
    var rows := world.order(Stale(s, now));
    assert Lists(rows, Stale(s, now));
    SortByLists(rows, Stale(s, now), ById());
    ReopenRowsKeep(s, StaleRows(s, now, world), now, out);
  }

  /** The fence closes once the agents between executions hold nothing that is not their own again. */
  lemma FenceCloses(t: Scope, now: Time, out: set<Id>)
    requires Between(t, out) && 0 <= now
    requires forall r :: r in t.reservations ==> t.reservations[r].agent !in out
    requires forall id :: id in t.tasks && t.tasks[id].status == Claimed ==> ClaimLives(t, t.tasks[id], now)
    ensures Inv(t)
  {
    hide MessageRows, KeysUnique, AgentRows, Board, ProgressRows, Agreement, LogOk, LinkRows, RemoteRows, Threads;
    forall id | id in t.tasks ensures TaskRow(t.tasks[id], t.agents, {}) {
      assert TaskRow(t.tasks[id], t.agents, out);
    }
  }

  // ---- what the board promises ---------------------------------------------------------------

  /** `path` follows dependencies from `from` to `to`. */
  ghost predicate DependsVia(tasks: map<Id, Task>, from: Id, path: seq<Id>, to: Id)
    decreases |path|
  {
    && from in tasks
    && if path == [] then from == to else path[0] in tasks[from].dependencies && DependsVia(tasks, path[0], path[1..], to)
  }

  /** A claimed or done task has its whole transitive dependency closure done. */
  lemma {:induction false} ClosureIsDone(tasks: map<Id, Task>, from: Id, path: seq<Id>, to: Id)
    requires Board(tasks) && path != [] && DependsVia(tasks, from, path, to) && tasks[from].status != Open
    ensures to in tasks && tasks[to].status == Done
    decreases |path|
  {
    assert Resolved(tasks, from);
    if |path| > 1 {
      ClosureIsDone(tasks, path[0], path[1..], to);
    } else {
      assert path[1..] == [];
    }
  }

  /** No task depends on itself, directly or transitively. */
  lemma NoTaskWaitsForItself(tasks: map<Id, Task>, from: Id, path: seq<Id>)
    requires Board(tasks) && path != []
    ensures !DependsVia(tasks, from, path, from)
  {
    var rank: map<Id, nat> :| Ranks(rank, tasks);
    if DependsVia(tasks, from, path, from) {
      RankFalls(tasks, rank, from, path, from);
    }
  }

  lemma {:induction false} RankFalls(tasks: map<Id, Task>, rank: map<Id, nat>, from: Id, path: seq<Id>, to: Id)
    requires Board(tasks) && Ranks(rank, tasks) && DependsVia(tasks, from, path, to)
    ensures to in tasks && if path == [] then to == from else rank[to] < rank[from]
    decreases |path|
  {
    if path != [] {
      assert Resolved(tasks, from);
      RankFalls(tasks, rank, path[0], path[1..], to);
    }
  }

  /** A task that can be claimed at once. */
  ghost predicate ReadyTask(tasks: map<Id, Task>, id: Id) {
    id in tasks && tasks[id].status == Open && forall d :: d in tasks[id].dependencies ==> d in tasks && tasks[d].status == Done
  }

  /** The board cannot deadlock: while any task is unfinished, one is being worked on or can be claimed. */
  lemma {:induction false} BoardIsLive(tasks: map<Id, Task>, rank: map<Id, nat>, id: Id)
    requires Board(tasks) && Ranks(rank, tasks) && id in tasks && tasks[id].status != Done
    ensures exists x :: x in tasks && tasks[x].status != Done && (tasks[x].status == Claimed || ReadyTask(tasks, x))
    decreases rank[id]
  {
    if tasks[id].status != Claimed && !ReadyTask(tasks, id) {
      assert Resolved(tasks, id);
      var d :| d in tasks[id].dependencies && tasks[d].status != Done;
      BoardIsLive(tasks, rank, d);
    }
  }

  /** In every reachable scope with unfinished work, some unfinished task is claimed or ready. */
  lemma NoDeadlock(s: Scope, id: Id)
    requires Inv(s) && id in s.tasks && s.tasks[id].status != Done
    ensures exists x :: x in s.tasks && s.tasks[x].status != Done && (s.tasks[x].status == Claimed || ReadyTask(s.tasks, x))
  {
    var rank: map<Id, nat> :| Ranks(rank, s.tasks);
    BoardIsLive(s.tasks, rank, id);
  }
}
