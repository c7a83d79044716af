/** The task board's transactions keep the invariant. */
module TaskSteps {
  import opened Model
  import opened Logs
  import opened Scopes
  import opened RemoteWork
  import opened Invariants
  import opened Rows
  import opened Sweeps
  import opened Totals
  import opened BoardSteps
  import opened InboxSteps
  import opened ExecutionSteps

  // ---- add -----------------------------------------------------------------------------------

  /** A task that may enter the board under a fresh identifier. */
  ghost predicate MayJoin(s: Scope, id: Id, row: Task) {
    && id !in s.issued && row.status == Open && row.claimedBy.None? && row.claimedExecution.None?
    && (row.createdBy.Some? ==> row.createdBy.value in s.agents)
    && Distinct(row.dependencies) && (forall d :: d in row.dependencies ==> d in s.tasks)
  }

  function Joined(s: Scope, id: Id, row: Task, now: Time): Scope {
    MoveTask(s.(issued := s.issued + {id}, progress := s.progress[id := []]), id, row, TaskCreated, now)
  }

  lemma JoinedRows(s: Scope, id: Id, row: Task)
    requires Core(s, {}) && MayJoin(s, id, row)
    ensures id !in s.tasks && TaskRows(s.tasks[id := row], s.agents, {}) && Board(s.tasks[id := row])
    ensures ProgressRows(s.progress[id := []], s.tasks[id := row], s.agents)
  {
    hide MessageRows, KeysUnique, ReservationRows, AgentRows, Agreement, LogOk, LinkRows, Board;
    BoardGrows(s.tasks, id, row);
  }

  lemma JoinedCore(s: Scope, id: Id, row: Task, now: Time)
    requires Core(s, {}) && MayJoin(s, id, row)
    ensures Core(Joined(s, id, row, now), {})
  {
    hide Covers, Bounded, Agrees, Append, MessageRows, KeysUnique, ReservationRows, TaskRows, Board, ProgressRows, LinkRows;
    var s1 := s.(tasks := s.tasks[id := row], issued := s.issued + {id}, progress := s.progress[id := []]);
    var what := Pending(TaskCreated, TaskSubject(id), TaskStatus(row.status));
    JoinedRows(s, id, row);
    LogGrows(s.log, what, now);
    AgreementKept(s1, what, now);
  }

  lemma JoinedEvolves(s: Scope, id: Id, row: Task, now: Time)
    requires id !in s.issued && id !in s.tasks && LogOk(s.log)
    ensures Evolves(s, Joined(s, id, row, now))
  {
    hide Covers, Bounded, Append;
    LogGrows(s.log, Pending(TaskCreated, TaskSubject(id), TaskStatus(row.status)), now);
  }

  lemma JoinedWithin(s: Scope, id: Id, row: Task, now: Time)
    requires |Unfinished(s)| < ACTIVE_TASK_CAP
    ensures StaysWithin(s, Joined(s, id, row, now))
  {
    hide Append;
    SizeGrows(Unfinished(Joined(s, id, row, now)), Unfinished(s) + {id});
  }

  lemma JoinedKeeps(s: Scope, id: Id, row: Task, now: Time)
    requires Inv(s) && MayJoin(s, id, row) && |Unfinished(s)| < ACTIVE_TASK_CAP
    ensures Keeps(s, Joined(s, id, row, now))
  {
    hide Core, RemoteRows, Threads, Evolves, Append, MayJoin, StaysWithin, Unfinished;
    JoinedWithin(s, id, row, now);
    LogOf(s, {});
    JoinedIsNew(s, id, row);
    JoinedCore(s, id, row, now);
    JoinedEvolves(s, id, row, now);
    KeepRemote(s, Joined(s, id, row, now));
  }

  lemma JoinedIsNew(s: Scope, id: Id, row: Task)
    requires Inv(s) && MayJoin(s, id, row)
    ensures id !in s.tasks && id !in s.issued
  {
    HandedBetween(s, {});
  }

  lemma AddTaskKeeps(s: Scope, caller: Option<Caller>, title: string, dependencies: seq<Id>, world: World)
    requires Inv(s) && world.mint(0) !in s.issued
    ensures Keeps(s, AddTask(s, caller, title, dependencies, world).scope)
  {
    hide Inv, Evolves, Append, Keeps, Unfinished;
    KeepsNothing(s);
    if (caller.Some? ==> Current(s, caller.value, world.tick(0))) && |Unfinished(s)| < ACTIVE_TASK_CAP
       && forall d :: d in dependencies ==> d in s.tasks {
      var creator := if caller.Some? then Some(caller.value.agent) else None;
      var row := Task(title, creator, None, None, Open, Unique(dependencies), None, world.tick(1), world.tick(1));
      JoinedKeeps(s, world.mint(0), row, world.tick(1));
    }
  }

  // ---- claim, complete, release --------------------------------------------------------------

  lemma ReleaseStaleAlone(s: Scope, now: Time, world: World)
    requires Inv(s)
    ensures Keeps(s, ReleaseStale(s, now, world)) && MovesTasks(s, ReleaseStale(s, now, world))
  {
    hide Between, Evolves, ReleaseStale;
    ReleaseStaleKeeps(s, now, world, {});
  }

  lemma MoveTaskAlone(s: Scope, id: Id, row: Task, kind: EventKind, now: Time)
    requires Inv(s) && id in s.tasks && Unmarked(kind)
    requires TaskEvolved(s.tasks[id], row) && TaskRow(row, s.agents, {})
    requires row.status != Open ==> forall d :: d in row.dependencies ==> d in s.tasks && s.tasks[d].status == Done
    ensures Keeps(s, MoveTask(s, id, row, kind, now))
  {
    hide Between, Evolves, Append;
    MoveTaskKeeps(s, id, row, kind, now, {});
  }

  lemma LiveOwner(s: Scope, caller: Caller, now: Time)
    requires Inv(s) && Current(s, caller, now) && s.clock <= now
    ensures Owns(s.agents, caller.agent, caller.execution)
  {
    ClockIsPositive(s);
  }

  lemma ClaimTaskKeeps(s: Scope, caller: Caller, id: Id, world: World)
    requires Inv(s) && Fair(world, s.clock, s.issued)
    ensures Keeps(s, ClaimTask(s, caller, id, world).scope)
  {
    hide Inv, Keeps, Evolves, Append, ReleaseStale;
    KeepsNothing(s);
    if Current(s, caller, world.tick(0)) {
      var s1 := ReleaseStale(s, world.tick(1), world);
      ReleaseStaleAlone(s, world.tick(1), world);
      if id in s1.tasks && s1.tasks[id].status == Open && Unblocked(s1, s1.tasks[id].dependencies) {
        var row := s1.tasks[id].(status := Claimed, claimedBy := Some(caller.agent), claimedExecution := Some(caller.execution), updatedAt := world.tick(2));
        LiveOwner(s, caller, world.tick(0));
        KeptInv(s, s1);
        TaskFactsOf(s1, id);
        MoveTaskAlone(s1, id, row, TaskClaimed, world.tick(2));
        KeepsThen(s, s1, MoveTask(s1, id, row, TaskClaimed, world.tick(2)));
      }
    }
  }

  lemma KeptInv(s: Scope, t: Scope)
    requires Keeps(s, t)
    ensures Inv(t)
  {
  }

  lemma TaskFactsOf(s: Scope, id: Id)
    requires Inv(s) && id in s.tasks
    ensures TaskRow(s.tasks[id], s.agents, {}) && Resolved(s.tasks, id) && id in s.progress
  {
    TaskFacts(s, {}, id);
  }

  lemma CompleteTaskKeeps(s: Scope, caller: Caller, id: Id, note: Option<string>, world: World)
    requires Inv(s)
    ensures Keeps(s, CompleteTask(s, caller, id, note, world).scope)
  {
    hide Inv, Keeps, Evolves, Append;
    KeepsNothing(s);
    if Current(s, caller, world.tick(0)) && ClaimedBy(s, id, caller) {
      TaskFactsOf(s, id);
      MoveTaskAlone(s, id, s.tasks[id].(status := Done, note := note, updatedAt := world.tick(1)), TaskCompleted, world.tick(1));
    }
  }

  lemma ReleaseTaskKeeps(s: Scope, caller: Caller, id: Id, world: World)
    requires Inv(s)
    ensures Keeps(s, ReleaseTask(s, caller, id, world).scope)
  {
    hide Between, Evolves, ReopenRow;
    KeepsNothing(s);
    if Current(s, caller, world.tick(0)) && ClaimedBy(s, id, caller) {
      ReopenRowKeeps(s, id, world.tick(1), {});
    }
  }

  // ---- progress ------------------------------------------------------------------------------

  lemma {:induction false} SequencesCount(rows: seq<Progress>)
    requires forall i :: 0 <= i < |rows| ==> rows[i].sequence == i + 1
    ensures MaxSequence(rows) == |rows|
    decreases |rows|
  {
    if rows != [] {
      SequencesCount(rows[..|rows| - 1]);
    }
  }

  lemma LongerProgress(s: Scope, id: Id, row: Progress)
    requires ProgressRows(s.progress, s.tasks, s.agents) && id in s.progress && row.agent in s.agents
    requires row.sequence == MaxSequence(s.progress[id]) + 1
    requires |s.progress[id]| < PROGRESS_CAP && TextBytes(s.progress[id]) + |row.text| <= PROGRESS_BYTES
    ensures ProgressRows(s.progress[id := s.progress[id] + [row]], s.tasks, s.agents)
  {
    var rows := s.progress[id];
    SequencesCount(rows);
    var longer := rows + [row];
    assert longer[..|longer| - 1] == rows;
  }

  lemma ProgressKeeps(s: Scope, progress: map<Id, seq<Progress>>)
    requires Inv(s) && ProgressRows(progress, s.tasks, s.agents)
    ensures Keeps(s, s.(progress := progress))
  {
    hide MessageRows, ReservationRows, KeysUnique, AgentRows, TaskRows, Board, ProgressRows, LogOk, Agrees, LinkRows, RemoteRows, Threads, Evolves;
    EvolvesApart(s, s.(progress := progress));
    KeepRemote(s, s.(progress := progress));
  }

  lemma ProgressOf(s: Scope)
    requires Inv(s)
    ensures ProgressRows(s.progress, s.tasks, s.agents)
  {
  }

  /** Progress rows stay contiguous and within their caps. */
  lemma AddTaskProgressKeeps(s: Scope, caller: Caller, id: Id, text: string, world: World)
    requires Inv(s)
    ensures Keeps(s, AddTaskProgress(s, caller, id, text, world).scope)
  {
    hide Inv, Evolves, Append, Keeps, ProgressRows;
    KeepsNothing(s);
    var now := world.tick(0);
    if Current(s, caller, now) && id in s.tasks && ClaimedBy(s, id, caller) {
      TaskFactsOf(s, id);
      var rows := s.progress[id];
      if |rows| < PROGRESS_CAP && TextBytes(rows) + |text| <= PROGRESS_BYTES {
        var row := Progress(MaxSequence(rows) + 1, caller.agent, caller.execution, text, now);
        ProgressOf(s);
        LongerProgress(s, id, row);
        var t := s.(progress := s.progress[id := rows + [row]]);
        ProgressKeeps(s, t.progress);
        KeptInv(s, t);
        EmitKeepsBetween(t, TaskProgressAdded, TaskSubject(id), now);
        KeepsThen(s, t, Emit(t, TaskProgressAdded, TaskSubject(id), Unstated, now));
      }
    }
  }
}
