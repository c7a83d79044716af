/** bus/retention_a2a.go: remote tasks are retained as units together with their messages. */
module Units {
  import opened Model
  import opened Scopes
  import opened RemoteWork
  import opened Invariants
  import opened Sweeps
  import opened InboxSteps
  import opened Pruning

  /** One row of the remote tasks joined with their correlations. A task without any has one row with neither. */
  datatype JoinRow = JoinRow(task: Id, request: Option<Id>, response: Option<Id>)

  /** The rows that `rows` has for a task name this message. */
  ghost predicate Names(rows: seq<JoinRow>, task: Id, id: Id) {
    exists j :: 0 <= j < |rows| && rows[j].task == task && (rows[j].request == Some(id) || rows[j].response == Some(id))
  }

  function Requests(rows: seq<JoinRow>, task: Id): set<Id> {
    set j | 0 <= j < |rows| && rows[j].task == task && rows[j].request.Some? :: rows[j].request.value
  }

  /** The result of the join: complete, faithful, without repetitions, and grouped by task. */
  ghost predicate Joins(s: Scope, rows: seq<JoinRow>) {
    && (forall i, j, k :: 0 <= i <= j <= k < |rows| && rows[i].task == rows[k].task ==> rows[j].task == rows[i].task)
    && (forall i, j :: 0 <= i < j < |rows| && rows[i].request.Some? ==> rows[i].request != rows[j].request)
    && (forall task :: task in s.remoteTasks <==> Seen(rows, task))
    && (forall task :: Requests(rows, task) == CorrelationsOf(s, task))
    && (forall j :: 0 <= j < |rows| ==> if rows[j].request.None? then rows[j].response.None?
                                         else rows[j].request.value in s.correlations && rows[j].response == s.correlations[rows[j].request.value].response)
  }

  /** What the loop gathers about one task. */
  datatype Record = Record(id: Id, eligible: bool, messages: seq<Id>, correlations: nat)

  predicate OldEnough(s: Scope, before: Time, task: Id) {
    task in s.remoteTasks && Terminal(s.remoteTasks[task].state) && s.remoteTasks[task].updatedAt < before
  }

  /** A record sums up the rows seen so far for its task. */
  ghost predicate Sums(s: Scope, before: Time, candidates: set<Id>, rows: seq<JoinRow>, r: Record) {
    && (forall id :: id in r.messages <==> Names(rows, r.id, id))
    && (r.eligible <==> OldEnough(s, before, r.id) && forall id :: id in r.messages ==> id in candidates)
    && r.correlations == |Requests(rows, r.id)|
  }

  ghost predicate Seen(rows: seq<JoinRow>, task: Id) {
    exists j :: 0 <= j < |rows| && rows[j].task == task
  }

  ghost predicate Recorded(records: seq<Record>, task: Id) {
    exists i :: 0 <= i < |records| && records[i].id == task
  }

  ghost predicate Distinguished(records: seq<Record>) {
    forall i, j :: 0 <= i < j < |records| ==> records[i].id != records[j].id
  }

  /** The records cover the tasks of the rows seen so far, each once, the last row's task last. */
  ghost predicate Gathered(s: Scope, before: Time, candidates: set<Id>, rows: seq<JoinRow>, records: seq<Record>) {
    && Distinguished(records)
    && (forall i :: 0 <= i < |records| ==> Sums(s, before, candidates, rows, records[i]))
    && (forall task :: Seen(rows, task) <==> Recorded(records, task))
    && (|records| == 0 <==> |rows| == 0)
    && (|rows| > 0 ==> records[|records| - 1].id == rows[|rows| - 1].task)
  }

  function Ids(row: JoinRow): seq<Id> {
    (if row.request.Some? then [row.request.value] else []) + (if row.response.Some? then [row.response.value] else [])
  }

  predicate AllIn(ids: seq<Id>, candidates: set<Id>) {
    forall id :: id in ids ==> id in candidates
  }

  function Longer(r: Record, row: JoinRow, candidates: set<Id>): Record {
    Record(r.id, r.eligible && AllIn(Ids(row), candidates), r.messages + Ids(row), r.correlations + if row.request.Some? then 1 else 0)
  }

  // ---- one more row --------------------------------------------------------------------------

  lemma NamesMore(rows: seq<JoinRow>, row: JoinRow, task: Id, id: Id)
    ensures Names(rows + [row], task, id) <==> Names(rows, task, id) || (row.task == task && id in Ids(row))
  {
    var more := rows + [row];
    assert forall j :: 0 <= j < |rows| ==> more[j] == rows[j];
    assert more[|rows|] == row;
  }

  lemma RequestsMore(rows: seq<JoinRow>, row: JoinRow, task: Id)
    ensures Requests(rows + [row], task) == Requests(rows, task) + if row.task == task && row.request.Some? then {row.request.value} else {}
  {
    var more := rows + [row];
    assert forall j :: 0 <= j < |rows| ==> more[j] == rows[j];
    assert more[|rows|] == row;
  }

  lemma SumsOther(s: Scope, before: Time, candidates: set<Id>, rows: seq<JoinRow>, row: JoinRow, r: Record)
    requires Sums(s, before, candidates, rows, r) && r.id != row.task
    ensures Sums(s, before, candidates, rows + [row], r)
  {
    hide Names, Requests;
    forall id ensures Names(rows + [row], r.id, id) <==> Names(rows, r.id, id) {
      NamesMore(rows, row, r.id, id);
    }
    RequestsMore(rows, row, r.id);
  }

  lemma SumsMore(s: Scope, before: Time, candidates: set<Id>, rows: seq<JoinRow>, row: JoinRow, r: Record)
    requires Sums(s, before, candidates, rows, r) && r.id == row.task
    requires row.request.Some? ==> row.request.value !in Requests(rows, r.id)
    ensures Sums(s, before, candidates, rows + [row], Longer(r, row, candidates))
  {
    hide Names, Requests, OldEnough;
    var more := Longer(r, row, candidates);
    forall id ensures id in more.messages <==> Names(rows + [row], r.id, id) {
      NamesMore(rows, row, r.id, id);
    }
    RequestsMore(rows, row, r.id);
  }

  /** A task that no row has named yet starts from an empty record. */
  lemma SumsNothing(s: Scope, before: Time, candidates: set<Id>, rows: seq<JoinRow>, task: Id)
    requires forall j :: 0 <= j < |rows| ==> rows[j].task != task
    ensures Sums(s, before, candidates, rows, Record(task, OldEnough(s, before, task), [], 0))
  {
    assert Requests(rows, task) == {};
  }

  lemma NewRequest(s: Scope, rows: seq<JoinRow>, i: nat)
    requires Joins(s, rows) && i < |rows| && rows[i].request.Some?
    ensures rows[i].request.value !in Requests(rows[..i], rows[i].task)
  {
  }

  /** A task that differs from the last one has not been seen before. */
  lemma NewTask(s: Scope, rows: seq<JoinRow>, i: nat)
    requires Joins(s, rows) && i < |rows| && (i > 0 ==> rows[i - 1].task != rows[i].task)
    ensures forall j :: 0 <= j < i ==> rows[j].task != rows[i].task
  {
    hide Seen, Requests;
    assert forall j :: 0 <= j < i && rows[j].task == rows[i].task ==> rows[i - 1].task == rows[j].task;
  }

  lemma SeenMore(rows: seq<JoinRow>, row: JoinRow, task: Id)
    ensures Seen(rows + [row], task) <==> Seen(rows, task) || row.task == task
  {
    var more := rows + [row];
    assert forall j :: 0 <= j < |rows| ==> more[j] == rows[j];
    assert more[|rows|] == row;
  }

  lemma RecordedSame(records: seq<Record>, more: seq<Record>, task: Id)
    requires |more| == |records| && forall i :: 0 <= i < |records| ==> more[i].id == records[i].id
    ensures Recorded(more, task) <==> Recorded(records, task)
  {
    if Recorded(records, task) {
      var i :| 0 <= i < |records| && records[i].id == task;
      assert more[i].id == task;
    }
  }

  lemma RecordedMore(records: seq<Record>, r: Record, task: Id)
    ensures Recorded(records + [r], task) <==> Recorded(records, task) || r.id == task
  {
    var more := records + [r];
    assert forall i :: 0 <= i < |records| ==> more[i] == records[i];
    assert more[|records|] == r;
  }

  lemma LastIsRecorded(records: seq<Record>)
    requires records != []
    ensures Recorded(records, records[|records| - 1].id)
  {
  }

  /** A further row of the task at hand. */
  lemma GatheredMore(s: Scope, before: Time, candidates: set<Id>, rows: seq<JoinRow>, row: JoinRow, records: seq<Record>)
    requires Gathered(s, before, candidates, rows, records) && records != [] && records[|records| - 1].id == row.task
    requires row.request.Some? ==> row.request.value !in Requests(rows, row.task)
    ensures Gathered(s, before, candidates, rows + [row], records[..|records| - 1] + [Longer(records[|records| - 1], row, candidates)])
  {
    hide Sums, Requests, Seen, Recorded;
    var last := |records| - 1;
    var more := records[..last] + [Longer(records[last], row, candidates)];
    forall i | 0 <= i < |more| ensures Sums(s, before, candidates, rows + [row], more[i]) {
      if i < last {
        SumsOther(s, before, candidates, rows, row, records[i]);
      } else {
        SumsMore(s, before, candidates, rows, row, records[last]);
      }
    }
    LastIsRecorded(records);
    forall task ensures Seen(rows + [row], task) <==> Recorded(more, task) {
      SeenMore(rows, row, task);
      RecordedSame(records, more, task);
    }
  }

  /** The first row of another task. */
  lemma GatheredNew(s: Scope, before: Time, candidates: set<Id>, rows: seq<JoinRow>, row: JoinRow, records: seq<Record>)
    requires Gathered(s, before, candidates, rows, records) && forall j :: 0 <= j < |rows| ==> rows[j].task != row.task
    ensures Gathered(s, before, candidates, rows + [row], records + [Longer(Record(row.task, OldEnough(s, before, row.task), [], 0), row, candidates)])
  {
    hide Sums, Requests, Recorded, OldEnough;
    var first := Record(row.task, OldEnough(s, before, row.task), [], 0);
    var more := records + [Longer(first, row, candidates)];
    assert !Seen(rows, row.task);
    SumsNothing(s, before, candidates, rows, row.task);
    NoRequests(rows, row.task);
    forall i | 0 <= i < |records| ensures records[i].id != row.task && Sums(s, before, candidates, rows + [row], records[i]) {
      RecordedAt(records, i);
      SumsOther(s, before, candidates, rows, row, records[i]);
    }
    SumsMore(s, before, candidates, rows, row, first);
    forall task ensures Seen(rows + [row], task) <==> Recorded(more, task) {
      SeenMore(rows, row, task);
      RecordedMore(records, Longer(first, row, candidates), task);
    }
  }

  lemma NoRequests(rows: seq<JoinRow>, task: Id)
    requires forall j :: 0 <= j < |rows| ==> rows[j].task != task
    ensures Requests(rows, task) == {}
  {
  }

  lemma RecordedAt(records: seq<Record>, i: nat)
    requires i < |records|
    ensures Recorded(records, records[i].id)
  {
  }

  // ---- from the records to the units ---------------------------------------------------------

  lemma NamesUnit(s: Scope, rows: seq<JoinRow>, task: Id, id: Id)
    requires Joins(s, rows)
    ensures Names(rows, task, id) <==> InUnit(s, task, id)
  {
    if Names(rows, task, id) {
      var j :| 0 <= j < |rows| && rows[j].task == task && (rows[j].request == Some(id) || rows[j].response == Some(id));
      assert rows[j].request.value in Requests(rows, task);
      assert rows[j].request.value in CorrelationsOf(s, task);
    }
    if InUnit(s, task, id) {
      var c :| c in s.correlations && s.correlations[c].task == task && (id == c || s.correlations[c].response == Some(id));
      assert c in CorrelationsOf(s, task);
      assert c in Requests(rows, task);
    }
  }

  lemma UnitByMembers(s: Scope, before: Time, candidates: set<Id>, task: Id)
    ensures UnitRemovable(s, before, candidates, task) <==> OldEnough(s, before, task) && forall id :: InUnit(s, task, id) ==> id in candidates
  {
    if forall id :: InUnit(s, task, id) ==> id in candidates {
      forall c | c in s.correlations && s.correlations[c].task == task
        ensures c in candidates && (s.correlations[c].response.Some? ==> s.correlations[c].response.value in candidates)
      {
        assert InUnit(s, task, c);
        if s.correlations[c].response.Some? {
          assert InUnit(s, task, s.correlations[c].response.value);
        }
      }
    }
  }

  /** Once every row is in, a record says what its unit is and whether it may go. */
  lemma RecordIsUnit(s: Scope, before: Time, candidates: set<Id>, rows: seq<JoinRow>, r: Record)
    requires Joins(s, rows) && Sums(s, before, candidates, rows, r)
    ensures forall id :: id in r.messages <==> InUnit(s, r.id, id)
    ensures r.eligible <==> UnitRemovable(s, before, candidates, r.id)
    ensures r.correlations == |CorrelationsOf(s, r.id)|
  {
    hide Names, InUnit, UnitRemovable, OldEnough;
    forall id ensures Names(rows, r.id, id) <==> InUnit(s, r.id, id) {
      NamesUnit(s, rows, r.id, id);
    }
    UnitByMembers(s, before, candidates, r.id);
  }

  method Gather(s: Scope, before: Time, candidates: set<Id>, rows: seq<JoinRow>) returns (records: seq<Record>)
    requires Joins(s, rows)
    ensures Gathered(s, before, candidates, rows, records)
  {
    hide Joins, Gathered, Sums, Seen, Recorded, Requests, OldEnough;
    records := [];
    GatheredNothing(s, before, candidates);
    for i := 0 to |rows|
      invariant Gathered(s, before, candidates, rows[..i], records)
    {
      var row := rows[i];
      assert rows[..i + 1] == rows[..i] + [row];
      GatheredEnds(s, before, candidates, rows[..i], records);
      if records == [] || records[|records| - 1].id != row.task {
        NewTask(s, rows, i);
        GatheredNew(s, before, candidates, rows[..i], row, records);
        records := records + [Longer(Record(row.task, OldEnough(s, before, row.task), [], 0), row, candidates)];
      } else {
        if row.request.Some? {
          NewRequest(s, rows, i);
        }
        GatheredMore(s, before, candidates, rows[..i], row, records);
        records := records[..|records| - 1] + [Longer(records[|records| - 1], row, candidates)];
      }
    }
    assert rows[..|rows|] == rows;
  }

  lemma GatheredNothing(s: Scope, before: Time, candidates: set<Id>)
    ensures Gathered(s, before, candidates, [], [])
  {
  }

  lemma GatheredEnds(s: Scope, before: Time, candidates: set<Id>, rows: seq<JoinRow>, records: seq<Record>)
    requires Gathered(s, before, candidates, rows, records)
    ensures |records| == 0 <==> |rows| == 0
    ensures |rows| > 0 ==> records[|records| - 1].id == rows[|rows| - 1].task
  {
    hide Sums, Seen, Recorded;
  }

  /** The records are the units of the scope's remote tasks. */
  ghost predicate AreUnits(s: Scope, before: Time, candidates: set<Id>, records: seq<Record>) {
    && Distinguished(records) && (forall task :: task in s.remoteTasks <==> Recorded(records, task))
    && (forall i :: 0 <= i < |records| ==> IsUnit(s, before, candidates, records[i]))
  }

  ghost predicate IsUnit(s: Scope, before: Time, candidates: set<Id>, r: Record) {
    && (forall id :: id in r.messages <==> InUnit(s, r.id, id))
    && (r.eligible <==> UnitRemovable(s, before, candidates, r.id))
    && r.correlations == |CorrelationsOf(s, r.id)|
  }

  lemma GatheredUnits(s: Scope, before: Time, candidates: set<Id>, rows: seq<JoinRow>, records: seq<Record>)
    requires Joins(s, rows) && Gathered(s, before, candidates, rows, records)
    ensures AreUnits(s, before, candidates, records)
  {
    hide Sums, Seen, Recorded, InUnit, UnitRemovable;
    forall i | 0 <= i < |records| ensures IsUnit(s, before, candidates, records[i]) {
      RecordIsUnit(s, before, candidates, rows, records[i]);
    }
  }

  // ---- choosing units ------------------------------------------------------------------------

  function Elements(ids: seq<Id>): set<Id> {
    set id | id in ids
  }

  /** What the second loop has decided after `n` records. */
  ghost predicate Chosen(s: Scope, candidates: set<Id>, records: seq<Record>, n: nat, ids: seq<Id>, count: nat, remaining: set<Id>)
    requires n <= |records|
  {
    && Distinct(ids) && (forall id :: id in ids <==> exists i :: 0 <= i < n && records[i].eligible && records[i].id == id)
    && count == |GoneWork(s.correlations, Elements(ids))|
    && (forall id :: id in remaining <==> id in candidates && forall i :: 0 <= i < n && !records[i].eligible ==> id !in records[i].messages)
  }

  lemma MoreWork(s: Scope, ids: seq<Id>, task: Id)
    requires task !in ids
    ensures |GoneWork(s.correlations, Elements(ids + [task]))| == |GoneWork(s.correlations, Elements(ids))| + |CorrelationsOf(s, task)|
  {
    var a, b := GoneWork(s.correlations, Elements(ids)), CorrelationsOf(s, task);
    assert GoneWork(s.correlations, Elements(ids + [task])) == a + b;
    assert a !! b;
  }

  lemma ChoseUnit(s: Scope, candidates: set<Id>, records: seq<Record>, n: nat, ids: seq<Id>, count: nat, remaining: set<Id>)
    requires n < |records| && Distinguished(records) && records[n].eligible && Chosen(s, candidates, records, n, ids, count, remaining)
    requires records[n].correlations == |CorrelationsOf(s, records[n].id)|
    ensures Chosen(s, candidates, records, n + 1, ids + [records[n].id], count + records[n].correlations, remaining)
  {
    assert records[n].id !in ids;
    MoreWork(s, ids, records[n].id);
  }

  lemma KeptUnit(s: Scope, candidates: set<Id>, records: seq<Record>, n: nat, ids: seq<Id>, count: nat, remaining: set<Id>, fewer: set<Id>)
    requires n < |records| && !records[n].eligible && Chosen(s, candidates, records, n, ids, count, remaining)
    requires forall id :: id in fewer <==> id in remaining && id !in records[n].messages
    ensures Chosen(s, candidates, records, n + 1, ids, count, fewer)
  {
  }

  lemma ChosenAll(s: Scope, before: Time, candidates: set<Id>, records: seq<Record>, ids: seq<Id>, count: nat, remaining: set<Id>)
    requires AreUnits(s, before, candidates, records) && Chosen(s, candidates, records, |records|, ids, count, remaining)
    ensures var units := RemovableUnits(s, before, candidates);
            Lists(ids, units) && remaining == Unclaimed(s, units, candidates) && count == |GoneWork(s.correlations, units)|
  {
    hide InUnit, UnitRemovable, GoneWork;
    var units := RemovableUnits(s, before, candidates);
    forall id ensures id in ids <==> id in units {
      UnitChosen(s, before, candidates, records, id);
    }
    assert Elements(ids) == units;
    forall id ensures id in remaining <==> id in Unclaimed(s, units, candidates) {
      UnclaimedBy(s, before, candidates, records, id);
    }
  }

  lemma UnitChosen(s: Scope, before: Time, candidates: set<Id>, records: seq<Record>, id: Id)
    requires AreUnits(s, before, candidates, records)
    ensures id in RemovableUnits(s, before, candidates) <==> exists i :: 0 <= i < |records| && records[i].eligible && records[i].id == id
  {
    hide InUnit, UnitRemovable;
    if id in RemovableUnits(s, before, candidates) {
      assert Recorded(records, id);
    }
    if i :| 0 <= i < |records| && records[i].eligible && records[i].id == id {
      assert IsUnit(s, before, candidates, records[i]);
      RecordedAt(records, i);
    }
  }

  lemma UnclaimedBy(s: Scope, before: Time, candidates: set<Id>, records: seq<Record>, id: Id)
    requires AreUnits(s, before, candidates, records)
    ensures id in Unclaimed(s, RemovableUnits(s, before, candidates), candidates)
            <==> id in candidates && forall i :: 0 <= i < |records| && !records[i].eligible ==> id !in records[i].messages
  {
    hide InUnit, UnitRemovable;
    var units := RemovableUnits(s, before, candidates);
    if id in Unclaimed(s, units, candidates) {
      forall i | 0 <= i < |records| && !records[i].eligible ensures id !in records[i].messages {
        assert IsUnit(s, before, candidates, records[i]);
        RecordedAt(records, i);
      }
    }
    if forall i :: 0 <= i < |records| && !records[i].eligible ==> id !in records[i].messages {
      forall task | task in s.remoteTasks && task !in units ensures !InUnit(s, task, id) {
        assert Recorded(records, task);
        var i :| 0 <= i < |records| && records[i].id == task;
        assert IsUnit(s, before, candidates, records[i]);
      }
    }
  }

  /** bus/retention_a2a.go retentionA2ACandidates: the removable units, how many correlations go with them,
      and the message candidates that no kept unit needs. */
  method FindUnits(s: Scope, before: Time, candidates: set<Id>, rows: seq<JoinRow>) returns (ids: seq<Id>, count: nat, remaining: set<Id>)
    requires Joins(s, rows)
    ensures var units := RemovableUnits(s, before, candidates);
            Lists(ids, units) && remaining == Unclaimed(s, units, candidates) && count == |GoneWork(s.correlations, units)|
  {
    hide Joins, Gathered, Chosen, RemovableUnits, Unclaimed, GoneWork;
    var records := Gather(s, before, candidates, rows);
    GatheredUnits(s, before, candidates, rows, records);
    ids, count, remaining := [], 0, candidates;
    ChosenNothing(s, candidates, records);
    for n := 0 to |records|
      invariant Chosen(s, candidates, records, n, ids, count, remaining)
    {
      assert IsUnit(s, before, candidates, records[n]);
      if records[n].eligible {
        ChoseUnit(s, candidates, records, n, ids, count, remaining);
        ids, count := ids + [records[n].id], count + records[n].correlations;
      } else {
        var fewer := set id | id in remaining && id !in records[n].messages;
        KeptUnit(s, candidates, records, n, ids, count, remaining, fewer);
        remaining := fewer;
      }
    }
    ChosenAll(s, before, candidates, records, ids, count, remaining);
  }

  lemma ChosenNothing(s: Scope, candidates: set<Id>, records: seq<Record>)
    ensures Chosen(s, candidates, records, 0, [], 0, candidates)
  {
    assert GoneWork(s.correlations, Elements([])) == {};
  }

  // ---- the join itself -----------------------------------------------------------------------

  /** The rows of one task: one for each of its requests, or a single row with neither. */
  function RowsOf(s: Scope, task: Id, requests: seq<Id>): (rows: seq<JoinRow>)
    requires forall c :: c in requests ==> c in s.correlations
    ensures forall j :: 0 <= j < |rows| ==> rows[j].task == task
    ensures |rows| > 0
  {
    if requests == [] then [JoinRow(task, None, None)]
    else seq(|requests|, i requires 0 <= i < |requests| => JoinRow(task, Some(requests[i]), s.correlations[requests[i]].response))
  }

  /** SELECT ... FROM a2a_tasks LEFT JOIN a2a_message_correlations, task by task. */
  function JoinOf(s: Scope, tasks: seq<Id>, world: World): seq<JoinRow>
    decreases |tasks|
  {
    if tasks == [] then [] else
      var last := tasks[|tasks| - 1];
      assert Lists(world.order(CorrelationsOf(s, last)), CorrelationsOf(s, last));
      JoinOf(s, tasks[..|tasks| - 1], world) + RowsOf(s, last, world.order(CorrelationsOf(s, last)))
  }

  /** The join of some of the tasks. */
  ghost predicate JoinsSome(s: Scope, tasks: seq<Id>, rows: seq<JoinRow>) {
    && (forall i, j, k :: 0 <= i <= j <= k < |rows| && rows[i].task == rows[k].task ==> rows[j].task == rows[i].task)
    && (forall i, j :: 0 <= i < j < |rows| && rows[i].request.Some? ==> rows[i].request != rows[j].request)
    && (forall task :: task in tasks <==> Seen(rows, task))
    && (forall j :: 0 <= j < |rows| ==> rows[j].task in tasks && Faithful(s, rows[j]))
    && (forall task :: task in tasks ==> Requests(rows, task) == CorrelationsOf(s, task))
  }

  ghost predicate Faithful(s: Scope, row: JoinRow) {
    if row.request.None? then row.response.None?
    else row.request.value in s.correlations && s.correlations[row.request.value].task == row.task && row.response == s.correlations[row.request.value].response
  }

  lemma RowsOfJoin(s: Scope, task: Id, requests: seq<Id>)
    requires Lists(requests, CorrelationsOf(s, task))
    ensures var rows := RowsOf(s, task, requests);
            && (forall i, j :: 0 <= i < j < |rows| && rows[i].request.Some? ==> rows[i].request != rows[j].request)
            && (forall j :: 0 <= j < |rows| ==> Faithful(s, rows[j]))
            && Requests(rows, task) == CorrelationsOf(s, task)
  {
    var rows := RowsOf(s, task, requests);
    assert forall i :: 0 <= i < |requests| ==> requests[i] in requests;
    forall c ensures c in Requests(rows, task) <==> c in CorrelationsOf(s, task) {
      if c in CorrelationsOf(s, task) {
        var i :| 0 <= i < |requests| && requests[i] == c;
        assert rows[i].request == Some(c);
      }
    }
  }

  lemma SeenConcat(a: seq<JoinRow>, b: seq<JoinRow>, task: Id)
    ensures Seen(a + b, task) <==> Seen(a, task) || Seen(b, task)
    ensures Requests(a + b, task) == Requests(a, task) + Requests(b, task)
  {
    var all := a + b;
    assert forall j :: 0 <= j < |a| ==> all[j] == a[j];
    assert forall j :: 0 <= j < |b| ==> all[|a| + j] == b[j];
  }

  lemma JoinsOneMore(s: Scope, tasks: seq<Id>, rows: seq<JoinRow>, task: Id, requests: seq<Id>)
    requires JoinsSome(s, tasks, rows) && task !in tasks && Lists(requests, CorrelationsOf(s, task))
    ensures JoinsSome(s, tasks + [task], rows + RowsOf(s, task, requests))
  {
    hide Seen, Requests;
    var more := RowsOf(s, task, requests);
    RowsOfJoin(s, task, requests);
    var all := rows + more;
    OthersUnseen(s, tasks, rows, task, more);
    forall x ensures x in tasks + [task] <==> Seen(all, x) {
      SeenConcat(rows, more, x);
    }
    forall x | x in tasks + [task] ensures Requests(all, x) == CorrelationsOf(s, x) {
      SeenConcat(rows, more, x);
    }
    forall i, j | 0 <= i < j < |all| && all[i].request.Some? ensures all[i].request != all[j].request {
      assert i < |rows| ==> Faithful(s, rows[i]);
      assert j >= |rows| ==> Faithful(s, more[j - |rows|]);
    }
    assert forall j :: 0 <= j < |all| ==> if j < |rows| then all[j] == rows[j] else all[j] == more[j - |rows|];
  }

  lemma OthersUnseen(s: Scope, tasks: seq<Id>, rows: seq<JoinRow>, task: Id, more: seq<JoinRow>)
    requires (forall j :: 0 <= j < |rows| ==> rows[j].task in tasks) && task !in tasks && |more| > 0
    requires forall j :: 0 <= j < |more| ==> more[j].task == task
    ensures Requests(rows, task) == {} && forall x :: (x in tasks ==> Requests(more, x) == {}) && (Seen(more, x) <==> x == task)
  {
    assert more[0].task == task;
  }

  lemma {:induction false} JoinOfJoins(s: Scope, tasks: seq<Id>, world: World)
    requires Distinct(tasks)
    ensures JoinsSome(s, tasks, JoinOf(s, tasks, world))
    decreases |tasks|
  {
    hide JoinsSome, RowsOf;
    if tasks == [] {
      JoinsNone(s);
    } else {
      var init, last := tasks[..|tasks| - 1], tasks[|tasks| - 1];
      SplitLast(tasks);
      JoinOfJoins(s, init, world);
      assert Lists(world.order(CorrelationsOf(s, last)), CorrelationsOf(s, last));
      JoinsOneMore(s, init, JoinOf(s, init, world), last, world.order(CorrelationsOf(s, last)));
    }
  }

  lemma JoinsNone(s: Scope)
    ensures JoinsSome(s, [], [])
  {
  }

  /** In a scope whose correlations all have a task, the query returns the whole join. */
  lemma QueryJoins(s: Scope, tasks: seq<Id>, world: World)
    requires Lists(tasks, s.remoteTasks.Keys) && forall c :: c in s.correlations ==> s.correlations[c].task in s.remoteTasks
    ensures Joins(s, JoinOf(s, tasks, world))
  {
    hide JoinOf, Seen;
    JoinOfJoins(s, tasks, world);
    var rows := JoinOf(s, tasks, world);
    forall task ensures Requests(rows, task) == CorrelationsOf(s, task) {
      if task !in tasks {
        assert CorrelationsOf(s, task) == {};
        assert Requests(rows, task) == {};
      }
    }
    assert forall j :: 0 <= j < |rows| ==> Faithful(s, rows[j]);
  }
}
