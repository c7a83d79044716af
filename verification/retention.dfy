/** What a prune may remove, and the loops that find it: bus/storage.go and bus/retention_a2a.go. */
module Retention {
  import opened Model
  import opened Logs
  import opened Scopes
  import opened RemoteWork
  import opened Totals
  import opened Invariants
  import opened Sweeps
  import opened BoardSteps
  import opened InboxSteps

  // ---- tasks ---------------------------------------------------------------------------------

  predicate OldTask(t: Task, before: Time) {
    t.status == Done && t.updatedAt < before
  }

  /** A task that a recent or unfinished task depends on, directly or transitively, or is itself. */
  ghost predicate Needed(tasks: map<Id, Task>, before: Time, id: Id) {
    exists root, path :: root in tasks && !OldTask(tasks[root], before) && DependsVia(tasks, root, path, id)
  }

  ghost function TaskCandidates(tasks: map<Id, Task>, before: Time): set<Id> {
    set id | id in tasks && !Needed(tasks, before, id)
  }

  /** Old done tasks that no kept task depends on, directly or transitively. */
  ghost predicate Detached(tasks: map<Id, Task>, before: Time, ids: set<Id>) {
    && ids <= tasks.Keys
    && (forall id :: id in ids ==> OldTask(tasks[id], before))
    && (forall from, path, to :: from !in ids && DependsVia(tasks, from, path, to) ==> to !in ids)
  }

  lemma {:induction false} ViaLonger(tasks: map<Id, Task>, from: Id, path: seq<Id>, to: Id, next: Id)
    requires DependsVia(tasks, from, path, to) && to in tasks && next in tasks[to].dependencies && next in tasks
    ensures DependsVia(tasks, from, path + [next], next)
    decreases |path|
  {
    var longer := path + [next];
    if path == [] {
      assert longer[1..] == [];
    } else {
      ViaLonger(tasks, path[0], path[1..], to, next);
      assert longer[1..] == path[1..] + [next];
    }
  }

  lemma {:induction false} ViaJoins(tasks: map<Id, Task>, a: Id, first: seq<Id>, b: Id, second: seq<Id>, c: Id)
    requires DependsVia(tasks, a, first, b) && DependsVia(tasks, b, second, c)
    ensures DependsVia(tasks, a, first + second, c)
    decreases |first|
  {
    if first == [] {
      assert first + second == second;
    } else {
      ViaJoins(tasks, first[0], first[1..], b, second, c);
      assert (first + second)[1..] == first[1..] + second;
    }
  }

  lemma {:induction false} ViaExists(tasks: map<Id, Task>, from: Id, path: seq<Id>, to: Id)
    requires DependsVia(tasks, from, path, to)
    ensures to in tasks
    decreases |path|
  {
    if path != [] {
      ViaExists(tasks, path[0], path[1..], to);
    }
  }

  /** The candidates are the largest set of old done tasks that leaves no kept task with a removed dependency. */
  lemma CandidatesAreLargest(tasks: map<Id, Task>, before: Time, ids: set<Id>)
    ensures Detached(tasks, before, TaskCandidates(tasks, before))
    ensures Detached(tasks, before, ids) ==> ids <= TaskCandidates(tasks, before)
  {
    var chosen := TaskCandidates(tasks, before);
    forall id | id in chosen ensures OldTask(tasks[id], before) {
      assert DependsVia(tasks, id, [], id);
    }
    forall from, path, to | from !in chosen && DependsVia(tasks, from, path, to) ensures to !in chosen {
      var root, first :| root in tasks && !OldTask(tasks[root], before) && DependsVia(tasks, root, first, from);
      ViaJoins(tasks, root, first, from, path, to);
    }
  }

  /** A set that holds every recent task and is closed under dependencies holds everything needed. */
  lemma {:induction false} ClosedHoldsNeeded(tasks: map<Id, Task>, closed: set<Id>, from: Id, path: seq<Id>, to: Id)
    requires from in closed && DependsVia(tasks, from, path, to)
    requires forall id :: id in closed && id in tasks ==> forall d :: d in tasks[id].dependencies ==> d in closed
    ensures to in closed
    decreases |path|
  {
    if path != [] {
      ClosedHoldsNeeded(tasks, closed, path[0], path[1..], to);
    }
  }

  /** Everything the search can ever queue. */
  function Universe(tasks: map<Id, Task>): set<Id> {
    tasks.Keys + set id, d | id in tasks && d in tasks[id].dependencies :: d
  }

  /** What the queue holds is needed, and what has been taken from it has its dependencies in the queue. */
  ghost predicate Searching(tasks: map<Id, Task>, before: Time, queue: seq<Id>, retained: set<Id>, done: nat)
    requires done <= |queue|
  {
    && Lists(queue, retained) && retained <= Universe(tasks)
    && (forall id :: id in tasks && !OldTask(tasks[id], before) ==> id in retained)
    && (forall id :: id in retained && id in tasks ==> Needed(tasks, before, id))
    && (forall j :: 0 <= j < done && queue[j] in tasks ==> forall d :: d in tasks[queue[j]].dependencies ==> d in retained)
  }

  lemma NeedsDependency(tasks: map<Id, Task>, before: Time, id: Id, d: Id)
    requires id in tasks && Needed(tasks, before, id) && d in tasks[id].dependencies
    ensures d in tasks ==> Needed(tasks, before, d)
  {
    var root, path :| root in tasks && !OldTask(tasks[root], before) && DependsVia(tasks, root, path, id);
    if d in tasks {
      ViaLonger(tasks, root, path, id, d);
    }
  }

  lemma QueueOne(tasks: map<Id, Task>, before: Time, queue: seq<Id>, retained: set<Id>, done: nat, d: Id)
    requires done <= |queue| && Searching(tasks, before, queue, retained, done) && d !in retained && d in Universe(tasks)
    requires d in tasks ==> Needed(tasks, before, d)
    ensures Searching(tasks, before, queue + [d], retained + {d}, done)
  {
    hide Needed, Universe;
    var longer := queue + [d];
    assert forall j :: 0 <= j < done ==> longer[j] == queue[j];
  }

  lemma QueueNext(tasks: map<Id, Task>, before: Time, queue: seq<Id>, retained: set<Id>, done: nat)
    requires done < |queue| && Searching(tasks, before, queue, retained, done)
    requires queue[done] in tasks ==> forall d :: d in tasks[queue[done]].dependencies ==> d in retained
    ensures Searching(tasks, before, queue, retained, done + 1)
  {
    hide Needed, Universe;
  }

  lemma Queued(tasks: map<Id, Task>, before: Time, queue: seq<Id>, retained: set<Id>, done: nat)
    requires done < |queue| && Searching(tasks, before, queue, retained, done)
    ensures queue[done] in tasks ==> Needed(tasks, before, queue[done])
  {
    hide Needed, Universe;
    assert queue[done] in queue;
  }

  /** One step of the search adds the dependencies of a queued task. */
  method QueueDependencies(tasks: map<Id, Task>, before: Time, queue: seq<Id>, retained: set<Id>, i: nat) returns (longer: seq<Id>, more: set<Id>)
    requires i < |queue| && Searching(tasks, before, queue, retained, i)
    ensures i < |longer| && queue <= longer && Searching(tasks, before, longer, more, i + 1)
  {
    hide Searching, Needed;
    longer, more := queue, retained;
    if queue[i] !in tasks {
      QueueNext(tasks, before, queue, retained, i);
      return;
    }
    Queued(tasks, before, queue, retained, i);
    var dependencies := tasks[queue[i]].dependencies;
    for k := 0 to |dependencies|
      invariant queue <= longer && i < |longer| && Searching(tasks, before, longer, more, i)
      invariant forall j :: 0 <= j < k ==> dependencies[j] in more
    {
      if dependencies[k] !in more {
        NeedsDependency(tasks, before, queue[i], dependencies[k]);
        QueueOne(tasks, before, longer, more, i, dependencies[k]);
        longer, more := longer + [dependencies[k]], more + {dependencies[k]};
      }
    }
    QueueNext(tasks, before, longer, more, i);
  }

  lemma SearchIsComplete(tasks: map<Id, Task>, before: Time, queue: seq<Id>, retained: set<Id>)
    requires Searching(tasks, before, queue, retained, |queue|)
    ensures forall id :: id in tasks ==> (id in retained <==> Needed(tasks, before, id))
  {
    forall id | id in retained && id in tasks ensures forall d :: d in tasks[id].dependencies ==> d in retained {
      var j :| 0 <= j < |queue| && queue[j] == id;
    }
    forall id | id in tasks && Needed(tasks, before, id) ensures id in retained {
      var root, path :| root in tasks && !OldTask(tasks[root], before) && DependsVia(tasks, root, path, id);
      ClosedHoldsNeeded(tasks, retained, root, path, id);
    }
  }

  lemma QueueFits(tasks: map<Id, Task>, before: Time, queue: seq<Id>, retained: set<Id>, done: nat)
    requires done <= |queue| && Searching(tasks, before, queue, retained, done)
    ensures |queue| <= |Universe(tasks)|
  {
    hide Needed, Universe;
    ListedSize(queue, retained);
    SizeGrows(retained, Universe(tasks));
  }

  lemma StartSearch(tasks: map<Id, Task>, before: Time, queue: seq<Id>, retained: set<Id>)
    requires Lists(queue, retained)
    requires forall id :: id in retained <==> id in tasks && !OldTask(tasks[id], before)
    ensures Searching(tasks, before, queue, retained, 0)
  {
    forall id | id in retained && id in tasks ensures Needed(tasks, before, id) {
      assert DependsVia(tasks, id, [], id);
    }
  }

  /** The rows that must stay on their own account start the queue. */
  method QueueRecent(tasks: map<Id, Task>, before: Time, rows: seq<Id>) returns (queue: seq<Id>, retained: set<Id>)
    requires Lists(rows, tasks.Keys)
    ensures Searching(tasks, before, queue, retained, 0)
  {
    hide Searching;
    queue, retained := [], {};
    for r := 0 to |rows|
      invariant Lists(queue, retained)
      invariant forall id :: id in retained <==> id in rows[..r] && !OldTask(tasks[id], before)
    {
      assert rows[..r + 1] == rows[..r] + [rows[r]];
      assert rows[r] in rows;
      if !OldTask(tasks[rows[r]], before) {
        queue, retained := queue + [rows[r]], retained + {rows[r]};
      }
    }
    assert rows[..|rows|] == rows;
    StartSearch(tasks, before, queue, retained);
  }

  /** The rows that are not in a set, in their order. */
  method Others(rows: seq<Id>, retained: set<Id>) returns (others: seq<Id>)
    requires Distinct(rows)
    ensures Distinct(others) && forall id :: id in others <==> id in rows && id !in retained
  {
    others := [];
    for r := 0 to |rows|
      invariant Distinct(others)
      invariant forall id :: id in others <==> id in rows[..r] && id !in retained
    {
      assert rows[..r + 1] == rows[..r] + [rows[r]];
      if rows[r] !in retained {
        others := others + [rows[r]];
      }
    }
    assert rows[..|rows|] == rows;
  }

  /** bus/storage.go retentionTaskCandidates: a breadth-first walk from the tasks to keep, whatever order
      the rows come in, returns exactly the largest removable set. */
  method FindTasks(tasks: map<Id, Task>, before: Time, rows: seq<Id>) returns (candidates: seq<Id>)
    requires Lists(rows, tasks.Keys)
    ensures Lists(candidates, TaskCandidates(tasks, before))
  {
    hide Searching, Needed;
    var queue, retained := QueueRecent(tasks, before, rows);
    var i := 0;
    while i < |queue|
      invariant i <= |queue| && Searching(tasks, before, queue, retained, i)
      decreases |Universe(tasks)| - i
    {
      QueueFits(tasks, before, queue, retained, i);
      queue, retained := QueueDependencies(tasks, before, queue, retained, i);
      i := i + 1;
    }
    SearchIsComplete(tasks, before, queue, retained);
    candidates := Others(rows, retained);
  }
}
