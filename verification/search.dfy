/** The recursive search for dependency cycles in bus/archive.go (visitTask). */
module TaskSearch {
  import opened Model
  import opened Invariants

  ghost predicate Closed(tasks: map<Id, seq<Id>>) {
    forall id, d :: id in tasks && d in tasks[id] ==> d in tasks
  }

  /** A topological rank: every task is above its dependencies. */
  ghost predicate Topological(rank: map<Id, nat>, tasks: map<Id, seq<Id>>) {
    && tasks.Keys <= rank.Keys
    && (forall id, d :: id in tasks && d in tasks[id] && d in tasks ==> rank[d] < rank[id])
  }

  ghost predicate HasRank(tasks: map<Id, seq<Id>>) {
    exists rank: map<Id, nat> :: Topological(rank, tasks)
  }

  /** Each task on the path depends on the next. */
  ghost predicate Chain(tasks: map<Id, seq<Id>>, path: seq<Id>) {
    && (forall i :: 0 <= i < |path| ==> path[i] in tasks)
    && (forall i :: 0 <= i < |path| - 1 ==> path[i + 1] in tasks[path[i]])
  }

  lemma {:induction false} RankFallsAlong(tasks: map<Id, seq<Id>>, rank: map<Id, nat>, path: seq<Id>, i: nat, j: nat)
    requires Topological(rank, tasks) && Chain(tasks, path) && i <= j < |path|
    ensures rank[path[j]] <= rank[path[i]] && (i < j ==> rank[path[j]] < rank[path[i]])
    decreases j - i
  {
    if i < j {
      RankFallsAlong(tasks, rank, path, i, j - 1);
      assert path[j] in tasks[path[j - 1]];
    }
  }

  /** A task that is reached again while it is being visited lies on a cycle: no rank can exist. */
  lemma CycleHasNoRank(tasks: map<Id, seq<Id>>, path: seq<Id>, i: nat)
    requires Chain(tasks, path) && i < |path| && path[i] in tasks[path[|path| - 1]]
    ensures !HasRank(tasks)
  {
    if HasRank(tasks) {
      var rank: map<Id, nat> :| Topological(rank, tasks);
      RankFallsAlong(tasks, rank, path, i, |path| - 1);
      assert false;
    }
  }

  /** Tasks in the order the search finished them: the dependencies of each come before it. */
  ghost predicate Finished(tasks: map<Id, seq<Id>>, order: seq<Id>) {
    && Distinct(order)
    && (forall i :: 0 <= i < |order| ==> order[i] in tasks)
    && (forall i, d :: 0 <= i < |order| && d in tasks[order[i]] ==> d in order[..i])
  }

  ghost function Position(order: seq<Id>, id: Id): nat
    requires id in order
  {
    var i :| 0 <= i < |order| && order[i] == id;
    i
  }

  lemma FinishedGivesRank(tasks: map<Id, seq<Id>>, order: seq<Id>)
    requires Finished(tasks, order) && forall id :: id in tasks ==> id in order
    ensures HasRank(tasks)
  {
    var rank: map<Id, nat> := map id | id in tasks :: Position(order, id);
    forall id, d | id in tasks && d in tasks[id] && d in tasks ensures rank[d] < rank[id] {
      var i := Position(order, id);
      var j :| 0 <= j < i && order[..i][j] == d;
      assert order[Position(order, d)] == order[j];
    }
    assert Topological(rank, tasks);
  }

  /** The search's two maps, as the program has them, with the stack and the finishing order as history. */
  class Search {
    const tasks: map<Id, seq<Id>>
    var visiting: set<Id>
    var visited: set<Id>
    ghost var stack: seq<Id>
    ghost var order: seq<Id>

    ghost predicate Valid()
      reads this
    {
      && Closed(tasks) && Chain(tasks, stack) && Distinct(stack) && Finished(tasks, order)
      && (forall id :: id in visiting <==> id in stack) && (forall id :: id in visited <==> id in order)
      && visiting <= tasks.Keys && visiting !! visited
    }

    constructor (tasks: map<Id, seq<Id>>)
      requires Closed(tasks)
      ensures Valid() && visiting == {} && stack == [] && this.tasks == tasks
    {
      this.tasks := tasks;
      visiting, visited, stack, order := {}, {}, [], [];
    }

    /** A task may be visited from the top, or from the task on top of the stack that depends on it. */
    ghost predicate MayVisit(id: Id)
      reads this
    {
      id in tasks && (stack != [] ==> stack[|stack| - 1] in tasks && id in tasks[stack[|stack| - 1]])
    }

    method Enter(id: Id)
      requires Valid() && MayVisit(id) && id !in visiting && id !in visited
      modifies this
      ensures Valid() && visiting == old(visiting) + {id} && visited == old(visited) && stack == old(stack) + [id] && order == old(order)
    {
      visiting := visiting + {id};
      stack := stack + [id];
    }

    method Leave(id: Id)
      requires Valid() && stack != [] && stack[|stack| - 1] == id && id in tasks && forall d :: d in tasks[id] ==> d in visited
      modifies this
      ensures Valid() && visiting == old(visiting) - {id} && visited == old(visited) + {id} && stack == old(stack)[..|old(stack)| - 1]
    {
      assert id in stack;
      assert id !in order;
      ghost var rest := stack[..|stack| - 1];
      assert stack == rest + [id] && id !in rest;
      visiting, visited := visiting - {id}, visited + {id};
      stack, order := rest, order + [id];
      FinishedMore(tasks, old(order), id);
    }

    /** Meeting a task that is still being visited closes a cycle. */
    lemma MeetsStack(id: Id)
      requires Valid() && MayVisit(id) && id in visiting
      ensures !HasRank(tasks)
    {
      var i :| 0 <= i < |stack| && stack[i] == id;
      CycleHasNoRank(tasks, stack, i);
    }

    lemma MayVisitBelow(id: Id, k: nat)
      requires Valid() && stack != [] && stack[|stack| - 1] == id && id in tasks && k < |tasks[id]|
      ensures MayVisit(tasks[id][k]) && visiting <= tasks.Keys
    {
    }

    lemma HasRoom(id: Id)
      requires Valid() && MayVisit(id) && id !in visiting
      ensures |tasks.Keys - (visiting + {id})| < |tasks.Keys - visiting|
    {
      Shrinks(tasks.Keys - visiting, tasks.Keys - (visiting + {id}), id);
    }

    /** True when everything below the task has been visited without meeting the stack again; false only
        when the dependencies have a cycle. */
    method Visit(id: Id) returns (ok: bool)
      requires Valid() && MayVisit(id)
      modifies this
      ensures ok ==> Valid() && id in visited && old(visited) <= visited && stack == old(stack) && visiting == old(visiting)
      ensures !ok ==> !HasRank(tasks)
      decreases |tasks.Keys - visiting|
    {
      hide Valid, HasRank;
      if id in visiting {
        MeetsStack(id);
        return false;
      }
      if id in visited {
        return true;
      }
      HasRoom(id);
      Enter(id);
      for k := 0 to |tasks[id]|
        invariant Valid() && stack == old(stack) + [id] && visiting == old(visiting) + {id} && old(visited) <= visited
        invariant forall j :: 0 <= j < k ==> tasks[id][j] in visited
      {
        MayVisitBelow(id, k);
        var below := Visit(tasks[id][k]);
        if !below {
          return false;
        }
      }
      Leave(id);
      ok := true;
    }
  }

  lemma Shrinks(before: set<Id>, after: set<Id>, id: Id)
    requires id in before && after == before - {id}
    ensures |after| < |before|
  {
  }

  lemma FinishedMore(tasks: map<Id, seq<Id>>, order: seq<Id>, id: Id)
    requires Finished(tasks, order) && id in tasks && id !in order && forall d :: d in tasks[id] ==> d in order
    ensures Finished(tasks, order + [id])
  {
    var more := order + [id];
    forall i, d | 0 <= i < |more| && d in tasks[more[i]] ensures d in more[..i] {
      assert more[..i] == if i < |order| then order[..i] else order;
    }
  }

  /** Whatever order the tasks are taken in, the search ends, and accepts exactly when the dependencies
      have a topological rank. */
  method Accepts(tasks: map<Id, seq<Id>>, rows: seq<Id>) returns (ok: bool)
    requires Closed(tasks) && Lists(rows, tasks.Keys)
    ensures ok <==> HasRank(tasks)
  {
    var search := new Search(tasks);
    for i := 0 to |rows|
      invariant search.Valid() && search.tasks == tasks && search.stack == [] && fresh(search)
      invariant forall j :: 0 <= j < i ==> rows[j] in search.visited
    {
      assert rows[i] in rows;
      ok := search.Visit(rows[i]);
      if !ok {
        return;
      }
    }
    forall id | id in tasks ensures id in search.order {
      assert id in rows;
      var j :| 0 <= j < |rows| && rows[j] == id;
    }
    FinishedGivesRank(tasks, search.order);
    ok := true;
  }
}
