/** Tables written out as listings of rows, and read back. */
module Tables {
  import opened Model
  import opened Scopes
  import opened Sweeps
  import opened InboxSteps

  datatype Entry<T> = Entry(id: Id, row: T)

  predicate UniqueIds<T>(entries: seq<Entry<T>>) {
    forall i, j :: 0 <= i < j < |entries| ==> entries[i].id != entries[j].id
  }

  function IdsOf<T>(entries: seq<Entry<T>>): set<Id> {
    set i | 0 <= i < |entries| :: entries[i].id
  }

  /** The rows of a table in a given order. */
  function Entries<T>(table: map<Id, T>, order: seq<Id>): (entries: seq<Entry<T>>)
    requires forall i :: 0 <= i < |order| ==> order[i] in table
    ensures |entries| == |order|
    ensures forall i :: 0 <= i < |order| ==> entries[i] == Entry(order[i], table[order[i]])
  {
    seq(|order|, i requires 0 <= i < |order| => Entry(order[i], table[order[i]]))
  }

  /** Inserting rows one after another. */
  function TableOf<T>(entries: seq<Entry<T>>): map<Id, T> {
    if entries == [] then map[] else
      TableOf(entries[..|entries| - 1])[entries[|entries| - 1].id := entries[|entries| - 1].row]
  }

  lemma {:induction false} TableIds<T>(entries: seq<Entry<T>>)
    ensures TableOf(entries).Keys == IdsOf(entries)
  {
    if entries != [] {
      var init, last := entries[..|entries| - 1], entries[|entries| - 1];
      TableIds(init);
      assert IdsOf(entries) == IdsOf(init) + {last.id};
    }
  }

  lemma {:induction false} TableAt<T>(entries: seq<Entry<T>>, i: nat)
    requires UniqueIds(entries) && i < |entries|
    ensures entries[i].id in TableOf(entries) && TableOf(entries)[entries[i].id] == entries[i].row
  {
    if i < |entries| - 1 {
      TableAt(entries[..|entries| - 1], i);
    }
  }

  /** Every row of the table is one of the entries. */
  lemma TableRow<T>(entries: seq<Entry<T>>, id: Id) returns (i: nat)
    requires UniqueIds(entries) && id in TableOf(entries)
    ensures i < |entries| && entries[i].id == id && TableOf(entries)[id] == entries[i].row
  {
    TableIds(entries);
    i :| 0 <= i < |entries| && entries[i].id == id;
    TableAt(entries, i);
  }

  /** Writing a table out in any order and reading it back gives the table. */
  lemma ReadBack<T>(table: map<Id, T>, order: seq<Id>)
    requires Lists(order, table.Keys)
    ensures (forall i :: 0 <= i < |order| ==> order[i] in table)
         && UniqueIds(Entries(table, order)) && TableOf(Entries(table, order)) == table
  {
    assert forall i :: 0 <= i < |order| ==> order[i] in order;
    var entries := Entries(table, order);
    TableIds(entries);
    forall id ensures id in TableOf(entries) <==> id in table {
      if id in table {
        assert id in order;
        var i :| 0 <= i < |order| && order[i] == id;
        assert entries[i].id == id;
      }
    }
    forall id | id in table ensures TableOf(entries)[id] == table[id] {
      var i := TableRow(entries, id);
    }
  }

  // ---- ORDER BY created_at, id ---------------------------------------------------------------

  /** ORDER BY key, id: sort by the second key first; the sort keeps the order of equal keys. */
  function Listed(ids: set<Id>, key: Id -> Time, world: World): seq<Id> {
    SortBy(SortBy(world.order(ids), ById()), key)
  }

  ghost predicate Before(key: Id -> Time, a: Id, b: Id) {
    key(a) < key(b) || (key(a) == key(b) && a < b)
  }

  ghost predicate StrictlySorted(rows: seq<Id>, key: Id -> Time) {
    forall i, j :: 0 <= i < j < |rows| ==> Before(key, rows[i], rows[j])
  }

  lemma {:induction false} InsertByStrict(row: Id, rows: seq<Id>, key: Id -> Time)
    requires StrictlySorted(rows, key) && forall i :: 0 <= i < |rows| ==> row < rows[i]
    ensures StrictlySorted(InsertBy(row, rows, key), key)
  {
    if rows == [] || key(row) <= key(rows[0]) {
      assert forall i :: 0 <= i < |rows| ==> Before(key, row, rows[i]) by {
        assert forall i :: 0 < i < |rows| ==> Before(key, rows[0], rows[i]);
      }
    } else {
      var tail := rows[1..];
      InsertByStrict(row, tail, key);
      InsertByMembers(row, tail, key);
      assert forall x :: x in tail ==> Before(key, rows[0], x);
    }
  }

  lemma {:induction false} SortByStrict(rows: seq<Id>, key: Id -> Time)
    requires forall i, j :: 0 <= i < j < |rows| ==> rows[i] < rows[j]
    ensures StrictlySorted(SortBy(rows, key), key)
  {
    if rows != [] {
      SortByStrict(rows[1..], key);
      SortMembers(rows[1..], key);
      InsertByStrict(rows[0], SortBy(rows[1..], key), key);
    }
  }

  lemma SortMembers(rows: seq<Id>, key: Id -> Time)
    ensures forall i :: 0 <= i < |SortBy(rows, key)| ==> SortBy(rows, key)[i] in rows
  {
    SortBySorts(rows, key);
    var sorted := SortBy(rows, key);
    forall i | 0 <= i < |sorted| ensures sorted[i] in rows {
      assert sorted[i] in multiset(sorted);
    }
  }

  lemma ListedIsSorted(ids: set<Id>, key: Id -> Time, world: World)
    ensures Lists(Listed(ids, key, world), ids) && StrictlySorted(Listed(ids, key, world), key)
  {
    var rows := world.order(ids);
    assert Lists(rows, ids);
    SortByLists(rows, ids, ById());
    SortBySorts(rows, ById());
    var byId := SortBy(rows, ById());
    forall i, j | 0 <= i < j < |byId| ensures byId[i] < byId[j] {
      assert ById()(byId[i]) <= ById()(byId[j]);
    }
    SortByLists(byId, ids, key);
    SortByStrict(byId, key);
  }

  /** A strictly sorted listing is the only one of its set. */
  lemma {:induction false} OneListing(a: seq<Id>, b: seq<Id>, ids: set<Id>, key: Id -> Time)
    requires Lists(a, ids) && Lists(b, ids) && StrictlySorted(a, key) && StrictlySorted(b, key)
    ensures a == b
    decreases |a|
  {
    ListedSize(a, ids);
    ListedSize(b, ids);
    if a != [] {
      FirstIsLeast(a, b, ids, key);
      assert a == [a[0]] + a[1..] && b == [b[0]] + b[1..];
      OneListing(a[1..], b[1..], ids - {a[0]}, key);
    }
  }

  lemma FirstIsLeast(a: seq<Id>, b: seq<Id>, ids: set<Id>, key: Id -> Time)
    requires Lists(a, ids) && Lists(b, ids) && StrictlySorted(a, key) && StrictlySorted(b, key) && a != [] && b != []
    ensures a[0] == b[0]
  {
    assert a[0] in b && b[0] in a by {
      assert a[0] in a && b[0] in b;
    }
    var i :| 0 <= i < |b| && b[i] == a[0];
    var j :| 0 <= j < |a| && a[j] == b[0];
    assert i > 0 ==> Before(key, b[0], a[0]);
    assert j > 0 ==> Before(key, a[0], b[0]);
  }

  /** ORDER BY a total order does not depend on the engine. */
  lemma ListingIsFixed(ids: set<Id>, key: Id -> Time, key': Id -> Time, world: World, world': World)
    requires forall id :: id in ids ==> key(id) == key'(id)
    ensures Listed(ids, key, world) == Listed(ids, key', world')
  {
    ListedIsSorted(ids, key, world);
    ListedIsSorted(ids, key', world');
    var rows := Listed(ids, key', world');
    forall i, j | 0 <= i < j < |rows| ensures Before(key, rows[i], rows[j]) {
      assert rows[i] in rows && rows[j] in rows;
      assert Before(key', rows[i], rows[j]);
    }
    OneListing(Listed(ids, key, world), rows, ids, key);
  }
}
