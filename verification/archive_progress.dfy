/** What the validator's test of progress records means: each task's records are numbered exactly one to n. */
module ArchiveProgress {
  import opened Model
  import opened Scopes
  import opened Invariants
  import opened Archives
  import opened ArchiveChecks
  import opened ArchiveLaws

  ghost predicate Ascends(rows: seq<Progress>) {
    forall i, j :: 0 <= i < j < |rows| ==> rows[i].sequence < rows[j].sequence
  }

  ghost predicate NumbersDistinct(rows: seq<Progress>) {
    forall i, j :: 0 <= i < j < |rows| ==> rows[i].sequence != rows[j].sequence
  }

  // ---- reading by number ---------------------------------------------------------------------

  lemma {:induction false} PlacedRow(rows: seq<Progress>, row: Progress)
    ensures |InSequence(rows, row)| == |rows| + 1 && TextBytes(InSequence(rows, row)) == TextBytes(rows) + |row.text|
    ensures forall r :: r in InSequence(rows, row) <==> r in rows || r == row
  {
    var placed := InSequence(rows, row);
    assert placed == placed[..|placed| - 1] + [placed[|placed| - 1]];
    if !(rows == [] || rows[|rows| - 1].sequence <= row.sequence) {
      var init := rows[..|rows| - 1];
      PlacedRow(init, row);
      assert placed[..|placed| - 1] == InSequence(init, row);
      assert rows == init + [rows[|rows| - 1]];
    } else {
      assert placed[..|placed| - 1] == rows;
    }
  }

  lemma {:induction false} PlacedAscends(rows: seq<Progress>, row: Progress)
    requires Ascends(rows) && forall i :: 0 <= i < |rows| ==> rows[i].sequence != row.sequence
    ensures Ascends(InSequence(rows, row))
  {
    if !(rows == [] || rows[|rows| - 1].sequence <= row.sequence) {
      var init, last := rows[..|rows| - 1], rows[|rows| - 1];
      PlacedAscends(init, row);
      PlacedRow(init, row);
      var placed := InSequence(init, row);
      forall k | 0 <= k < |placed| ensures placed[k].sequence < last.sequence {
        assert placed[k] in placed;
      }
    }
  }

  /** Reading in order loses nothing, adds nothing and puts the numbers in order. */
  lemma {:induction false} OrderedRows(rows: seq<Progress>)
    requires NumbersDistinct(rows)
    ensures |Ordered(rows)| == |rows| && TextBytes(Ordered(rows)) == TextBytes(rows) && Ascends(Ordered(rows))
    ensures forall r :: r in Ordered(rows) <==> r in rows
  {
    if rows != [] {
      var init, last := rows[..|rows| - 1], rows[|rows| - 1];
      OrderedRows(init);
      var before := Ordered(init);
      forall k | 0 <= k < |before| ensures before[k].sequence != last.sequence {
        assert before[k] in init;
      }
      PlacedAscends(before, last);
      PlacedRow(before, last);
      assert rows == init + [last];
    }
  }

  // ---- numbers without a gap -----------------------------------------------------------------

  ghost predicate HasRow(rows: seq<Progress>, number: nat) {
    exists i :: 0 <= i < |rows| && rows[i].sequence == number
  }

  ghost predicate OneTo(rows: seq<Progress>) {
    forall i :: 0 <= i < |rows| ==> rows[i].sequence == i + 1
  }

  lemma {:induction false} AtLeast(rows: seq<Progress>, i: nat)
    requires Ascends(rows) && i < |rows| && rows[0].sequence >= 1
    ensures rows[i].sequence >= i + 1
  {
    if i > 0 {
      AtLeast(rows, i - 1);
    }
  }

  lemma {:induction false} AtMost(rows: seq<Progress>, i: nat)
    requires Ascends(rows) && i < |rows| && rows[|rows| - 1].sequence <= |rows|
    ensures rows[i].sequence <= i + 1
    decreases |rows| - i
  {
    if i < |rows| - 1 {
      AtMost(rows, i + 1);
    }
  }

  /** Distinct positive numbers in order, the largest of which is their count, are one to n. */
  lemma LargestIsCount(rows: seq<Progress>)
    requires Ascends(rows) && (rows != [] ==> rows[0].sequence >= 1 && rows[|rows| - 1].sequence <= |rows|)
    ensures OneTo(rows)
  {
    forall i | 0 <= i < |rows| ensures rows[i].sequence == i + 1 {
      AtLeast(rows, i);
      AtMost(rows, i);
    }
  }

  /** So are they if every number up to their count is there. */
  lemma {:induction false} AllThere(rows: seq<Progress>, n: nat)
    requires Ascends(rows) && (rows != [] ==> rows[0].sequence >= 1) && n <= |rows|
    requires forall k :: 1 <= k <= |rows| ==> HasRow(rows, k)
    ensures OneTo(rows[..n])
  {
    if n > 0 {
      AllThere(rows, n - 1);
      assert forall i :: 0 <= i < n - 1 ==> rows[..n - 1][i] == rows[i];
      AtLeast(rows, n - 1);
      assert HasRow(rows, n);
      var j :| 0 <= j < |rows| && rows[j].sequence == n;
    }
  }

  lemma {:induction false} MaxOf(rows: seq<Progress>)
    ensures forall r :: r in rows ==> r.sequence <= MaxSequence(rows)
    ensures rows != [] ==> exists r :: r in rows && r.sequence == MaxSequence(rows)
  {
    if rows != [] {
      var init, last := rows[..|rows| - 1], rows[|rows| - 1];
      MaxOf(init);
      assert rows == init + [last];
      assert last in rows;
    }
  }

  // ---- the records of one task ---------------------------------------------------------------

  lemma {:induction false} RowsCome(records: seq<ProgressRecord>, task: Id, row: Progress)
    ensures row in RowsOf(records, task) <==> exists i :: 0 <= i < |records| && records[i].task == task && RecordToProgress(records[i]) == row
  {
    if records != [] {
      var init, last := records[..|records| - 1], records[|records| - 1];
      RowsCome(init, task, row);
      if exists i :: 0 <= i < |init| && init[i].task == task && RecordToProgress(init[i]) == row {
        var i :| 0 <= i < |init| && init[i].task == task && RecordToProgress(init[i]) == row;
        assert records[i] == init[i];
      }
    }
  }

  ghost predicate Unlike(records: seq<ProgressRecord>) {
    forall i, j :: 0 <= i < j < |records| ==> (records[i].task, records[i].sequence) != (records[j].task, records[j].sequence)
  }

  lemma {:induction false} RowsDiffer(records: seq<ProgressRecord>, task: Id)
    requires Unlike(records)
    ensures NumbersDistinct(RowsOf(records, task))
  {
    if records != [] {
      var init, last := records[..|records| - 1], records[|records| - 1];
      RowsDiffer(init, task);
      var before := RowsOf(init, task);
      forall k | 0 <= k < |before| && last.task == task ensures before[k].sequence != last.sequence {
        RowsCome(init, task, before[k]);
        assert before[k] in before;
        var i :| 0 <= i < |init| && init[i].task == task && RecordToProgress(init[i]) == before[k];
        assert records[i] == init[i];
      }
    }
  }

  ghost predicate HasNumber(records: seq<ProgressRecord>, task: Id, number: nat) {
    exists i :: 0 <= i < |records| && records[i].task == task && records[i].sequence == number
  }

  /** The task's numbers are one to n, each used once. */
  ghost predicate NumberedExactly(records: seq<ProgressRecord>, task: Id) {
    forall k :: 1 <= k <= CountOf(records, task) ==> HasNumber(records, task, k)
  }

  ghost predicate Positive(records: seq<ProgressRecord>) {
    forall i :: 0 <= i < |records| ==> records[i].sequence >= 1
  }

  lemma RowNumber(records: seq<ProgressRecord>, task: Id, number: nat)
    requires Unlike(records)
    ensures HasNumber(records, task, number) <==> HasRow(ProgressOf(records, task), number)
  {
    hide Ordered, RowsOf;
    var rows := RowsOf(records, task);
    RowsDiffer(records, task);
    OrderedRows(rows);
    if HasNumber(records, task, number) {
      var i :| 0 <= i < |records| && records[i].task == task && records[i].sequence == number;
      RowsCome(records, task, RecordToProgress(records[i]));
      var j :| 0 <= j < |Ordered(rows)| && Ordered(rows)[j] == RecordToProgress(records[i]);
      assert Ordered(rows)[j].sequence == number;
    }
    if HasRow(Ordered(rows), number) {
      var j :| 0 <= j < |Ordered(rows)| && Ordered(rows)[j].sequence == number;
      assert Ordered(rows)[j] in rows;
      RowsCome(records, task, Ordered(rows)[j]);
    }
  }

  lemma PositiveRows(records: seq<ProgressRecord>, task: Id)
    requires Unlike(records) && Positive(records)
    ensures var rows := ProgressOf(records, task); rows != [] ==> rows[0].sequence >= 1
    ensures var rows := ProgressOf(records, task); Ascends(rows) && |rows| == CountOf(records, task) && TextBytes(rows) == BytesOf(records, task)
  {
    hide Ordered, RowsOf, CountOf, BytesOf, LastOf;
    RowsDiffer(records, task);
    OrderedRows(RowsOf(records, task));
    CountIsLength(records, task);
    var rows := Ordered(RowsOf(records, task));
    if rows != [] {
      assert rows[0] in RowsOf(records, task);
      RowsCome(records, task, rows[0]);
    }
  }

  lemma LargestRow(records: seq<ProgressRecord>, task: Id)
    requires Unlike(records)
    ensures var rows := ProgressOf(records, task); rows != [] ==> rows[|rows| - 1].sequence == LastOf(records, task)
  {
    hide Ordered, RowsOf, CountOf, BytesOf, LastOf, MaxSequence;
    RowsDiffer(records, task);
    OrderedRows(RowsOf(records, task));
    CountIsLength(records, task);
    var rows := Ordered(RowsOf(records, task));
    MaxOf(RowsOf(records, task));
    if rows != [] {
      assert rows[|rows| - 1] in RowsOf(records, task);
      var r :| r in RowsOf(records, task) && r.sequence == MaxSequence(RowsOf(records, task));
      var j :| 0 <= j < |rows| && rows[j] == r;
    }
  }

  /** The validator's last test, that the largest number is the count, is that the numbers are exactly one to n, and
      then the imported rows are numbered as an agent's own reports are. */
  lemma NoGap(records: seq<ProgressRecord>, task: Id)
    requires Unlike(records) && Positive(records)
    ensures LastOf(records, task) == CountOf(records, task) <==> NumberedExactly(records, task)
    ensures NumberedExactly(records, task) <==> OneTo(ProgressOf(records, task))
  {
    hide ProgressOf, CountOf, LastOf, BytesOf;
    var rows := ProgressOf(records, task);
    PositiveRows(records, task);
    LargestRow(records, task);
    NoneCounted(records, task);
    forall k ensures HasNumber(records, task, k) <==> HasRow(rows, k) {
      RowNumber(records, task, k);
    }
    if LastOf(records, task) == CountOf(records, task) {
      LargestIsCount(rows);
    }
    if NumberedExactly(records, task) {
      AllThere(rows, |rows|);
      assert rows[..|rows|] == rows;
    }
    if OneTo(rows) {
      forall k | 1 <= k <= |rows| ensures HasRow(rows, k) {
        assert rows[k - 1].sequence == k;
      }
    }
  }

  lemma NoneCounted(records: seq<ProgressRecord>, task: Id)
    ensures CountOf(records, task) == 0 ==> LastOf(records, task) == 0
  {
    CountIsLength(records, task);
  }

  /** The validity of progress records, in terms of what they are. */
  lemma ValidProgressMeans(tasks: set<Id>, agents: set<Id>, records: seq<ProgressRecord>)
    ensures ValidProgress(tasks, agents, records) <==>
              (&& (forall i :: 0 <= i < |records| ==> KnownProgress(tasks, agents, records[i])) && Unlike(records)
               && (forall i :: 0 <= i < |records| ==> WithinLimits(records, records[i].task) && NumberedExactly(records, records[i].task)))
  {
    hide NumberedExactly, WithinLimits, LastOf, CountOf, ProgressOf;
    if Unlike(records) && Positive(records) {
      forall i | 0 <= i < |records| ensures LastOf(records, records[i].task) == CountOf(records, records[i].task) <==> NumberedExactly(records, records[i].task) {
        NoGap(records, records[i].task);
      }
    }
  }

  /** Importing valid progress records gives rows that are numbered from one and within the limits. */
  lemma ProgressHolds(tasks: map<Id, Task>, agents: map<Id, AgentRow>, records: seq<ProgressRecord>)
    requires ValidProgress(tasks.Keys, agents.Keys, records)
    ensures ProgressRows(ProgressIn(tasks.Keys, records), tasks, agents)
  {
    hide ProgressOf, CountOf, BytesOf, LastOf, NumberedExactly;
    var progress := ProgressIn(tasks.Keys, records);
    assert Positive(records) && Unlike(records);
    forall id | id in progress
      ensures |progress[id]| <= PROGRESS_CAP && TextBytes(progress[id]) <= PROGRESS_BYTES && OneTo(progress[id])
      ensures forall i :: 0 <= i < |progress[id]| ==> progress[id][i].agent in agents
    {
      PositiveRows(records, id);
      NoGap(records, id);
      TaskLimits(tasks.Keys, agents.Keys, records, id);
      forall i | 0 <= i < |progress[id]| ensures progress[id][i].agent in agents {
        RowAgent(tasks.Keys, agents.Keys, records, id, i);
      }
    }
  }

  lemma TaskLimits(tasks: set<Id>, agents: set<Id>, records: seq<ProgressRecord>, task: Id)
    requires ValidProgress(tasks, agents, records)
    ensures WithinLimits(records, task) && LastOf(records, task) == CountOf(records, task)
  {
    hide CountOf, BytesOf, LastOf;
    if forall i :: 0 <= i < |records| ==> records[i].task != task {
      NoneOf(records, task);
    }
  }

  lemma RowAgent(tasks: set<Id>, agents: set<Id>, records: seq<ProgressRecord>, task: Id, i: nat)
    requires ValidProgress(tasks, agents, records) && i < |ProgressOf(records, task)|
    ensures ProgressOf(records, task)[i].agent in agents
  {
    hide Ordered, RowsOf, CountOf, BytesOf, LastOf;
    RowsDiffer(records, task);
    OrderedRows(RowsOf(records, task));
    var row := ProgressOf(records, task)[i];
    assert row in RowsOf(records, task);
    RowsCome(records, task, row);
    var k :| 0 <= k < |records| && records[k].task == task && RecordToProgress(records[k]) == row;
    assert KnownProgress(tasks, agents, records[k]);
  }
}
