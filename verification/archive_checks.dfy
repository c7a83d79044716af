/** The validator of archives, loop by loop, against what a valid archive is (bus/archive.go validateArchive). */
module ArchiveChecks {
  import opened Model
  import opened Scopes
  import opened RemoteWork
  import opened Tables
  import opened Archives
  import opened TaskSearch

  // ---- agents and links ----------------------------------------------------------------------

  predicate ValidLinks(agents: set<Id>, links: set<(Id, Id)>) {
    forall pair :: pair in links ==> pair.0 in agents && pair.1 in agents && pair.0 < pair.1
  }

  /** No identifier occurs twice; on success `seen` holds them all. */
  method CheckIds<T>(entries: seq<Entry<T>>) returns (ok: bool, seen: set<Id>)
    ensures ok <==> UniqueIds(entries)
    ensures ok ==> seen == IdsOf(entries)
  {
    seen := {};
    for i := 0 to |entries|
      invariant forall j, k :: 0 <= j < k < i ==> entries[j].id != entries[k].id
      invariant seen == IdsOf(entries[..i])
    {
      assert IdsOf(entries[..i + 1]) == IdsOf(entries[..i]) + {entries[i].id};
      assert forall j :: 0 <= j < i ==> entries[..i][j].id in IdsOf(entries[..i]);
      if entries[i].id in seen {
        var j :| 0 <= j < i && entries[j].id == entries[i].id;
        return false, seen;
      }
      seen := seen + {entries[i].id};
    }
    assert entries[..|entries|] == entries;
    ok := true;
  }

  method CheckLinks(agents: set<Id>, links: set<(Id, Id)>) returns (ok: bool)
    ensures ok <==> ValidLinks(agents, links)
  {
    var rest := links;
    while rest != {}
      invariant rest <= links && forall pair :: pair in links && pair !in rest ==> pair.0 in agents && pair.1 in agents && pair.0 < pair.1
      decreases |rest|
    {
      var pair :| pair in rest;
      if pair.0 !in agents || pair.1 !in agents || pair.0 >= pair.1 {
        return false;
      }
      rest := rest - {pair};
    }
    ok := true;
  }

  // ---- messages: first pass ------------------------------------------------------------------

  predicate KnownEnds(agents: set<Id>, m: MessageRecord) {
    (m.from.kind.AgentKind? ==> m.from.id in agents) && (m.to.kind.AgentKind? ==> m.to.id in agents)
  }

  predicate SameKey(m: MessageRecord, n: MessageRecord) {
    m.key.Some? && m.key == n.key && m.from == n.from
  }

  function CountLive(entries: seq<Entry<MessageRecord>>): nat {
    if entries == [] then 0 else
      CountLive(entries[..|entries| - 1]) + if Live(entries[|entries| - 1].row.state) then 1 else 0
  }

  predicate ValidMessages(agents: set<Id>, entries: seq<Entry<MessageRecord>>) {
    && UniqueIds(entries)
    && (forall i :: 0 <= i < |entries| ==> KnownEnds(agents, entries[i].row) && entries[i].row.state != Reserved)
    && (forall i, j :: 0 <= i < j < |entries| ==> !SameKey(entries[i].row, entries[j].row))
    && CountLive(entries) <= BACKLOG_CAP
  }

  function KeysOf(entries: seq<Entry<MessageRecord>>): set<(Participant, Id)> {
    set i | 0 <= i < |entries| && entries[i].row.key.Some? :: (entries[i].row.from, entries[i].row.key.value)
  }

  method CheckMessages(agents: set<Id>, entries: seq<Entry<MessageRecord>>) returns (ok: bool)
    ensures ok <==> ValidMessages(agents, entries)
  {
    var unique, _ := CheckIds(entries);
    if !unique {
      return false;
    }
    var keys, live := {}, 0;
    assert entries[..0] == [];
    for i := 0 to |entries|
      invariant forall j :: 0 <= j < i ==> KnownEnds(agents, entries[j].row) && entries[j].row.state != Reserved
      invariant forall j, k :: 0 <= j < k < i ==> !SameKey(entries[j].row, entries[k].row)
      invariant keys == KeysOf(entries[..i]) && live == CountLive(entries[..i])
    {
      var m := entries[i].row;
      assert entries[..i + 1][..i] == entries[..i];
      KeysMore(entries, i);
      if !KnownEnds(agents, m) || m.state == Reserved {
        return false;
      }
      if m.key.Some? {
        if (m.from, m.key.value) in keys {
          var j :| 0 <= j < i && entries[j].row.key.Some? && (entries[j].row.from, entries[j].row.key.value) == (m.from, m.key.value);
          assert SameKey(entries[j].row, entries[i].row);
          return false;
        }
        keys := keys + {(m.from, m.key.value)};
      }
      live := live + if Live(m.state) then 1 else 0;
    }
    assert entries[..|entries|] == entries;
    ok := live <= BACKLOG_CAP;
  }

  lemma KeysMore(entries: seq<Entry<MessageRecord>>, i: nat)
    requires i < |entries|
    ensures KeysOf(entries[..i + 1]) == KeysOf(entries[..i]) + if entries[i].row.key.Some? then {(entries[i].row.from, entries[i].row.key.value)} else {}
    ensures entries[i].row.key.Some? && (entries[i].row.from, entries[i].row.key.value) !in KeysOf(entries[..i])
            ==> forall j :: 0 <= j < i ==> !SameKey(entries[j].row, entries[i].row)
  {
    var more, less := entries[..i + 1], entries[..i];
    assert forall j :: 0 <= j < i ==> more[j] == less[j] == entries[j];
    assert more[i] == entries[i];
    forall key ensures key in KeysOf(more) <==> key in KeysOf(less) || (entries[i].row.key.Some? && key == (entries[i].row.from, entries[i].row.key.value)) {
      if key in KeysOf(less) {
        var j :| 0 <= j < |less| && less[j].row.key.Some? && (less[j].row.from, less[j].row.key.value) == key;
        assert more[j].row.key.Some?;
      }
    }
    if entries[i].row.key.Some? && (entries[i].row.from, entries[i].row.key.value) !in KeysOf(less) {
      forall j | 0 <= j < i ensures !SameKey(entries[j].row, entries[i].row) {
        assert less[j].row.key.Some? ==> (less[j].row.from, less[j].row.key.value) in KeysOf(less);
      }
    }
  }

  // ---- messages: second pass -----------------------------------------------------------------

  /** A response and its request name each other, with swapped ends; nothing else names a reply. */
  predicate ValidReply(messages: map<Id, MessageRecord>, id: Id, m: MessageRecord) {
    && (if m.mode == Response then
          && m.responseTo.Some? && m.responseTo.value in messages
          && var request := messages[m.responseTo.value];
          && request.mode == Request && request.from == m.to && request.to == m.from && request.response == Some(id) && request.repliedAt.Some?
        else m.responseTo.None?)
    && (m.mode != Request ==> m.response.None? && m.repliedAt.None?)
    && (if m.response.Some? then
          m.mode == Request && m.response.value in messages && messages[m.response.value].responseTo == Some(id) && m.repliedAt.Some?
        else m.repliedAt.None?)
  }

  predicate ValidStamps(m: MessageRecord) {
    match m.state
    case Queued => m.deliveredAt.None? && m.acknowledgedAt.None?
    case Reserved => true
    case Delivered => m.deliveredAt.Some? && m.acknowledgedAt.None?
    case Acknowledged => m.deliveredAt.Some? && m.acknowledgedAt.Some?
    case Expired => m.expiresAt.Some? && m.acknowledgedAt.None?
  }

  predicate ValidReplies(entries: seq<Entry<MessageRecord>>) {
    forall i :: 0 <= i < |entries| ==> ValidReply(TableOf(entries), entries[i].id, entries[i].row) && ValidStamps(entries[i].row)
  }

  method CheckReplies(entries: seq<Entry<MessageRecord>>) returns (ok: bool)
    ensures ok <==> ValidReplies(entries)
  {
    var messages := TableOf(entries);
    for i := 0 to |entries|
      invariant forall j :: 0 <= j < i ==> ValidReply(messages, entries[j].id, entries[j].row) && ValidStamps(entries[j].row)
    {
      var id, m := entries[i].id, entries[i].row;
      if m.mode == Response {
        if m.responseTo.None? || m.responseTo.value !in messages {
          return false;
        }
        var request := messages[m.responseTo.value];
        if request.mode != Request || request.from != m.to || request.to != m.from || request.response != Some(id) || request.repliedAt.None? {
          return false;
        }
      } else if m.responseTo.Some? {
        return false;
      }
      if m.mode != Request && (m.response.Some? || m.repliedAt.Some?) {
        return false;
      }
      if m.response.Some? {
        if m.mode != Request || m.response.value !in messages || messages[m.response.value].responseTo != Some(id) || m.repliedAt.None? {
          return false;
        }
      } else if m.repliedAt.Some? {
        return false;
      }
      var stamped := match m.state
        case Queued => m.deliveredAt.None? && m.acknowledgedAt.None?
        case Reserved => true
        case Delivered => m.deliveredAt.Some? && m.acknowledgedAt.None?
        case Acknowledged => m.deliveredAt.Some? && m.acknowledgedAt.Some?
        case Expired => m.expiresAt.Some? && m.acknowledgedAt.None?;
      if !stamped {
        return false;
      }
    }
    ok := true;
  }

  // ---- tasks ---------------------------------------------------------------------------------

  predicate ValidTask(agents: set<Id>, t: TaskRecord) {
    && t.status != Claimed
    && (t.createdBy.Some? ==> t.createdBy.value in agents)
    && (t.status == Done ==> t.claimedBy.Some? && t.claimedBy.value in agents)
    && (t.status == Open ==> t.claimedBy.None?)
  }

  function CountOpen(entries: seq<Entry<TaskRecord>>): nat {
    if entries == [] then 0 else
      CountOpen(entries[..|entries| - 1]) + if entries[|entries| - 1].row.status == Open then 1 else 0
  }

  predicate ValidTasks(agents: set<Id>, entries: seq<Entry<TaskRecord>>) {
    && UniqueIds(entries)
    && (forall i :: 0 <= i < |entries| ==> ValidTask(agents, entries[i].row))
    && CountOpen(entries) <= ACTIVE_TASK_CAP
  }

  method CheckTasks(agents: set<Id>, entries: seq<Entry<TaskRecord>>) returns (ok: bool)
    ensures ok <==> ValidTasks(agents, entries)
  {
    var unique, _ := CheckIds(entries);
    if !unique {
      return false;
    }
    var open := 0;
    assert entries[..0] == [];
    for i := 0 to |entries|
      invariant forall j :: 0 <= j < i ==> ValidTask(agents, entries[j].row)
      invariant open == CountOpen(entries[..i])
    {
      var t := entries[i].row;
      assert entries[..i + 1][..i] == entries[..i];
      if t.status == Claimed {
        return false;
      }
      if t.status == Open {
        open := open + 1;
      }
      if t.createdBy.Some? && t.createdBy.value !in agents {
        return false;
      }
      if t.status == Done && (t.claimedBy.None? || t.claimedBy.value !in agents) {
        return false;
      }
      if t.status == Open && t.claimedBy.Some? {
        return false;
      }
    }
    assert entries[..|entries|] == entries;
    ok := open <= ACTIVE_TASK_CAP;
  }

  /** Each dependency is another task of the archive, named once. */
  predicate ValidDependencies(tasks: set<Id>, id: Id, dependencies: seq<Id>) {
    && (forall i :: 0 <= i < |dependencies| ==> dependencies[i] != id && dependencies[i] in tasks)
    && (forall i, j :: 0 <= i < j < |dependencies| ==> dependencies[i] != dependencies[j])
  }

  method CheckDependencies(tasks: set<Id>, id: Id, dependencies: seq<Id>) returns (ok: bool)
    ensures ok <==> ValidDependencies(tasks, id, dependencies)
  {
    var seen := {};
    for i := 0 to |dependencies|
      invariant forall j :: 0 <= j < i ==> dependencies[j] != id && dependencies[j] in tasks
      invariant forall j, k :: 0 <= j < k < i ==> dependencies[j] != dependencies[k]
      invariant forall d :: d in seen <==> d in dependencies[..i]
    {
      assert dependencies[..i + 1] == dependencies[..i] + [dependencies[i]];
      if dependencies[i] == id || dependencies[i] !in tasks || dependencies[i] in seen {
        assert dependencies[i] in seen ==> exists j :: 0 <= j < i && dependencies[j] == dependencies[i];
        return false;
      }
      seen := seen + {dependencies[i]};
    }
    ok := true;
  }

  /** The dependency lists by task. */
  function Graph(entries: seq<Entry<TaskRecord>>): map<Id, seq<Id>> {
    var tasks := TableOf(entries);
    map id | id in tasks :: tasks[id].dependencies
  }

  ghost predicate ValidGraph(entries: seq<Entry<TaskRecord>>) {
    && (forall i :: 0 <= i < |entries| ==> ValidDependencies(IdsOf(entries), entries[i].id, entries[i].row.dependencies))
    && HasRank(Graph(entries))
  }

  lemma GraphIsClosed(entries: seq<Entry<TaskRecord>>)
    requires UniqueIds(entries) && forall i :: 0 <= i < |entries| ==> ValidDependencies(IdsOf(entries), entries[i].id, entries[i].row.dependencies)
    ensures Closed(Graph(entries))
  {
    TableIds(entries);
    forall id, d | id in Graph(entries) && d in Graph(entries)[id] ensures d in Graph(entries) {
      var i := TableRow(entries, id);
    }
  }

  method CheckGraph(entries: seq<Entry<TaskRecord>>, world: World) returns (ok: bool)
    requires UniqueIds(entries)
    ensures ok <==> ValidGraph(entries)
  {
    var tasks := IdsOf(entries);
    for i := 0 to |entries|
      invariant forall j :: 0 <= j < i ==> ValidDependencies(tasks, entries[j].id, entries[j].row.dependencies)
    {
      var valid := CheckDependencies(tasks, entries[i].id, entries[i].row.dependencies);
      if !valid {
        return false;
      }
    }
    GraphIsClosed(entries);
    var graph := Graph(entries);
    assert Lists(world.order(graph.Keys), graph.Keys);
    ok := Accepts(graph, world.order(graph.Keys));
  }

  // ---- progress ------------------------------------------------------------------------------

  function CountOf(records: seq<ProgressRecord>, task: Id): nat {
    if records == [] then 0 else CountOf(records[..|records| - 1], task) + if records[|records| - 1].task == task then 1 else 0
  }

  function BytesOf(records: seq<ProgressRecord>, task: Id): nat {
    if records == [] then 0 else
      BytesOf(records[..|records| - 1], task) + if records[|records| - 1].task == task then |records[|records| - 1].text| else 0
  }

  function LastOf(records: seq<ProgressRecord>, task: Id): nat {
    if records == [] then 0 else
      var last := LastOf(records[..|records| - 1], task);
      if records[|records| - 1].task == task && records[|records| - 1].sequence > last then records[|records| - 1].sequence else last
  }

  predicate KnownProgress(tasks: set<Id>, agents: set<Id>, p: ProgressRecord) {
    p.task in tasks && p.agent in agents && p.sequence >= 1
  }

  predicate WithinLimits(records: seq<ProgressRecord>, task: Id) {
    CountOf(records, task) <= PROGRESS_CAP && BytesOf(records, task) <= PROGRESS_BYTES
  }

  /** Progress numbers are distinct, within the limits, and without a gap. */
  predicate ValidProgress(tasks: set<Id>, agents: set<Id>, records: seq<ProgressRecord>) {
    && (forall i :: 0 <= i < |records| ==> KnownProgress(tasks, agents, records[i]))
    && (forall i, j :: 0 <= i < j < |records| ==> (records[i].task, records[i].sequence) != (records[j].task, records[j].sequence))
    && (forall i :: 0 <= i < |records| ==> WithinLimits(records, records[i].task))
    && (forall i :: 0 <= i < |records| ==> LastOf(records, records[i].task) == CountOf(records, records[i].task))
  }

  lemma {:induction false} LimitsGrow(records: seq<ProgressRecord>, n: nat, task: Id)
    requires n <= |records|
    ensures CountOf(records[..n], task) <= CountOf(records, task) && BytesOf(records[..n], task) <= BytesOf(records, task)
  {
    if n < |records| {
      LimitsGrow(records[..|records| - 1], n, task);
      assert records[..|records| - 1][..n] == records[..n];
    } else {
      assert records[..n] == records;
    }
  }

  /** A prefix over the limits is a list over the limits. */
  lemma LimitsMet(records: seq<ProgressRecord>, n: nat, task: Id, count: nat, size: nat)
    requires n <= |records| && count == CountOf(records[..n], task) && size == BytesOf(records[..n], task)
    ensures WithinLimits(records[..n], task) <==> count <= PROGRESS_CAP && size <= PROGRESS_BYTES
    ensures WithinLimits(records, task) ==> WithinLimits(records[..n], task)
  {
    LimitsGrow(records, n, task);
  }

  ghost predicate Mentions(records: seq<ProgressRecord>, task: Id) {
    exists i :: 0 <= i < |records| && records[i].task == task
  }

  lemma MentionsMore(records: seq<ProgressRecord>, p: ProgressRecord, task: Id)
    ensures Mentions(records, task) ==> Mentions(records + [p], task)
    ensures Mentions(records + [p], p.task)
  {
    var more := records + [p];
    assert more[|records|].task == p.task;
    if Mentions(records, task) {
      var i :| 0 <= i < |records| && records[i].task == task;
      assert more[i].task == task;
    }
  }

  /** The totals the loop keeps for each task it has met. */
  ghost predicate Sums(records: seq<ProgressRecord>, counts: map<Id, nat>, bytes: map<Id, nat>, lasts: map<Id, nat>) {
    && counts.Keys == bytes.Keys == lasts.Keys
    && (forall i :: 0 <= i < |records| ==> records[i].task in counts)
    && (forall task :: task in counts ==> Mentions(records, task))
    && (forall task :: task in counts ==> counts[task] == CountOf(records, task) && bytes[task] == BytesOf(records, task) && lasts[task] == LastOf(records, task))
  }

  lemma {:induction false} NoneOf(records: seq<ProgressRecord>, task: Id)
    requires forall i :: 0 <= i < |records| ==> records[i].task != task
    ensures CountOf(records, task) == 0 && BytesOf(records, task) == 0 && LastOf(records, task) == 0
  {
    if records != [] {
      NoneOf(records[..|records| - 1], task);
    }
  }

  lemma AllMentioned(records: seq<ProgressRecord>, p: ProgressRecord, tasks: set<Id>)
    requires forall task :: task in tasks ==> Mentions(records, task)
    ensures forall task :: task in tasks + {p.task} ==> Mentions(records + [p], task)
  {
    forall task | task in tasks + {p.task} ensures Mentions(records + [p], task) {
      MentionsMore(records, p, task);
    }
  }

  lemma TotalsMore(records: seq<ProgressRecord>, p: ProgressRecord, counts: map<Id, nat>, bytes: map<Id, nat>, lasts: map<Id, nat>)
    requires Sums(records, counts, bytes, lasts)
    ensures var count, size, last := if p.task in counts then counts[p.task] else 0, if p.task in bytes then bytes[p.task] else 0, if p.task in lasts then lasts[p.task] else 0;
            Sums(records + [p], counts[p.task := count + 1], bytes[p.task := size + |p.text|], lasts[p.task := if p.sequence > last then p.sequence else last])
  {
    var more := records + [p];
    assert more[..|more| - 1] == records;
    if p.task !in counts {
      NoneOf(records, p.task);
    }
    assert forall i :: 0 <= i < |records| ==> more[i] == records[i];
    AllMentioned(records, p, counts.Keys);
  }

  /** The first `n` records use no number of a task twice. */
  ghost predicate Different(records: seq<ProgressRecord>, n: nat)
    requires n <= |records|
  {
    forall j, k :: 0 <= j < k < n ==> (records[j].task, records[j].sequence) != (records[k].task, records[k].sequence)
  }

  /** The numbers that the first `n` records use. */
  ghost predicate Uses(records: seq<ProgressRecord>, n: nat, keys: set<(Id, nat)>)
    requires n <= |records|
  {
    forall key :: key in keys <==> exists j :: 0 <= j < n && (records[j].task, records[j].sequence) == key
  }

  lemma NothingUsed(records: seq<ProgressRecord>)
    ensures Different(records, 0) && Uses(records, 0, {})
  {
  }

  lemma UsesMore(records: seq<ProgressRecord>, n: nat, keys: set<(Id, nat)>)
    requires n < |records| && Different(records, n) && Uses(records, n, keys)
    ensures Uses(records, n + 1, keys + {(records[n].task, records[n].sequence)})
    ensures Different(records, n + 1) <==> (records[n].task, records[n].sequence) !in keys
  {
  }

  lemma AllDifferent(tasks: set<Id>, agents: set<Id>, records: seq<ProgressRecord>, n: nat)
    requires n <= |records|
    ensures ValidProgress(tasks, agents, records) ==> Different(records, n)
    ensures n == |records| && Different(records, n)
            ==> forall i, j :: 0 <= i < j < |records| ==> (records[i].task, records[i].sequence) != (records[j].task, records[j].sequence)
  {
    hide LastOf, CountOf, WithinLimits;
  }

  method CheckProgress(tasks: set<Id>, agents: set<Id>, records: seq<ProgressRecord>, world: World) returns (ok: bool)
    ensures ok <==> ValidProgress(tasks, agents, records)
  {
    hide Sums, LastOf, CountOf, BytesOf, WithinLimits, Different, Uses;
    var keys: set<(Id, nat)> := {};
    var counts: map<Id, nat> := map[];
    var bytes: map<Id, nat> := map[];
    var lasts: map<Id, nat> := map[];
    NoTotals();
    NothingUsed(records);
    assert records[..0] == [];
    for i := 0 to |records|
      invariant forall j :: 0 <= j < i ==> KnownProgress(tasks, agents, records[j])
      invariant Different(records, i) && Uses(records, i, keys)
      invariant Sums(records[..i], counts, bytes, lasts)
      invariant forall j :: 0 <= j < i ==> WithinLimits(records[..i], records[j].task)
    {
      var p := records[i];
      assert records[..i + 1] == records[..i] + [p];
      if !KnownProgress(tasks, agents, p) {
        return false;
      }
      UsesMore(records, i, keys);
      if (p.task, p.sequence) in keys {
        AllDifferent(tasks, agents, records, i + 1);
        return false;
      }
      keys := keys + {(p.task, p.sequence)};
      var count := if p.task in counts then counts[p.task] else 0;
      var size := if p.task in bytes then bytes[p.task] else 0;
      var last := if p.task in lasts then lasts[p.task] else 0;
      TotalsMore(records[..i], p, counts, bytes, lasts);
      counts, bytes := counts[p.task := count + 1], bytes[p.task := size + |p.text|];
      lasts := lasts[p.task := if p.sequence > last then p.sequence else last];
      TotalsAt(records[..i + 1], counts, bytes, lasts, p.task);
      LimitsMet(records, i + 1, p.task, counts[p.task], bytes[p.task]);
      if counts[p.task] > PROGRESS_CAP || bytes[p.task] > PROGRESS_BYTES {
        assert !WithinLimits(records, records[i].task);
        return false;
      }
      OthersWithin(records, i, p.task);
    }
    assert records[..|records|] == records;
    AllDifferent(tasks, agents, records, |records|);
    ok := CheckGaps(records, counts, bytes, lasts, world.order(counts.Keys), world);
  }

  /** The final pass: no task's largest number exceeds the count of its rows. */
  method CheckGaps(records: seq<ProgressRecord>, counts: map<Id, nat>, bytes: map<Id, nat>, lasts: map<Id, nat>, rows: seq<Id>, world: World) returns (ok: bool)
    requires Sums(records, counts, bytes, lasts) && rows == world.order(counts.Keys)
    ensures ok <==> forall i :: 0 <= i < |records| ==> LastOf(records, records[i].task) == CountOf(records, records[i].task)
  {
    assert Lists(rows, counts.Keys);
    for i := 0 to |rows|
      invariant forall j :: 0 <= j < i ==> LastOf(records, rows[j]) == CountOf(records, rows[j])
    {
      assert rows[i] in rows;
      if lasts[rows[i]] != counts[rows[i]] {
        assert Mentions(records, rows[i]);
        var j :| 0 <= j < |records| && records[j].task == rows[i];
        return false;
      }
    }
    forall i | 0 <= i < |records| ensures LastOf(records, records[i].task) == CountOf(records, records[i].task) {
      assert records[i].task in rows;
      var j :| 0 <= j < |rows| && rows[j] == records[i].task;
    }
    ok := true;
  }

  lemma NoTotals()
    ensures Sums([], map[], map[], map[])
  {
  }

  lemma TotalsAt(records: seq<ProgressRecord>, counts: map<Id, nat>, bytes: map<Id, nat>, lasts: map<Id, nat>, task: Id)
    requires Sums(records, counts, bytes, lasts) && task in counts
    ensures counts[task] == CountOf(records, task) && task in bytes && bytes[task] == BytesOf(records, task)
  {
  }

  lemma OthersWithin(records: seq<ProgressRecord>, i: nat, task: Id)
    requires i < |records| && records[i].task == task && WithinLimits(records[..i + 1], task)
    requires forall j :: 0 <= j < i ==> WithinLimits(records[..i], records[j].task)
    ensures forall j :: 0 <= j < i + 1 ==> WithinLimits(records[..i + 1], records[j].task)
  {
    assert records[..i + 1][..i] == records[..i];
  }

  // ---- remote work ---------------------------------------------------------------------------

  predicate ValidPublications(agents: set<Id>, entries: seq<Entry<Id>>) {
    && UniqueIds(entries) && (forall i :: 0 <= i < |entries| ==> entries[i].row in agents)
    && (forall i, j :: 0 <= i < j < |entries| ==> entries[i].row != entries[j].row)
  }

  method CheckPublications(agents: set<Id>, entries: seq<Entry<Id>>) returns (ok: bool)
    ensures ok <==> ValidPublications(agents, entries)
  {
    var unique, _ := CheckIds(entries);
    if !unique {
      return false;
    }
    var published: set<Id> := {};
    for i := 0 to |entries|
      invariant forall j :: 0 <= j < i ==> entries[j].row in agents
      invariant forall j, k :: 0 <= j < k < i ==> entries[j].row != entries[k].row
      invariant forall agent :: agent in published <==> exists j :: 0 <= j < i && entries[j].row == agent
    {
      if entries[i].row !in agents || entries[i].row in published {
        return false;
      }
      published := published + {entries[i].row};
    }
    ok := true;
  }

  predicate ValidRemoteTasks(agents: set<Id>, publications: set<Id>, entries: seq<Entry<RemoteTask>>) {
    UniqueIds(entries) && forall i :: 0 <= i < |entries| ==> entries[i].row.publication in publications && entries[i].row.target in agents
  }

  method CheckRemoteTasks(agents: set<Id>, publications: set<Id>, entries: seq<Entry<RemoteTask>>) returns (ok: bool)
    ensures ok <==> ValidRemoteTasks(agents, publications, entries)
  {
    var unique, _ := CheckIds(entries);
    if !unique {
      return false;
    }
    for i := 0 to |entries|
      invariant forall j :: 0 <= j < i ==> entries[j].row.publication in publications && entries[j].row.target in agents
    {
      if entries[i].row.publication !in publications || entries[i].row.target !in agents {
        return false;
      }
    }
    ok := true;
  }

  /** A correlation belongs to a task of its principal and to a request of that principal to the task's agent. */
  predicate ValidCorrelation(tasks: map<Id, RemoteTask>, messages: map<Id, MessageRecord>, request: Id, c: CorrelationRecord) {
    && c.task in tasks && tasks[c.task].principal == c.principal && request in messages
    && messages[request].mode == Request && messages[request].from == Participant(RemoteKind, c.principal)
    && messages[request].to == Participant(AgentKind, tasks[c.task].target)
    && (c.response.Some? ==> c.response.value in messages && messages[request].response == c.response && messages[c.response.value].responseTo == Some(request))
  }

  predicate ValidCorrelations(tasks: map<Id, RemoteTask>, messages: map<Id, MessageRecord>, entries: seq<Entry<CorrelationRecord>>) {
    && (forall i :: 0 <= i < |entries| ==> ValidCorrelation(tasks, messages, entries[i].id, entries[i].row))
    && (forall i, j :: 0 <= i < j < |entries| ==> (entries[i].row.principal, entries[i].row.client) != (entries[j].row.principal, entries[j].row.client))
  }

  method CheckCorrelations(tasks: map<Id, RemoteTask>, messages: map<Id, MessageRecord>, entries: seq<Entry<CorrelationRecord>>) returns (ok: bool)
    ensures ok <==> ValidCorrelations(tasks, messages, entries)
  {
    var keys: set<(Id, Id)> := {};
    for i := 0 to |entries|
      invariant forall j :: 0 <= j < i ==> ValidCorrelation(tasks, messages, entries[j].id, entries[j].row)
      invariant forall j, k :: 0 <= j < k < i ==> (entries[j].row.principal, entries[j].row.client) != (entries[k].row.principal, entries[k].row.client)
      invariant forall key :: key in keys <==> exists j :: 0 <= j < i && (entries[j].row.principal, entries[j].row.client) == key
    {
      var c := entries[i].row;
      if !ValidCorrelation(tasks, messages, entries[i].id, c) || (c.principal, c.client) in keys {
        return false;
      }
      keys := keys + {(c.principal, c.client)};
    }
    ok := true;
  }

  // ---- all of it -----------------------------------------------------------------------------

  ghost predicate Valid(a: Archive) {
    var agents := IdsOf(a.agents);
    && UniqueIds(a.agents) && ValidLinks(agents, a.links)
    && ValidMessages(agents, a.messages) && ValidReplies(a.messages)
    && ValidTasks(agents, a.tasks) && ValidGraph(a.tasks)
    && ValidProgress(IdsOf(a.tasks), agents, a.progress)
    && ValidPublications(agents, a.publications) && ValidRemoteTasks(agents, IdsOf(a.publications), a.remoteTasks)
    && ValidCorrelations(TableOf(a.remoteTasks), TableOf(a.messages), a.correlations)
  }

  /** The validator accepts an archive if and only if it is valid, and always answers. */
  method Validate(a: Archive, world: World) returns (ok: bool)
    ensures ok <==> Valid(a)
  {
    hide UniqueIds, ValidLinks, ValidMessages, ValidReplies, ValidTasks, ValidGraph, ValidProgress, ValidPublications, ValidRemoteTasks, ValidCorrelations, IdsOf, TableOf;
    var unique, agents := CheckIds(a.agents);
    if !unique {
      return false;
    }
    ok := CheckLinks(agents, a.links);
    if !ok {
      return;
    }
    ok := CheckMessages(agents, a.messages);
    if !ok {
      return;
    }
    ok := CheckReplies(a.messages);
    if !ok {
      return;
    }
    ok := CheckTasks(agents, a.tasks);
    if !ok {
      return;
    }
    TasksAreUnique(agents, a.tasks);
    ok := CheckGraph(a.tasks, world);
    if !ok {
      return;
    }
    ok := CheckProgress(IdsOf(a.tasks), agents, a.progress, world);
    if !ok {
      return;
    }
    ok := CheckPublications(agents, a.publications);
    if !ok {
      return;
    }
    ok := CheckRemoteTasks(agents, IdsOf(a.publications), a.remoteTasks);
    if !ok {
      return;
    }
    ok := CheckCorrelations(TableOf(a.remoteTasks), TableOf(a.messages), a.correlations);
  }

  lemma TasksAreUnique(agents: set<Id>, entries: seq<Entry<TaskRecord>>)
    requires ValidTasks(agents, entries)
    ensures UniqueIds(entries)
  {
  }
}
