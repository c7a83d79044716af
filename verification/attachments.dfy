/** Attachment files and their metadata, with a crash between any two steps: bus/attachments.go and
    bus/attachments_archive.go. */
module Attachments {
  import opened Model

  const ORPHAN_AGE: Time := 3_600_000
  const TOMBSTONE_AGE: Time := 2_592_000_000

  /** A file as the program sees it, and whether its bytes and its directory entry would survive a power loss. */
  datatype File = File(content: string, synced: bool, listed: bool, modifiedAt: Time)

  /** Committed metadata. The recorded size and digest are those of `content`, which they determine. */
  datatype Row = Row(scope: Id, content: string, deletedAt: Time)

  datatype Item = Item(id: Id, content: string)

  /** Between items, with some bytes of the current item's file written, or with all of them synced. */
  datatype Stage = Between | Writing(written: nat) | Flushed

  /** An upload or an import under way, under the shared maintenance lock. */
  datatype Writer = Writer(importing: bool, scope: Id, items: seq<Item>, done: nat, stage: Stage)

  /** A deletion or a collection under way, under the exclusive lock. A collection knows what one query told it. */
  datatype Cleaner = Deleting(id: Id) | Collecting(batch: set<Id>, known: map<Id, Time>, now: Time)

  datatype Disk = Disk(files: map<Id, File>, rows: map<Id, Row>, writers: map<Id, Writer>, cleaner: Option<Cleaner>, issued: set<Id>)

  datatype Step =
    | BeginUpload(writer: Id, id: Id, scope: Id, content: string)
    | BeginImport(writer: Id, scope: Id, items: seq<Item>)
    | Create(writer: Id, now: Time) | Write(writer: Id, written: nat, now: Time) | SyncFile(writer: Id) | SyncDirectory(writer: Id)
    | Reuse(writer: Id) | CommitRows(writer: Id) | Fail(writer: Id, removing: bool)
    | Tombstone(id: Id, now: Time) | UnlinkDeleted
    | BeginCollect(now: Time) | ReadBatch(batch: set<Id>) | Unlink(id: Id) | PurgeRows | EndClean
    | DeleteScope(scope: Id)
    | Kill
    | PowerLoss(kept: Id -> Option<string>)

  function ItemIds(items: seq<Item>): set<Id> {
    set i | 0 <= i < |items| :: items[i].id
  }

  predicate UniqueItems(items: seq<Item>) {
    forall i, j :: 0 <= i < j < |items| ==> items[i].id != items[j].id
  }

  function Current(w: Writer): Item
    requires w.done < |w.items|
  {
    w.items[w.done]
  }

  /** A file that a collection may remove: its row is tombstoned, or it has no row and is an hour old. */
  predicate Garbage(s: Disk, known: map<Id, Time>, now: Time, id: Id) {
    id in s.files && if id in known then known[id] != 0 else s.files[id].modifiedAt + ORPHAN_AGE <= now
  }

  ghost predicate Enabled(s: Disk, step: Step) {
    match step
    case BeginUpload(w, id, _, _) => s.cleaner.None? && w !in s.writers && id !in s.issued
    case BeginImport(w, _, items) =>
      && s.cleaner.None? && w !in s.writers && UniqueItems(items) && ItemIds(items) !! s.rows.Keys
      && (forall x :: x in s.writers ==> ItemIds(s.writers[x].items) !! ItemIds(items))
    case Create(w, _) => At(s, w, Between) && Current(s.writers[w]).id !in s.files
    case Write(w, n, _) =>
      w in s.writers && s.writers[w].stage.Writing? && s.writers[w].done < |s.writers[w].items| && s.writers[w].stage.written <= n <= |Current(s.writers[w]).content|
    case SyncFile(w) => w in s.writers && s.writers[w].done < |s.writers[w].items| && s.writers[w].stage == Writing(|Current(s.writers[w]).content|)
    case SyncDirectory(w) => At(s, w, Flushed)
    case Reuse(w) =>
      && At(s, w, Between) && s.writers[w].importing
      && Current(s.writers[w]).id in s.files && s.files[Current(s.writers[w]).id].content == Current(s.writers[w]).content
    case CommitRows(w) => w in s.writers && s.writers[w].stage.Between? && s.writers[w].done == |s.writers[w].items|
    case Fail(w, removing) => w in s.writers && (removing ==> s.writers[w].stage.Writing?)
    case Tombstone(id, now) => s.cleaner.None? && s.writers == map[] && id in s.rows && s.rows[id].deletedAt == 0 && now != 0
    case UnlinkDeleted => s.cleaner.Some? && s.cleaner.value.Deleting?
    case BeginCollect(_) => s.cleaner.None? && s.writers == map[]
    case ReadBatch(_) => s.cleaner.Some? && s.cleaner.value.Collecting?
    case Unlink(id) =>
      && s.cleaner.Some? && s.cleaner.value.Collecting? && id in s.cleaner.value.batch
      && Garbage(s, s.cleaner.value.known, s.cleaner.value.now, id)
    case PurgeRows => s.cleaner.Some? && s.cleaner.value.Collecting?
    case EndClean => s.cleaner.Some?
    case DeleteScope(_) => true
    case Kill => true
    case PowerLoss(_) => true
  }

  predicate At(s: Disk, w: Id, stage: Stage) {
    w in s.writers && s.writers[w].stage == stage && s.writers[w].done < |s.writers[w].items|
  }

  function WithWriter(s: Disk, w: Id, done: nat, stage: Stage): Disk
    requires w in s.writers
  {
    s.(writers := s.writers[w := s.writers[w].(done := done, stage := stage)])
  }

  /** What a machine finds on disk after losing power: durable files as they were, of any other whatever happens to be left. */
  function Survivors(files: map<Id, File>, kept: Id -> Option<string>): map<Id, File> {
    map id | id in files && ((files[id].synced && files[id].listed) || kept(id).Some?) ::
      if files[id].synced && files[id].listed then files[id] else File(kept(id).value, true, true, files[id].modifiedAt)
  }

  function Inserted(rows: map<Id, Row>, items: seq<Item>, scope: Id): map<Id, Row> {
    if items == [] then rows else
      Inserted(rows, items[..|items| - 1], scope)[items[|items| - 1].id := Row(scope, items[|items| - 1].content, 0)]
  }

  ghost function Next(s: Disk, step: Step): Disk
    requires Enabled(s, step)
  {
    match step
    case BeginUpload(w, id, scope, content) =>
      s.(writers := s.writers[w := Writer(false, scope, [Item(id, content)], 0, Between)], issued := s.issued + {id})
    case BeginImport(w, scope, items) =>
      s.(writers := s.writers[w := Writer(true, scope, items, 0, Between)], issued := s.issued + ItemIds(items))
    case Create(w, now) => WithWriter(s, w, s.writers[w].done, Writing(0)).(files := s.files[Current(s.writers[w]).id := File("", false, false, now)])
    case Write(w, n, now) =>
      WithWriter(s, w, s.writers[w].done, Writing(n)).(files := s.files[Current(s.writers[w]).id := File(Current(s.writers[w]).content[..n], false, false, now)])
    case SyncFile(w) =>
      var id := Current(s.writers[w]).id;
      WithWriter(s, w, s.writers[w].done, Flushed).(files := if id in s.files then s.files[id := s.files[id].(synced := true)] else s.files)
    case SyncDirectory(w) => WithWriter(s, w, s.writers[w].done + 1, Between).(files := map id | id in s.files :: s.files[id].(listed := true))
    case Reuse(w) => WithWriter(s, w, s.writers[w].done + 1, Between)
    case CommitRows(w) => s.(rows := Inserted(s.rows, s.writers[w].items, s.writers[w].scope), writers := s.writers - {w})
    case Fail(w, removing) =>
      s.(writers := s.writers - {w}, files := if removing && s.writers[w].done < |s.writers[w].items| then s.files - {Current(s.writers[w]).id} else s.files)
    case Tombstone(id, now) => s.(rows := s.rows[id := s.rows[id].(deletedAt := now)], cleaner := Some(Deleting(id)))
    case UnlinkDeleted => s.(files := s.files - {s.cleaner.value.id}, cleaner := None)
    case BeginCollect(now) => s.(cleaner := Some(Collecting({}, map[], now)))
    case ReadBatch(batch) => s.(cleaner := Some(Collecting(batch, map id | id in batch && id in s.rows :: s.rows[id].deletedAt, s.cleaner.value.now)))
    case Unlink(id) => s.(files := s.files - {id})
    case PurgeRows => s.(rows := map id | id in s.rows && !(s.rows[id].deletedAt != 0 && s.rows[id].deletedAt < s.cleaner.value.now - TOMBSTONE_AGE) :: s.rows[id])
    case EndClean => s.(cleaner := None)
    case DeleteScope(scope) => s.(rows := map id | id in s.rows && s.rows[id].scope != scope :: s.rows[id])
    case Kill => s.(writers := map[], cleaner := None)
    case PowerLoss(kept) => s.(files := Survivors(s.files, kept), writers := map[], cleaner := None)
  }

  // ---- crash consistency ---------------------------------------------------------------------

  /** Every committed attachment that is not deleted has a file of exactly its recorded content. */
  ghost predicate Consistent(s: Disk) {
    forall id :: id in s.rows && s.rows[id].deletedAt == 0 ==> id in s.files && s.files[id].content == s.rows[id].content
  }

  /** ... and that file would survive a power loss. */
  ghost predicate Durable(s: Disk) {
    forall id :: id in s.rows && s.rows[id].deletedAt == 0 ==> id in s.files && s.files[id].synced && s.files[id].listed
  }

  /** A writer's finished items are on disk, and its current file holds what it has written so far. */
  ghost predicate Progressed(s: Disk, w: Writer) {
    && UniqueItems(w.items) && ItemIds(w.items) !! s.rows.Keys && ItemIds(w.items) <= s.issued && w.done <= |w.items|
    && (forall i :: 0 <= i < w.done ==> w.items[i].id in s.files && s.files[w.items[i].id].content == w.items[i].content)
    && (w.stage.Writing? ==> w.done < |w.items| && w.stage.written <= |Current(w).content|
                             && Current(w).id in s.files && s.files[Current(w).id].content == Current(w).content[..w.stage.written])
    && (w.stage.Flushed? ==> w.done < |w.items| && Current(w).id in s.files && s.files[Current(w).id].content == Current(w).content && s.files[Current(w).id].synced)
  }

  ghost predicate Sound(s: Disk) {
    && Consistent(s) && s.rows.Keys + s.files.Keys <= s.issued
    && (s.cleaner.Some? ==> s.writers == map[])
    && (forall w :: w in s.writers ==> Progressed(s, s.writers[w]))
    && (forall w, x :: w in s.writers && x in s.writers && w != x ==> ItemIds(s.writers[w].items) !! ItemIds(s.writers[x].items))
    && (s.cleaner.Some? && s.cleaner.value.Deleting? ==> s.cleaner.value.id in s.rows ==> s.rows[s.cleaner.value.id].deletedAt != 0)
    && (s.cleaner.Some? && s.cleaner.value.Collecting? ==> Knows(s, s.cleaner.value))
  }

  /** What a collection was told is still so, but for rows that have since gone with their scope. */
  ghost predicate Knows(s: Disk, c: Cleaner)
    requires c.Collecting?
  {
    && (forall id :: id in c.batch && id in s.rows ==> id in c.known && c.known[id] == s.rows[id].deletedAt)
    && c.known.Keys <= c.batch
  }

  // ---- every step but a power loss -----------------------------------------------------------

  /** The files of other writers and of live rows are not the current file of a writer. */
  lemma CurrentIsOwn(s: Disk, w: Id)
    requires Sound(s) && w in s.writers && s.writers[w].done < |s.writers[w].items|
    ensures var id := Current(s.writers[w]).id;
            && id in ItemIds(s.writers[w].items) && id !in s.rows && id in s.issued
            && (forall x, i :: x in s.writers && x != w && 0 <= i < |s.writers[x].items| ==> s.writers[x].items[i].id != id)
            && (forall i :: 0 <= i < s.writers[w].done ==> s.writers[w].items[i].id != id)
  {
    var id := Current(s.writers[w]).id;
    assert Progressed(s, s.writers[w]);
    assert id in ItemIds(s.writers[w].items);
    forall x, i | x in s.writers && x != w && 0 <= i < |s.writers[x].items| ensures s.writers[x].items[i].id != id {
      assert s.writers[x].items[i].id in ItemIds(s.writers[x].items);
    }
  }

  /** Writing one's own current file disturbs nobody else. */
  lemma FileOfWriter(s: Disk, w: Id, file: File, stage: Stage)
    requires Sound(s) && w in s.writers && s.writers[w].done < |s.writers[w].items|
    requires match stage
             case Between => true
             case Writing(n) => n <= |Current(s.writers[w]).content| && file.content == Current(s.writers[w]).content[..n]
             case Flushed => file.content == Current(s.writers[w]).content && file.synced
    ensures Sound(WithWriter(s, w, s.writers[w].done, stage).(files := s.files[Current(s.writers[w]).id := file]))
  {
    var t := WithWriter(s, w, s.writers[w].done, stage).(files := s.files[Current(s.writers[w]).id := file]);
    CurrentIsOwn(s, w);
    forall x | x in t.writers ensures Progressed(t, t.writers[x]) {
      assert Progressed(s, s.writers[x]);
    }
  }

  lemma OwnStep(s: Disk, step: Step)
    requires Sound(s) && Enabled(s, step) && (step.Create? || step.Write? || step.SyncFile?)
    ensures Sound(Next(s, step))
  {
    hide Sound, Consistent;
    match step
    case Create(w, now) => FileOfWriter(s, w, File("", false, false, now), Writing(0));
    case Write(w, n, now) => FileOfWriter(s, w, File(Current(s.writers[w]).content[..n], false, false, now), Writing(n));
    case SyncFile(w) =>
      WrittenFile(s, w);
      var id := Current(s.writers[w]).id;
      FileOfWriter(s, w, s.files[id].(synced := true), Flushed);
  }

  lemma WrittenFile(s: Disk, w: Id)
    requires Sound(s) && Enabled(s, SyncFile(w))
    ensures Current(s.writers[w]).id in s.files && s.files[Current(s.writers[w]).id].content == Current(s.writers[w]).content
  {
    assert Progressed(s, s.writers[w]);
    assert Current(s.writers[w]).content[..|Current(s.writers[w]).content|] == Current(s.writers[w]).content;
  }

  /** The current item is finished: its file has all of its content. */
  lemma ItemDone(s: Disk, w: Id, files: map<Id, File>)
    requires Sound(s) && w in s.writers && s.writers[w].done < |s.writers[w].items|
    requires files.Keys == s.files.Keys && forall id :: id in files ==> files[id].content == s.files[id].content && (s.files[id].synced ==> files[id].synced)
    requires Current(s.writers[w]).id in s.files && s.files[Current(s.writers[w]).id].content == Current(s.writers[w]).content
    ensures Sound(WithWriter(s, w, s.writers[w].done + 1, Between).(files := files))
  {
    var t := WithWriter(s, w, s.writers[w].done + 1, Between).(files := files);
    forall x | x in t.writers ensures Progressed(t, t.writers[x]) {
      assert Progressed(s, s.writers[x]);
    }
  }

  lemma DoneStep(s: Disk, step: Step)
    requires Sound(s) && Enabled(s, step) && (step.SyncDirectory? || step.Reuse?)
    ensures Sound(Next(s, step))
  {
    hide Consistent;
    var w := step.writer;
    assert Progressed(s, s.writers[w]);
    ItemDone(s, w, if step.Reuse? then s.files else map id | id in s.files :: s.files[id].(listed := true));
  }

  lemma {:induction false} InsertedRows(rows: map<Id, Row>, items: seq<Item>, scope: Id)
    requires UniqueItems(items)
    ensures forall id :: id in Inserted(rows, items, scope) <==> id in rows || id in ItemIds(items)
    ensures forall id :: id in rows && id !in ItemIds(items) ==> Inserted(rows, items, scope)[id] == rows[id]
    ensures forall i :: 0 <= i < |items| ==> items[i].id in Inserted(rows, items, scope) && Inserted(rows, items, scope)[items[i].id] == Row(scope, items[i].content, 0)
  {
    if items != [] {
      var init, last := items[..|items| - 1], items[|items| - 1];
      InsertedRows(rows, init, scope);
      assert ItemIds(items) == ItemIds(init) + {last.id};
    }
  }

  lemma CommitStep(s: Disk, w: Id)
    requires Sound(s) && Enabled(s, CommitRows(w))
    ensures Sound(Next(s, CommitRows(w)))
  {
    var mine, t := s.writers[w], Next(s, CommitRows(w));
    assert Progressed(s, mine);
    InsertedRows(s.rows, mine.items, mine.scope);
    forall id | id in t.rows && t.rows[id].deletedAt == 0 ensures id in t.files && t.files[id].content == t.rows[id].content {
      if id in ItemIds(mine.items) {
        var i :| 0 <= i < |mine.items| && mine.items[i].id == id;
      }
    }
    forall x | x in t.writers ensures Progressed(t, t.writers[x]) {
      assert Progressed(s, s.writers[x]);
    }
  }

  lemma OneItem(item: Item)
    ensures ItemIds([item]) == {item.id}
  {
    assert [item][0].id in ItemIds([item]);
  }

  lemma BeginStep(s: Disk, step: Step)
    requires Sound(s) && Enabled(s, step) && (step.BeginUpload? || step.BeginImport?)
    ensures Sound(Next(s, step))
  {
    var t := Next(s, step);
    forall x | x in t.writers ensures Progressed(t, t.writers[x]) {
      if x in s.writers {
        assert Progressed(s, s.writers[x]);
      }
    }
    if step.BeginUpload? {
      OneItem(Item(step.id, step.content));
    }
    forall x, y | x in t.writers && y in t.writers && x != y ensures ItemIds(t.writers[x].items) !! ItemIds(t.writers[y].items) {
      assert x in s.writers ==> Progressed(s, s.writers[x]);
      assert y in s.writers ==> Progressed(s, s.writers[y]);
    }
  }

  /** An error may leave a partial file behind; it never had a row. */
  lemma FailStep(s: Disk, w: Id, removing: bool)
    requires Sound(s) && Enabled(s, Fail(w, removing))
    ensures Sound(Next(s, Fail(w, removing)))
  {
    var t := Next(s, Fail(w, removing));
    if removing && s.writers[w].done < |s.writers[w].items| {
      CurrentIsOwn(s, w);
    }
    forall x | x in t.writers ensures Progressed(t, t.writers[x]) {
      assert Progressed(s, s.writers[x]);
    }
  }

  /** Only a file without a live row is ever unlinked, whether by a failed write, by a deletion or by a collection. */
  lemma UnlinksOnlyGarbage(s: Disk, step: Step, id: Id)
    requires Sound(s) && Enabled(s, step) && !step.PowerLoss? && id in s.files && id !in Next(s, step).files
    ensures step.Fail? || step.UnlinkDeleted? || step.Unlink?
    ensures id in s.rows ==> s.rows[id].deletedAt != 0
    ensures step.Fail? ==> id !in s.rows
    ensures step.Unlink? && id !in s.rows && id !in s.cleaner.value.known ==> s.files[id].modifiedAt + ORPHAN_AGE <= s.cleaner.value.now
  {
    if step.Fail? {
      CurrentIsOwn(s, step.writer);
    }
  }

  lemma CleanStep(s: Disk, step: Step)
    requires Sound(s) && Enabled(s, step)
    requires step.Tombstone? || step.UnlinkDeleted? || step.BeginCollect? || step.ReadBatch? || step.Unlink? || step.PurgeRows? || step.EndClean?
    ensures Sound(Next(s, step))
  {
  }

  lemma DeleteScopeStep(s: Disk, scope: Id)
    requires Sound(s)
    ensures Sound(Next(s, DeleteScope(scope)))
  {
    var t := Next(s, DeleteScope(scope));
    forall x | x in t.writers ensures Progressed(t, t.writers[x]) {
      assert Progressed(s, s.writers[x]);
    }
  }

  lemma KillStep(s: Disk)
    requires Sound(s)
    ensures Sound(Next(s, Kill))
  {
  }

  /** A power loss keeps every live attachment exactly when the files of all of them are durable. */
  lemma PowerLossStep(s: Disk, kept: Id -> Option<string>)
    requires Sound(s) && Durable(s)
    ensures Sound(Next(s, PowerLoss(kept))) && Durable(Next(s, PowerLoss(kept)))
  {
  }

  /** Crash consistency: whatever happens short of losing power, killing the program between any two steps included. */
  lemma EveryStepIsConsistent(s: Disk, step: Step)
    requires Sound(s) && Enabled(s, step) && (step.PowerLoss? ==> Durable(s))
    ensures Sound(Next(s, step))
  {
    hide Sound, Enabled, Durable;
    match step
    case BeginUpload(_, _, _, _) => BeginStep(s, step);
    case BeginImport(_, _, _) => BeginStep(s, step);
    case Create(_, _) => OwnStep(s, step);
    case Write(_, _, _) => OwnStep(s, step);
    case SyncFile(_) => OwnStep(s, step);
    case SyncDirectory(_) => DoneStep(s, step);
    case Reuse(_) => DoneStep(s, step);
    case CommitRows(w) => CommitStep(s, w);
    case Fail(w, removing) => FailStep(s, w, removing);
    case Tombstone(_, _) => CleanStep(s, step);
    case UnlinkDeleted => CleanStep(s, step);
    case BeginCollect(_) => CleanStep(s, step);
    case ReadBatch(_) => CleanStep(s, step);
    case Unlink(_) => CleanStep(s, step);
    case PurgeRows => CleanStep(s, step);
    case EndClean => CleanStep(s, step);
    case DeleteScope(scope) => DeleteScopeStep(s, scope);
    case Kill => KillStep(s);
    case PowerLoss(kept) => PowerLossStep(s, kept);
  }

  // ---- power loss ----------------------------------------------------------------------------

  predicate OnDisk(s: Disk, id: Id) {
    id in s.files && s.files[id].synced && s.files[id].listed
  }

  /** Every finished item of every writer would survive a power loss. */
  ghost predicate Flushing(s: Disk) {
    forall w, i :: w in s.writers && 0 <= i < s.writers[w].done && i < |s.writers[w].items| ==> OnDisk(s, s.writers[w].items[i].id)
  }

  /** A step that takes a file it did not write finds it durable. */
  predicate TakesDurable(s: Disk, step: Step) {
    step.Reuse? && step.writer in s.writers && s.writers[step.writer].done < |s.writers[step.writer].items| ==> OnDisk(s, Current(s.writers[step.writer]).id)
  }

  lemma DurableOwn(s: Disk, step: Step)
    requires Sound(s) && Durable(s) && Flushing(s) && Enabled(s, step) && (step.Create? || step.Write? || step.SyncFile?)
    ensures Durable(Next(s, step)) && Flushing(Next(s, step))
  {
    var w := step.writer;
    CurrentIsOwn(s, w);
    var t := Next(s, step);
    forall x, i | x in t.writers && 0 <= i < t.writers[x].done && i < |t.writers[x].items| ensures OnDisk(t, t.writers[x].items[i].id) {
      assert OnDisk(s, s.writers[x].items[i].id);
    }
  }

  lemma DurableDone(s: Disk, step: Step)
    requires Sound(s) && Durable(s) && Flushing(s) && Enabled(s, step) && TakesDurable(s, step) && (step.SyncDirectory? || step.Reuse?)
    ensures Durable(Next(s, step)) && Flushing(Next(s, step))
  {
    var w, t := step.writer, Next(s, step);
    assert Progressed(s, s.writers[w]);
    forall x, i | x in t.writers && 0 <= i < t.writers[x].done && i < |t.writers[x].items| ensures OnDisk(t, t.writers[x].items[i].id) {
      if x != w || i < s.writers[w].done {
        assert OnDisk(s, s.writers[x].items[i].id);
      }
    }
  }

  lemma DurableCommit(s: Disk, w: Id)
    requires Sound(s) && Durable(s) && Flushing(s) && Enabled(s, CommitRows(w))
    ensures Durable(Next(s, CommitRows(w))) && Flushing(Next(s, CommitRows(w)))
  {
    var mine, t := s.writers[w], Next(s, CommitRows(w));
    assert Progressed(s, mine);
    InsertedRows(s.rows, mine.items, mine.scope);
    forall id | id in t.rows && t.rows[id].deletedAt == 0 ensures OnDisk(t, id) {
      if id in ItemIds(mine.items) {
        var i :| 0 <= i < |mine.items| && mine.items[i].id == id;
        assert OnDisk(s, mine.items[i].id);
      }
    }
    forall x, i | x in t.writers && 0 <= i < t.writers[x].done && i < |t.writers[x].items| ensures OnDisk(t, t.writers[x].items[i].id) {
      assert OnDisk(s, s.writers[x].items[i].id);
    }
  }

  lemma DurableElse(s: Disk, step: Step)
    requires Sound(s) && Durable(s) && Flushing(s) && Enabled(s, step)
    requires !(step.Create? || step.Write? || step.SyncFile? || step.SyncDirectory? || step.Reuse? || step.CommitRows? || step.PowerLoss? || step.Fail?)
    ensures Durable(Next(s, step)) && Flushing(Next(s, step))
  {
    var t := Next(s, step);
    forall x, i | x in t.writers && 0 <= i < t.writers[x].done && i < |t.writers[x].items| ensures OnDisk(t, t.writers[x].items[i].id) {
      assert OnDisk(s, s.writers[x].items[i].id);
    }
  }

  lemma DurableFail(s: Disk, w: Id, removing: bool)
    requires Sound(s) && Durable(s) && Flushing(s) && Enabled(s, Fail(w, removing))
    ensures Durable(Next(s, Fail(w, removing))) && Flushing(Next(s, Fail(w, removing)))
  {
    var t := Next(s, Fail(w, removing));
    if removing && s.writers[w].done < |s.writers[w].items| {
      CurrentIsOwn(s, w);
    }
    forall x, i | x in t.writers && 0 <= i < t.writers[x].done && i < |t.writers[x].items| ensures OnDisk(t, t.writers[x].items[i].id) {
      assert OnDisk(s, s.writers[x].items[i].id);
    }
  }

  /** Power losses included: as long as an import takes over only durable files, every live attachment is
      always there, whole and durable. */
  lemma EveryStepIsDurable(s: Disk, step: Step)
    requires Sound(s) && Durable(s) && Flushing(s) && Enabled(s, step) && TakesDurable(s, step)
    ensures Sound(Next(s, step)) && Durable(Next(s, step)) && Flushing(Next(s, step))
  {
    EveryStepIsConsistent(s, step);
    hide Sound, Durable, Flushing, Enabled;
    if step.Create? || step.Write? || step.SyncFile? {
      DurableOwn(s, step);
    } else if step.SyncDirectory? || step.Reuse? {
      DurableDone(s, step);
    } else if step.CommitRows? {
      DurableCommit(s, step.writer);
    } else if step.Fail? {
      DurableFail(s, step.writer, step.removing);
    } else if step.PowerLoss? {
      PowerLossStep(s, step.kept);
      NobodyFlushing(s, step.kept);
    } else {
      DurableElse(s, step);
    }
  }

  lemma NobodyFlushing(s: Disk, kept: Id -> Option<string>)
    ensures Flushing(Next(s, PowerLoss(kept)))
  {
  }

  /** Taking over a file that was found keeps the finished items durable exactly when that file is. */
  lemma ReuseKeepsFlushing(s: Disk, w: Id)
    requires Sound(s) && Flushing(s) && Enabled(s, Reuse(w))
    ensures Flushing(Next(s, Reuse(w))) <==> TakesDurable(s, Reuse(w))
  {
    var t := Next(s, Reuse(w));
    if TakesDurable(s, Reuse(w)) {
      forall x, i | x in t.writers && 0 <= i < t.writers[x].done && i < |t.writers[x].items| ensures OnDisk(t, t.writers[x].items[i].id) {
        if x != w || i < s.writers[w].done {
          assert OnDisk(s, s.writers[x].items[i].id);
        }
      }
    } else {
      assert !OnDisk(t, t.writers[w].items[s.writers[w].done].id);
    }
  }

  /** Every file that the writer is about to commit would survive a power loss. */
  ghost predicate AllOnDisk(s: Disk, w: Id)
    requires w in s.writers
  {
    forall i :: 0 <= i < |s.writers[w].items| ==> OnDisk(s, s.writers[w].items[i].id)
  }

  /** A commit leaves every live file durable exactly when the files it commits are. */
  lemma CommitKeepsDurable(s: Disk, w: Id)
    requires Sound(s) && Durable(s) && Enabled(s, CommitRows(w))
    ensures Durable(Next(s, CommitRows(w))) <==> AllOnDisk(s, w)
  {
    var mine, t := s.writers[w], Next(s, CommitRows(w));
    assert Progressed(s, mine);
    InsertedRows(s.rows, mine.items, mine.scope);
    if AllOnDisk(s, w) {
      forall id | id in t.rows && t.rows[id].deletedAt == 0 ensures OnDisk(t, id) {
        if id in ItemIds(mine.items) {
          var i :| 0 <= i < |mine.items| && mine.items[i].id == id;
          assert OnDisk(s, mine.items[i].id);
        }
      }
    }
    if Durable(t) {
      forall i | 0 <= i < |mine.items| ensures OnDisk(s, mine.items[i].id) {
        assert mine.items[i].id in t.rows && t.rows[mine.items[i].id].deletedAt == 0;
      }
    }
  }

  lemma DurableButCommit(s: Disk, step: Step)
    requires Sound(s) && Durable(s) && Enabled(s, step) && !step.CommitRows?
    ensures Durable(Next(s, step))
  {
    hide UniqueItems, ItemIds;
    if step.Create? || step.Write? || step.SyncFile? {
      CurrentIsOwn(s, step.writer);
    } else if step.Fail? {
      if step.removing && s.writers[step.writer].done < |s.writers[step.writer].items| {
        CurrentIsOwn(s, step.writer);
      }
    } else if step.PowerLoss? {
      PowerLossStep(s, step.kept);
    }
  }

  /** Losing power is harmless, whatever it leaves of unfinished writes, exactly when every live file is durable. */
  lemma PowerLossIsHarmlessExactlyWhenDurable(s: Disk)
    requires Sound(s)
    ensures (forall kept: Id -> Option<string> :: Consistent(Next(s, PowerLoss(kept)))) <==> Durable(s)
  {
    if Durable(s) {
      forall kept: Id -> Option<string> ensures Consistent(Next(s, PowerLoss(kept))) {
        PowerLossStep(s, kept);
      }
    }
    if forall kept: Id -> Option<string> :: Consistent(Next(s, PowerLoss(kept))) {
      var none: Id -> Option<string> := id => None;
      var t := Next(s, PowerLoss(none));
      assert Consistent(t);
      forall id | id in s.rows && s.rows[id].deletedAt == 0 ensures id in s.files && s.files[id].synced && s.files[id].listed {
        assert id in t.files;
      }
    }
  }

  // ---- runs ----------------------------------------------------------------------------------

  const EMPTY_DISK := Disk(map[], map[], map[], None, {})

  /** What a run of steps leaves, if each of them can be taken. */
  ghost function After(s: Disk, steps: seq<Step>): Option<Disk>
    decreases |steps|
  {
    if steps == [] then Some(s) else if !Enabled(s, steps[0]) then None else After(Next(s, steps[0]), steps[1..])
  }

  /** In every run without a power loss, killing the program at any point, live attachments are whole. */
  lemma {:induction false} RunsAreConsistent(s: Disk, steps: seq<Step>)
    requires Sound(s) && After(s, steps).Some? && forall i :: 0 <= i < |steps| ==> !steps[i].PowerLoss?
    ensures Sound(After(s, steps).value)
    decreases |steps|
  {
    hide Sound, Enabled, Next;
    if steps != [] {
      EveryStepIsConsistent(s, steps[0]);
      RunsAreConsistent(Next(s, steps[0]), steps[1..]);
    }
  }

  ghost predicate AllTakeDurable(s: Disk, steps: seq<Step>)
    requires After(s, steps).Some?
    decreases |steps|
  {
    steps == [] || (TakesDurable(s, steps[0]) && AllTakeDurable(Next(s, steps[0]), steps[1..]))
  }

  /** In every run, power losses included, in which imports take over only durable files, live attachments are whole. */
  lemma {:induction false} RunsAreDurable(s: Disk, steps: seq<Step>)
    requires Sound(s) && Durable(s) && Flushing(s) && After(s, steps).Some? && AllTakeDurable(s, steps)
    ensures Sound(After(s, steps).value) && Durable(After(s, steps).value)
    decreases |steps|
  {
    hide Sound, Durable, Flushing, Enabled, Next, TakesDurable;
    if steps != [] {
      EveryStepIsDurable(s, steps[0]);
      RunsAreDurable(Next(s, steps[0]), steps[1..]);
    }
  }

  /** Every live file is durable at every point of the run. */
  ghost predicate AlwaysDurable(s: Disk, steps: seq<Step>)
    requires After(s, steps).Some?
    decreases |steps|
  {
    Durable(s) && (steps == [] || AlwaysDurable(Next(s, steps[0]), steps[1..]))
  }

  /** Every commit of the run finds its files durable. */
  ghost predicate CommitsDurable(s: Disk, steps: seq<Step>)
    requires After(s, steps).Some?
    decreases |steps|
  {
    steps == [] || ((steps[0].CommitRows? ==> AllOnDisk(s, steps[0].writer)) && CommitsDurable(Next(s, steps[0]), steps[1..]))
  }

  /** The exact condition: live attachments are durable throughout a run if and only if every commit finds its files
      durable. A power loss in such a run harms none of them. */
  lemma {:induction false} RunsAreDurableExactly(s: Disk, steps: seq<Step>)
    requires Sound(s) && Durable(s) && After(s, steps).Some?
    ensures AlwaysDurable(s, steps) <==> CommitsDurable(s, steps)
    ensures CommitsDurable(s, steps) ==> Sound(After(s, steps).value)
    decreases |steps|
  {
    hide Sound, Durable, Enabled, Next, AllOnDisk;
    if steps != [] {
      EveryStepIsConsistent(s, steps[0]);
      if steps[0].CommitRows? {
        WriterIsThere(s, steps[0].writer);
        CommitKeepsDurable(s, steps[0].writer);
      } else {
        DurableButCommit(s, steps[0]);
      }
      if Durable(Next(s, steps[0])) {
        RunsAreDurableExactly(Next(s, steps[0]), steps[1..]);
      } else {
        assert !AlwaysDurable(Next(s, steps[0]), steps[1..]);
      }
    }
  }

  lemma WriterIsThere(s: Disk, w: Id)
    requires Enabled(s, CommitRows(w))
    ensures w in s.writers
  {
  }

  /** An import that finds no file already there takes none over: runs of such imports, and of uploads, are always durable. */
  lemma {:induction false} FreshImportsAreDurable(s: Disk, steps: seq<Step>)
    requires Sound(s) && Durable(s) && Flushing(s) && After(s, steps).Some?
    requires forall i :: 0 <= i < |steps| ==> !steps[i].Reuse?
    ensures AllTakeDurable(s, steps) && AlwaysDurable(s, steps) && Sound(After(s, steps).value)
    decreases |steps|
  {
    hide Sound, Durable, Flushing, Enabled, Next;
    if steps != [] {
      EveryStepIsDurable(s, steps[0]);
      FreshImportsAreDurable(Next(s, steps[0]), steps[1..]);
    }
  }

  lemma EmptyIsSound()
    ensures Sound(EMPTY_DISK) && Durable(EMPTY_DISK) && Flushing(EMPTY_DISK)
  {
  }

  /** An import writes a file and is killed before it flushes it; a retry takes the file over and commits;
      then the power fails. */
  function LostImport(): seq<Step> {
    [BeginImport(1, 9, [Item(7, "a")]), Create(1, 5), Write(1, 1, 5), Kill, BeginImport(2, 9, [Item(7, "a")]), Reuse(2), CommitRows(2),
     PowerLoss((id: Id) => None)]
  }

  function OneByte(): seq<Item> {
    [Item(7, "a")]
  }

  /** A writer of that one item. */
  function OnlyWriter(done: nat, stage: Stage, writer: Id, files: map<Id, File>): Disk {
    Disk(files, map[], map[writer := Writer(true, 9, OneByte(), done, stage)], None, {7})
  }

  lemma Begins(s: Disk, writer: Id)
    requires s.rows == map[] && s.writers == map[] && s.cleaner == None && s.issued <= {7}
    ensures Enabled(s, BeginImport(writer, 9, OneByte())) && Next(s, BeginImport(writer, 9, OneByte())) == OnlyWriter(0, Between, writer, s.files)
  {
    OneItem(OneByte()[0]);
    assert ItemIds(OneByte()) == {7};
  }

  lemma WritesAndDies()
    ensures Enabled(OnlyWriter(0, Between, 1, map[]), Create(1, 5)) && Next(OnlyWriter(0, Between, 1, map[]), Create(1, 5)) == OnlyWriter(0, Writing(0), 1, map[7 := File("", false, false, 5)])
    ensures Enabled(OnlyWriter(0, Writing(0), 1, map[7 := File("", false, false, 5)]), Write(1, 1, 5))
    ensures Next(OnlyWriter(0, Writing(0), 1, map[7 := File("", false, false, 5)]), Write(1, 1, 5)) == OnlyWriter(0, Writing(1), 1, map[7 := File("a", false, false, 5)])
  {
    assert "a"[..1] == "a";
  }

  lemma TakesAndCommits()
    ensures var unflushed := map[7 := File("a", false, false, 5)];
            && Enabled(OnlyWriter(0, Between, 2, unflushed), Reuse(2)) && !TakesDurable(OnlyWriter(0, Between, 2, unflushed), Reuse(2))
            && Next(OnlyWriter(0, Between, 2, unflushed), Reuse(2)) == OnlyWriter(1, Between, 2, unflushed)
            && Enabled(OnlyWriter(1, Between, 2, unflushed), CommitRows(2))
            && Next(OnlyWriter(1, Between, 2, unflushed), CommitRows(2)) == Disk(unflushed, map[7 := Row(9, "a", 0)], map[], None, {7})
  {
    assert OneByte()[..0] == [];
    assert Inserted(map[], OneByte(), 9) == map[7 := Row(9, "a", 0)];
  }

  lemma LosesIt(s: Disk)
    requires s == Disk(map[7 := File("a", false, false, 5)], map[7 := Row(9, "a", 0)], map[], None, {7})
    ensures !Consistent(Next(s, LostImport()[7]))
  {
    var t := Next(s, LostImport()[7]);
    assert 7 in t.rows && 7 !in t.files;
  }

  /** The file of a committed attachment can be lost: a retried import does not flush the file it finds. */
  lemma RetriedImportCanLoseAFile()
    ensures After(EMPTY_DISK, LostImport()).Some? && !Consistent(After(EMPTY_DISK, LostImport()).value)
    ensures !AllTakeDurable(EMPTY_DISK, LostImport())
  {
    hide After, AllTakeDurable, Consistent, Enabled, TakesDurable;
    var unflushed := map[7 := File("a", false, false, 5)];
    Begins(EMPTY_DISK, 1);
    WritesAndDies();
    var killed := Disk(unflushed, map[], map[], None, {7});
    Dies(unflushed);
    Begins(killed, 2);
    TakesAndCommits();
    var committed := Disk(unflushed, map[7 := Row(9, "a", 0)], map[], None, {7});
    LosesIt(committed);
    LostRun(OnlyWriter(0, Between, 1, map[]), OnlyWriter(0, Writing(0), 1, map[7 := File("", false, false, 5)]), OnlyWriter(0, Writing(1), 1, unflushed), killed,
            OnlyWriter(0, Between, 2, unflushed), OnlyWriter(1, Between, 2, unflushed), committed);
  }

  lemma Dies(files: map<Id, File>)
    ensures Enabled(OnlyWriter(0, Writing(1), 1, files), Kill)
    ensures Next(OnlyWriter(0, Writing(1), 1, files), Kill) == Disk(files, map[], map[], None, {7})
  {
    KillIsEnabled(OnlyWriter(0, Writing(1), 1, files));
  }

  lemma LostRun(s1: Disk, s2: Disk, s3: Disk, s4: Disk, s5: Disk, s6: Disk, s7: Disk)
    requires var steps := LostImport();
             && Enabled(EMPTY_DISK, steps[0]) && s1 == Next(EMPTY_DISK, steps[0]) && Enabled(s1, steps[1]) && s2 == Next(s1, steps[1])
             && Enabled(s2, steps[2]) && s3 == Next(s2, steps[2]) && s4 == Next(s3, steps[3]) && Enabled(s4, steps[4]) && s5 == Next(s4, steps[4])
             && Enabled(s5, steps[5]) && s6 == Next(s5, steps[5]) && Enabled(s6, steps[6]) && s7 == Next(s6, steps[6])
             && !TakesDurable(s5, steps[5])
    ensures After(EMPTY_DISK, LostImport()) == Some(Next(s7, LostImport()[7])) && !AllTakeDurable(EMPTY_DISK, LostImport())
  {
    hide Next, Enabled, TakesDurable;
    var steps := LostImport();
    assert steps[1..][0] == steps[1] && steps[2..][0] == steps[2] && steps[3..][0] == steps[3] && steps[4..][0] == steps[4];
    assert steps[5..][0] == steps[5] && steps[6..][0] == steps[6] && steps[7..][0] == steps[7];
    assert steps[1..][1..] == steps[2..] && steps[2..][1..] == steps[3..] && steps[3..][1..] == steps[4..] && steps[4..][1..] == steps[5..];
    assert steps[5..][1..] == steps[6..] && steps[6..][1..] == steps[7..] && steps[7..][1..] == [];
    KillIsEnabled(s3);
    LossIsEnabled(s7);
    assert After(s7, steps[7..]) == After(Next(s7, steps[7]), []);
    assert After(s6, steps[6..]) == After(s7, steps[7..]);
    assert After(s5, steps[5..]) == After(s6, steps[6..]);
    assert After(s4, steps[4..]) == After(s5, steps[5..]);
    assert After(s3, steps[3..]) == After(s4, steps[4..]);
    assert After(s2, steps[2..]) == After(s3, steps[3..]);
    assert After(s1, steps[1..]) == After(s2, steps[2..]);
    assert !AllTakeDurable(s5, steps[5..]);
    assert !AllTakeDurable(s4, steps[4..]);
    assert !AllTakeDurable(s3, steps[3..]);
    assert !AllTakeDurable(s2, steps[2..]);
    assert !AllTakeDurable(s1, steps[1..]);
  }

  lemma KillIsEnabled(s: Disk)
    ensures Enabled(s, Kill)
  {
  }

  lemma LossIsEnabled(s: Disk)
    ensures Enabled(s, LostImport()[7])
  {
  }

  // ---- the collection as one loop ------------------------------------------------------------

  const LISTING_BATCH: nat := 256

  /** A file that a collection with nobody else at work removes. */
  predicate Collectable(files: map<Id, File>, rows: map<Id, Row>, now: Time, id: Id) {
    id in files && if id in rows then rows[id].deletedAt != 0 else files[id].modifiedAt + ORPHAN_AGE <= now
  }

  function Collected(files: map<Id, File>, rows: map<Id, Row>, now: Time, seen: seq<Id>): map<Id, File> {
    map id | id in files && !(id in seen && Collectable(files, rows, now, id)) :: files[id]
  }

  function Purged(rows: map<Id, Row>, now: Time): map<Id, Row> {
    map id | id in rows && !(rows[id].deletedAt != 0 && rows[id].deletedAt < now - TOMBSTONE_AGE) :: rows[id]
  }

  lemma CollectNext(files: map<Id, File>, rows: map<Id, Row>, now: Time, seen: seq<Id>, id: Id)
    ensures Collected(files, rows, now, seen + [id])
         == if Collectable(files, rows, now, id) then Collected(files, rows, now, seen) - {id} else Collected(files, rows, now, seen)
  {
  }

  function Remaining(files: map<Id, File>, rows: map<Id, Row>, now: Time): map<Id, File> {
    map id | id in files && !Collectable(files, rows, now, id) :: files[id]
  }

  /** SELECT attachment_id, deleted_at for one batch of directory entries. */
  function KnownRows(rows: map<Id, Row>, listing: seq<Id>, first: nat, next: nat): map<Id, Time>
    requires first <= next <= |listing|
  {
    map i | first <= i < next && listing[i] in rows :: listing[i] := rows[listing[i]].deletedAt
  }

  lemma CollectedAll(files: map<Id, File>, rows: map<Id, Row>, now: Time, listing: seq<Id>)
    requires Lists(listing, files.Keys)
    ensures Collected(files, rows, now, listing) == Remaining(files, rows, now)
  {
  }

  /** A collection keeps every live attachment's file as it is, and removes rows of deleted attachments only. */
  lemma CollectionSparesTheLiving(files: map<Id, File>, rows: map<Id, Row>, now: Time, id: Id)
    ensures id in rows && rows[id].deletedAt == 0 ==> id in Purged(rows, now) && (id in files ==> id in Remaining(files, rows, now) && Remaining(files, rows, now)[id] == files[id])
    ensures id in files && id !in Remaining(files, rows, now) ==> if id in rows then rows[id].deletedAt != 0 else files[id].modifiedAt + ORPHAN_AGE <= now
    ensures id in rows && id !in Purged(rows, now) ==> rows[id].deletedAt != 0
  {
  }

  /** The files and the metadata that the collection works on. */
  class FileStore {
    var files: map<Id, File>
    var rows: map<Id, Row>

    constructor (files: map<Id, File>, rows: map<Id, Row>)
      ensures this.files == files && this.rows == rows
    {
      this.files, this.rows := files, rows;
    }

    /** bus/attachments.go CollectAttachmentGarbage: directory entries in batches, one query for each batch. It
        removes every tombstoned file and every old orphan, no other file, and only old tombstones. */
    method CollectGarbage(listing: seq<Id>, now: Time) returns (removed: nat)
      requires Lists(listing, files.Keys)
      modifies this
      ensures files == Remaining(old(files), old(rows), now) && rows == Purged(old(rows), now) && removed == |old(files)| - |files|
    {
      hide Collected, Purged;
      removed := 0;
      var first := 0;
      NothingCollected(files, rows, now);
      assert listing[..0] == [];
      while first < |listing|
        invariant first <= |listing| && rows == old(rows)
        invariant files == Collected(old(files), rows, now, listing[..first]) && removed == |old(files)| - |files|
      {
        var next := if first + LISTING_BATCH < |listing| then first + LISTING_BATCH else |listing|;
        var known := KnownRows(rows, listing, first, next);
        var count := CollectBatch(listing, first, next, known, now, old(files));
        removed, first := removed + count, next;
      }
      assert listing[..|listing|] == listing;
      CollectedAll(old(files), rows, now, listing);
      rows := Purged(rows, now);
    }

    method CollectBatch(listing: seq<Id>, first: nat, next: nat, known: map<Id, Time>, now: Time, ghost before: map<Id, File>) returns (count: nat)
      requires first <= next <= |listing| && Lists(listing, before.Keys)
      requires files == Collected(before, rows, now, listing[..first])
      requires known == KnownRows(rows, listing, first, next)
      modifies this`files
      ensures files == Collected(before, rows, now, listing[..next]) && count == |old(files)| - |files|
    {
      hide Collected;
      count := 0;
      for i := first to next
        invariant files == Collected(before, rows, now, listing[..i]) && count == |old(files)| - |files|
      {
        var id := listing[i];
        assert listing[..i + 1] == listing[..i] + [id];
        CollectNext(before, rows, now, listing[..i], id);
        NotCollected(before, rows, now, listing, i);
        var garbage := if id in known then known[id] != 0 else files[id].modifiedAt + ORPHAN_AGE <= now;
        if garbage {
          files := files - {id};
          OneFewer(Collected(before, rows, now, listing[..i]), id);
          count := count + 1;
        }
      }
    }
  }

  lemma NothingCollected(files: map<Id, File>, rows: map<Id, Row>, now: Time)
    ensures Collected(files, rows, now, []) == files
  {
  }

  /** An entry that has not been reached is still there. */
  lemma NotCollected(files: map<Id, File>, rows: map<Id, Row>, now: Time, listing: seq<Id>, i: nat)
    requires Lists(listing, files.Keys) && i < |listing|
    ensures listing[i] in Collected(files, rows, now, listing[..i]) && Collected(files, rows, now, listing[..i])[listing[i]] == files[listing[i]]
  {
    assert listing[i] in listing;
    assert listing[i] !in listing[..i];
  }

  lemma OneFewer(files: map<Id, File>, id: Id)
    requires id in files
    ensures |files - {id}| == |files| - 1
  {
    assert (files - {id}).Keys == files.Keys - {id};
    assert |files - {id}| == |(files - {id}).Keys|;
  }
}
