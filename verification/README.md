# The agent bus: a verified model

The bus keeps, for each *scope*, agents with replaceable leased executions, the messages between them, inbox
reservations, a board of work items with dependencies, remote work that arrives over the agent-to-agent protocol, an
event log, channels, output streams and attachments. Every store method is one transaction. This project models those
transactions in Dafny and proves what they promise together: over single calls, over whole runs, across export and
import, and, where threads and crashes matter, over every interleaving.

## How it is built

* **The scope store.** `scopes.dfy` and `remote.dfy` say what each transaction does as a function from a `Scope`, and
  what it reads from outside, to a new `Scope` and a result. `store.dfy` is the program itself: a class whose tables are
  fields that each method updates in place, with the program's loops; every method is proved to have the effect of its
  function (`statements.dfy` shows that one UPDATE of many rows and its events is the same as the rows one at a time).
  `invariants.dfy` holds the invariant `Inv` and the relation `Evolves` between an earlier and a later scope; `rows.dfy`
  to `remote_steps.dfy` prove that every transaction keeps both. `runs.dfy` closes this over runs, `history.dfy` draws
  the conclusions about executions, messages and the log, `fencing.dfy` those about what an ended execution can still do,
  `budgets.dfy` those about remote work, `drain.dfy` those about inboxes.
* **Retention.** `retention.dfy`, `units.dfy` and `pruning.dfy` prove the three candidate loops exact and the plan of a
  prune closed; `batches.dfy` proves every batch of deletes closed.
* **The archive.** `archive.dfy` writes and reads records, `archive_checks.dfy` and `search.dfy` are the validator with its
  depth-first search, `archive_store.dfy` is the row-by-row import, `archive_laws.dfy` holds the fixpoint and what becomes
  of exports along runs, `archive_progress.dfy` and `archive_coherence.dfy` say when an accepted archive imports into a good
  scope, `archive_retries.dfy` and `answered_run.dfy` what an import does to keyed retries.
* **Concurrent edges.** `signals.dfy` is the registry of waiters, `wakeups.dfy` the interleavings of polls, commits and
  notifies, `gains.dfy` what the transactions that wake nobody can make available, `wakes.dfy` and `wake_tables.dfy` the
  ledger of native wakes, `wake_overlaps.dfy` its open attempts, `attachments.dfy` files and rows with crashes between any
  two steps.
* **Logs and cursors.** `logs.dfy` and `cursors.dfy` are the event log and its polling consumer, `run_views.dfy` joins them
  to the runs of a scope, `outputs.dfy` are the output streams with their rate limit.
* **Channels.** `channels.dfy`, `channel_store.dfy` and `channel_archive.dfy` model channels on top of the message store:
  the fan-out of a post is a loop of sends in the same transaction.
* **Placeholders.** `placeholders.dfy` is the scanner that rewrites SQL placeholders.

## How to read it

* An identifier is a number; only the order of two agents in a peer link, and an ORDER BY, look inside it. A digest is
  the tuple that it digests, so it is injective.
* `World` is what one transaction takes from outside: the order in which the engine returns rows, successive clock
  readings that never decrease, and random identifiers that never repeat (`Fair`). Nothing else is assumed of them.
* `issued`, `clock`, `Reservation.maker`, `Hub.minted` and the counters of `wakes.dfy` are history variables: no operation
  reads them.
* A run is any sequence of transactions from a scope that satisfies `Inv`: a new one, or an imported one
  (`ArchiveLaws.RunsGoOn` joins the two). Leases are positive because the service normalises every lease to at least
  thirty seconds (`bus/validation.go:113-121`).
* A refused transaction changes nothing. The exception is the commit of a lapsed reservation, which keeps the release it
  has made (`bus/store.go:1135-1142`).
* `hosted` decides only how the event log is trimmed. Byte sizes of texts are their numbers of characters.
* Archived names of remote principals are digests. `ArchiveLaws.SnapshotIsValid`, `ExportSucceeds` and `ImportKeeps` say
  exactly what goes wrong if two requests of different principals get one archived name and have one identifier. That it
  does not happen along a run is an assumption on names, stated in `ArchiveLaws.RunsExport` and `RunsGoOn`: the digest is
  injective, and no credential issued in the run is itself an archived name or has a digest that is in use.
* Claims and progress rows of an import belong to the execution `imported`, which is the constant `IMPORTED`.
* Crashes are of two kinds. Killing the program keeps what was written; losing power keeps what was flushed, and any part
  of the rest.

## What turned out false

* **An ended execution can still change messages and work items.** A retirement accepts the current token of an execution
  whose lease has run out (`bus/retire.go:10-44`): it returns the messages that its agent had reserved, opens its claims and
  appends events. `Fencing.ExpiredTokenStillRetires` is a run from a new scope in which it does.
  `Fencing.EndedNeverActs` gives the exact condition over whole runs: the request is a retirement, its execution has not
  been replaced, and its lease is not already zero. Every other request of an ended execution is refused and changes
  nothing, and `Fencing.RetirementGivesBack` says all that the retirement does: it gives back what the agent holds, and
  opens stale claims as every sweep of the board does.
* **A keyed retry can be refused after an import.** An archive replaces the name of a remote principal by a digest
  (`bus/archive.go:227-233`), and the import computes the request digest of an agent's answer to that principal from the
  replaced name. `ArchiveRetries.HashSurvives` and `ArchiveRetries.RetriesAfterImport` give the exact condition: the
  message does not go to a remote principal whose name is replaced. `ArchiveRetries.AnsweredThenImported` says what becomes
  of the send itself, in any good scope, and `AnsweredRuns.AnAnswerIsRefusedLater` is a run from a new scope for which it
  fails. Requests between agents and humans always keep their digest.
* **A valid archive can hold a state that no scope reaches.** The validator (`bus/archive.go:561-1037`) accepts a done work
  item that depends on an open one (`ArchiveRetries.ValidIsWeaker` is such an archive), an answer to a request that was
  never delivered, a request to a human or a remote principal, an expiry that is not after the creation, and messages of a
  remote sender without a correlation, or correlated under another key or with another response.
  `ArchiveCoherence.ImportIsGood` gives the exact condition: an accepted archive imports into a good scope if and only if it
  has none of these. Whatever is exported has none of them (`ArchiveCoherence.ExportIsCoherent`).
* **One message can be in two open attempts at once.** A claim looks for the attempts of its own execution only
  (`bus/native_wake.go:66-72`). If the execution is replaced while an attempt of it is open, the next one's claim dispatches
  the same message, and the first attempt stays open for as long as the message is there. `WakeOverlaps.OneMessageTwiceOpen`
  is a run from a new scope in which this happens. `WakeOverlaps.WhenTwiceOpen` gives the exact condition, over retries and
  everything else that may happen: a claim dispatches the message while a row of another execution of its agent is open.
  Within one execution a message has one row, so it is never in two attempts of the same execution
  (`WakeOverlaps.RowsOfOneMessage`).
* **A retried import can lose a file.** An import that finds a file of the right size and digest takes it over without
  flushing it (`bus/attachments_archive.go:119-145`). `Attachments.RetriedImportCanLoseAFile` is a run in which the file of
  a committed attachment is then lost with the power. `Attachments.RunsAreDurableExactly` gives the exact condition for
  whole runs: every commit finds its files durable. `Attachments.ReuseKeepsFlushing` gives it at the branch that fails: the
  file that is taken over is durable. An import that finds no file already there is always safe
  (`Attachments.FreshImportsAreDurable`).

## Model

| member | source | states |
|---|---|---|
| Logs.AppendBatchIsAppendAll | bus/events.go:40-91 | Inserting a batch in chunks of at most 128, with the hosted trim after each chunk, gives the same rows, revision and floor as appending its events one at a time |
| Logs.HostedHistoryIsBounded | bus/events.go:62-90 | In a hosted scope the current revision is never more than 100099 past the floor |
| Logs.NewestKept | bus/storage.go:255-273 | Deleting old events never changes which state the newest retained event about a row states, except to silence it |
| Logs.PruneLogCovers | bus/storage.go:255-273 | A prune of events keeps the retained revisions exactly those above the new floor, and reports exactly how many events it removes |
| Cursors.PageIsNext | bus/events.go:110-157 | A page from a cursor at or above the floor is the next stretch of the history, each event once and in order, as long as the limit allows; below the floor it asks for a resync |
| Cursors.RunsGiveViews | bus/events.go:40-157 | Every run of appends and prunes shows its readers views of one growing history |
| RunViews.RunLogsAreViews | bus/events.go:40-157 | Whatever points of a run of the bus a poller reads the log at, the logs it finds are views of one growing history, so that what the polling loop promises holds of every run |
| Cursors.WatchEvents | bus/client.go:340-361 | The polling loop yields every event after its cursor exactly once and in order, whatever is appended or pruned between polls, and stops for a resync if and only if one of its polls finds its cursor below the floor |
| Runs.ApplyKeepsInv | bus/store.go:312-1540 | Every transaction of the scope keeps the whole invariant (messages, reservations, pairing, board, remote work, log) and only evolves its rows |
| Runs.RunKeeps | bus/store.go:312-1540 | Along every run from a good scope the invariant holds, and the later scope has only evolved from the earlier one |
| Runs.LaterEvolves | bus/store.go:312-1540 | Between any two points of a run: content and written stamps stay, states that are over stay, identifiers are never reused, and the later log is the earlier one after some appends and prunes |
| Runs.RunKeepsCaps | bus/store.go:845-851 | No run takes a scope over its limit of live messages or of unfinished board tasks |
| Runs.RunKeepsBudget | bus/a2a_tasks.go:126-151 | Under fixed limits no run takes a remote principal over its unfinished messages and bytes, or all of them together over the remote backlog |
| Runs.RemoteWorkNeverCrowdsOut | bus/store.go:843-851 | In any run from a scope within its budgets, a send that is refused for the backlog faces, after the sweep it makes, at least 5000 live messages of the scope itself |
| Budgets.LocalRefusalMeansLocalBacklog | bus/store.go:845-851 | The half of the backlog that remote principals may fill leaves the other half to agents and humans |
| Budgets.AcceptKeepsBudget | bus/a2a_tasks.go:126-151 | An accepted remote message leaves every principal, and the sum of them, within its budget |
| History.LogAgreesWithTables | bus/store.go:704-1354 | In every scope of every run from a good scope, new or imported, the newest retained event that states the state of a message, board task or remote task names the state in its row |
| History.OneAnswer | bus/store.go:780-907 | Requests and responses are inverse partial maps with swapped participants, and the request was delivered before it was answered |
| History.ReservedIsHeld | bus/store.go:1025-1107 | A message is reserved exactly when it names a live reservation of its recipient |
| History.RecordsAreWriteOnce | bus/store.go:704-1252 | Delivered, acknowledged and replied stamps are written once; acknowledged and expired are absorbing |
| History.GoneForGood | bus/storage.go:338-350 | A deleted message, board task, remote task or correlation never comes back under its identifier |
| History.EndedForever | bus/store.go:312-389 | An execution that was replaced or whose lease ended is ended in every later scope |
| History.EndedCannotAct | bus/store.go:1012-1023 | Whatever an ended execution asks for as the caller is refused as unauthenticated, and leaves the scope exactly as it found it |
| Fencing.EndedNeverActs | bus/retire.go:10-47 | In a run, whatever an ended execution asks for, as the caller or with its token, is refused unless it is a retirement with a token that has not been replaced; and it changes the scope if and only if it is that and the lease has run out without being given up |
| Fencing.RetirementGivesBack | bus/retire.go:34-74 | The token of an execution that is not at rest, its lease ended or not, returns exactly the messages its agent has reserved, drops its reservations, opens its claims and other stale ones, sets its lease to zero, and changes nothing else but the log |
| Fencing.TokensFollow | bus/store.go:312-389 | A token belongs to one execution for ever: in a later scope it is that of the same execution or of nobody |
| Fencing.RetirementChanges | bus/retire.go:23-46 | A retirement is refused if and only if the token is no longer that of its execution, and changes nothing if and only if that is so or the lease is already zero |
| Fencing.ExpiredTokenStillRetires | bus/retire.go:10-47 | A run from a new scope in which an execution has ended and its token still returns the message that it had reserved |
| History.ReservationsAreCurrent | bus/store.go:1025-1107 | Every live reservation was made by the execution that its agent has now |
| History.CommitIsByTheMaker | bus/store.go:1118-1193 | A commit looks up the agent alone; that it succeeds still means that the calling execution made the reservation |
| History.RegisterClearsOut | bus/store.go:312-389 | After a registration the replaced execution holds no reservation and no claim |
| History.RetireClearsOut | bus/retire.go:12-74 | After a retirement the ended execution holds no reservation and no claim, and its lease is zero |
| History.RotationEndsAll | bus/scope_admin.go:33-96 | After a token rotation every execution has ended, and nobody holds a reservation or a claim |
| History.RemoteTasksEndOnce | bus/a2a_tasks.go:268-285 | A remote task in a terminal state stays in that state for ever |
| RemoteSteps.OneRequestForEach | bus/a2a_tasks.go:96-114 | A principal and its own message identifier name at most one bus request |
| RemoteSteps.AcceptMessageKeeps | bus/a2a_tasks.go:86-226 | Accepting a remote message keeps the invariant, and adds exactly one correlated request or none |
| RemoteSteps.SetTaskStateKeeps | bus/a2a_tasks.go:287-320 | An explicit change of a remote task keeps the invariant, valid transitions included |
| Rows.NextRemoteIsValid | bus/a2a_tasks.go:55-78 | Every automatic move of a remote task is a valid transition |
| BoardSteps.ClosureIsDone | bus/store.go:1423-1472 | Every claimed or done board task has its whole transitive dependency closure done |
| BoardSteps.NoTaskWaitsForItself | bus/store.go:1364-1421 | No board task depends on itself, directly or transitively |
| BoardSteps.BoardIsLive | bus/store.go:1282-1354 | While any board task is unfinished, one is being worked on or can be claimed |
| History.ReachableBoard | bus/store.go:1282-1540 | The board of every scope of every run from a good scope, new or imported, is acyclic, consistent and free of deadlock |
| TaskSteps.AddTaskProgressKeeps | bus/task_progress.go:74-124 | Progress rows of a board task stay numbered without gaps and within their caps of rows and bytes |
| Drain.TurnTakes | bus/store.go:1025-1252 | One round of reserve, commit and acknowledge takes exactly the oldest page of the inbox and leaves the rest of it as it was |
| Drain.RoundsDrain | bus/store.go:1025-1252 | n rounds of at most L messages acknowledge exactly the oldest n times L messages, each once, in nondecreasing order of creation |
| Drain.InboxDrains | bus/store.go:1025-1252 | An inbox of n messages is empty after ceil(n / L) rounds, and not before |
| Stores.Store.constructor | bus/store.go:216-245 | A new scope is empty and satisfies the invariant |
| Stores.Store.InsertEvents | bus/events.go:40-91 | One chunk: contiguous revisions after the current one, and the hosted trim |
| Stores.Store.AppendEvents | bus/events.go:40-91 | The chunked loop has the effect of appending the events one at a time |
| Stores.Store.RegisterAgent | bus/store.go:312-389 | The whole new scope of a registration: the replaced execution released, the new row, the peers linked or everything undone |
| Stores.Store.Heartbeat | bus/store.go:456-500 | The whole new scope of a heartbeat; an ended execution is refused and changes nothing |
| Stores.Store.LinkRegisteredPeers | bus/store.go:529-594 | Nothing is linked unless every peer can be; one event for each new link |
| Stores.Store.LinkAgents | bus/store.go:622-640 | The whole new scope of an explicit link |
| Stores.Store.ExpireMessages | bus/store.go:704-750 | Exactly the live messages past their time are expired, and the remote tasks they carry fail |
| Stores.Store.Send | bus/store.go:766-907 | The whole new scope of a send: sweep, keyed retry, checks on replies, links and recipients, backlog, insert, answer; a refusal undoes all of it |
| Stores.Store.ReleaseReservation | bus/store.go:971-1010 | Exactly the messages of the reservation return to queued or delivered, with one event each |
| Stores.Store.ReserveInbox | bus/store.go:1025-1107 | The whole new scope of a reserve: sweeps, lapsed reservations released, the oldest page held |
| Stores.Store.CommitInbox | bus/store.go:1118-1193 | The whole new scope of a commit; a lapsed reservation is released although the call is a conflict |
| Stores.Store.ReleaseInbox | bus/store.go:1195-1211 | The whole new scope of an explicit release |
| Stores.Store.AcknowledgeMessages | bus/store.go:1213-1252 | The delivered messages among those listed are acknowledged, with their count |
| Stores.Store.Receipt | bus/store.go:945-969 | Reading a receipt sweeps what has expired and changes nothing else |
| Stores.Store.ReleaseStaleClaims | bus/store.go:1314-1354 | Exactly the claims of ended executions are opened again |
| Stores.Store.AddTask | bus/store.go:1364-1421 | The whole new scope of a new board task, its dependencies checked |
| Stores.Store.ClaimTask | bus/store.go:1423-1472 | The whole new scope of a claim: open, and every dependency done |
| Stores.Store.CompleteTask | bus/store.go:1474-1506 | The whole new scope of a completion by the claiming execution |
| Stores.Store.ReleaseTask | bus/store.go:1508-1540 | The whole new scope of handing a claim back |
| Stores.Store.AddTaskProgress | bus/task_progress.go:74-124 | The next row of progress, within the caps |
| Stores.Store.RetireAgent | bus/retire.go:12-47 | The whole new scope of a retirement |
| Stores.Store.ReleaseAgentReservations | bus/retire.go:49-74 | Every reservation of the agent is released, one after another |
| Stores.Store.RotateScopeToken | bus/scope_admin.go:33-96 | The whole new scope of a rotation: every agent at rest, every credential disabled |
| Stores.Store.TransitionRemote | bus/a2a_tasks.go:55-78 | The remote task of a message moves along, or not at all |
| Stores.Store.AcceptMessage | bus/a2a_tasks.go:86-226 | The whole new scope of an accepted remote message; a refusal undoes all of it |
| Stores.Store.SetTaskState | bus/a2a_tasks.go:287-320 | The whole new scope of an explicit change of state |
| Stores.Store.DeleteRetentionRows | bus/storage.go:338-350 | Batches of at most 500 rows; no reference dangles after any batch |
| Stores.Store.PruneScope | bus/storage.go:226-335 | The whole new scope of a prune, and the counts it reports |
| Retention.FindTasks | bus/storage.go:155-207 | The breadth-first walk ends and returns exactly the largest removable set of old done board tasks, whatever order the rows come in |
| Retention.CandidatesAreLargest | bus/storage.go:155-207 | That set is the largest in which no kept board task depends, directly or transitively, on a removed one |
| Pruning.FindMessages | bus/storage.go:110-153 | The loop over messages returns exactly the removable notifications and answered or unseen requests with their responses |
| Units.FindUnits | bus/retention_a2a.go:10-66 | The loop over remote work returns exactly the units whose every message may go, how many correlations go along, and the message candidates that no kept unit needs |
| Units.QueryJoins | bus/retention_a2a.go:13-16 | The left joins of the query return every correlation of every remote task |
| Pruning.PlanIsClosed | bus/storage.go:226-335 | Whatever the scope and the cutoff, a prune splits no thread, no remote unit and no dependency |
| Pruning.NeverTakesOpenWork | bus/storage.go:99-153 | A prune never takes a delivered request that has no answer |
| Pruning.CountsAreExact | bus/storage.go:287-305 | The reported counts are the rows removed, cascades included |
| Pruning.PruneKeeps | bus/storage.go:226-335 | A prune at any cutoff keeps the whole invariant |
| Batches.EveryBatchIsClosed | bus/storage.go:306-350 | Wherever the sequence of delete batches stands, no foreign key of the schema dangles, and every message, board task and correlation that the prune keeps refers, through replies, responses and dependencies, only to rows that are there and that it keeps |
| ArchiveChecks.Validate | bus/archive.go:561-1037 | The validator, loop by loop, accepts an archive if and only if it is valid, and always answers |
| TaskSearch.Search.Visit | bus/archive.go:779-797 | The recursive search below a board task ends; it succeeds after visiting everything below, and fails only on a cycle |
| TaskSearch.Accepts | bus/archive.go:770-803 | The search accepts exactly when the dependencies have a topological rank, whatever order the board tasks are taken in |
| ArchiveStores.InsertArchive | bus/archive.go:1039-1176 | Inserting row by row, the references of messages in a second pass, gives exactly the tables of the archive |
| ArchiveLaws.SnapshotIsValid | bus/archive.go:464-543 | What is written of a good scope within its limits is valid if and only if no two of its remote requests are archived under one sender and identifier |
| ArchiveLaws.ExportSucceeds | bus/archive.go:464-543 | The export of a good scope within its limits succeeds if and only if nobody is active and no two of its remote requests are archived under one sender and identifier |
| ArchiveLaws.ImportKeeps | bus/archive.go:1039-1176 | Importing what was written of a good scope gives a good scope if and only if no two of its remote requests are archived under one sender and identifier |
| ArchiveLaws.ArchiveFixpoint | bus/archive.go:235-543 | Whatever is exported of a good scope can be imported, the import is good, and exporting it at the same clock reading gives the same archive again and leaves it as it was |
| ArchiveLaws.FreshIsApart | bus/store.go:216-245 | A new scope is good, within its limits, and has no names to keep apart |
| ArchiveLaws.RunsExport | bus/archive.go:464-543 | If the digest of names is injective and every credential issued in a run has a name of its own, then an export after the run is refused exactly while somebody is active, and the names stay apart |
| ArchiveLaws.RunsGoOn | bus/archive.go:464-1239 | Whatever was exported can be imported, and however the import runs on it is good, within its limits, and, under the same assumption on names, exported again exactly when nobody is active |
| ArchiveProgress.NoGap | bus/archive.go:832-840 | The largest progress number of a work item is the count of its records if and only if its records are numbered exactly one to n, and then so are the imported rows |
| ArchiveProgress.ValidProgressMeans | bus/archive.go:806-840 | The progress records are valid if and only if each is of a known work item and agent, no number is used twice, each work item is within its limits, and its records are numbered exactly one to n |
| ArchiveCoherence.BoardMeans | bus/archive.go:748-803 | The board of a valid archive keeps its promise if and only if every done work item has its dependencies done |
| ArchiveCoherence.ImportIsGood | bus/archive.go:561-1176 | An archive that the validator accepts and whose rows can be inserted imports into a good scope if and only if it is coherent: done work items have done dependencies, requests go to agents, expiries lie after the creation, answered requests were delivered, and the messages of remote senders are correlated under their own key with their own response |
| ArchiveCoherence.ExportIsCoherent | bus/archive.go:464-543 | Whatever is exported of a good scope is coherent |
| ArchiveRetries.HashSurvives | bus/archive.go:1067-1083 | A message keeps its request digest across an import if and only if it does not go to a remote principal whose name the archive replaces |
| ArchiveRetries.RetriesAfterImport | bus/archive.go:1067-1083 | A keyed retry by an agent or a human finds its message in the imported scope, and is recognised as the same request exactly under that condition |
| ArchiveRetries.ImportedRetry | bus/archive.go:1067-1083 | A send that repeats a keyed message of an agent or a human in the imported scope gets that message, or a conflict exactly when it goes to a remote principal whose name was replaced |
| ArchiveRetries.AnsweredThenImported | bus/archive.go:227-233 | In any good scope: the keyed answer to a remote request that succeeded there is refused as a different request after an export and an import, if and only if the name of the principal is one that the archive replaces |
| AnsweredRuns.AnAnswerIsRefusedLater | bus/archive.go:227-233 | A run from a new scope in which an agent's keyed answer to a credential holder succeeds; in whatever good scope it is imported into, the retry of that answer is a conflict unless the holder's name is an archived one |
| ArchiveRetries.ImportedStates | bus/archive.go:235-353 | An import returns reserved messages to queued or delivered and claimed board tasks to open, and changes no other state |
| ArchiveRetries.ValidIsWeaker | bus/archive.go:748-803 | An archive that the validator accepts and no export produces: a done board task with an open dependency |
| Tables.ListingIsFixed | bus/archive.go:235-353 | An ORDER BY that ends in the identifier does not depend on how the engine returns the rows |
| Signals.Registry.Subscribe | bus/inbox_wait.go:29-60 | The limit is respected, the new ticket waits on the mapped channel, and each waiter count stays equal to the live subscriptions |
| Signals.Registry.Unsubscribe | bus/inbox_wait.go:29-60 | A ticket leaves once, the last one unmaps its channel, and each waiter count stays equal to the live subscriptions |
| Signals.Registry.Notify | bus/inbox_wait.go:62-69 | The mapped channel is closed, for the first time, and forgotten |
| Signals.Registry.NotifyAllScope | bus/inbox_wait.go:71-80 | Every mapped channel of the scope, and no other, is closed, for the first time, and forgotten, so that whoever waits in the scope is woken |
| Wakeups.OnlyTheWokenGain | bus/runtime.go:94-130 | A send by an agent or a human, an accepted remote message, a release, a retirement or a registration makes messages available only to the agent that is notified for it |
| Wakeups.AcceptMakes | bus/a2a_tasks.go:322-345 | An accepted remote message always has a target agent, which is notified, and makes messages available to it only |
| Wakeups.StartsAwake | bus/inbox_wait.go:15-22 | A service that nobody polls yet is sound, and nobody has missed anything |
| Wakeups.NothingIsSleptThrough | bus/runtime.go:276-361 | Every step of polls, commits and notifies, of one agent or of a whole scope, keeps this: what an announced transaction made available after a blocked poll looked has closed that poll's channel or has its notify still to run |
| Wakeups.EveryInterleavingIsAwake | bus/runtime.go:276-361 | No wake-up is lost in any interleaving of any number of polls, transactions and notifies |
| Wakeups.AnnouncedToAll | bus/scope_admin.go:121-131 | A token rotation, like any transaction, and a channel post are among the transactions that may wake the whole scope |
| SilentGains.SilentGain | bus/runtime.go:276-401 | A transaction that wakes nobody makes nothing available, but for two: a reserve puts back what lapsed reservations held, and a commit leaves its own messages, delivered or put back, for another reserve |
| Wakes.RedispatchNeedsUnavailable | bus/native_wake.go:39-106 | A message is dispatched again to the same execution only if its previous outcome was `unavailable` |
| Wakes.AtMostFiveDispatches | bus/native_wake.go:39-106 | Without a retry no message is ever dispatched to one execution more than five times, whatever else runs, deletions included |
| Wakes.FinishReplays | bus/native_wake.go:108-146 | Repeating the recorded outcome changes nothing and succeeds; another outcome is a conflict and changes nothing |
| Wakes.FinishTwice | bus/native_wake.go:108-146 | Once an outcome is recorded every row of its attempt has it, and recording it again at any later time succeeds and changes nothing |
| Wakes.RetryIsSound | bus/native_wake.go:187-209 | A retry leaves the rows of each attempt alike in execution, outcome and time |
| WakeOverlaps.RowsOfOneMessage | bus/native_wake.go:66-98 | Two rows of one message are of one agent and two of its executions, of which at most one is its present one |
| WakeOverlaps.WhenTwiceOpen | bus/native_wake.go:66-98 | A message comes into two open attempts at once if and only if a claim dispatches it while a row of another execution is open; no outcome, retry or transaction of the scope brings it about |
| WakeOverlaps.OrphansStay | bus/native_wake.go:39-209 | Along any run, retries included, the row of a replaced execution stays as it is until its message is deleted: no claim sweeps it and no outcome is recorded on it |
| WakeOverlaps.OneMessageTwiceOpen | bus/native_wake.go:39-106 | A run from a new scope in which one message is in two open attempts: claimed, its execution replaced, and claimed again |
| Wakes.OutcomesStay | bus/native_wake.go:39-146 | Along any run without a retry, `submitted` and `uncertain` stay as they were recorded for as long as the message is there |
| Wakes.OutcomeSteps | bus/native_wake.go:39-146 | Whatever comes next but a retry, a recorded outcome stays until its message is deleted or, after `unavailable`, until a claim of the same execution dispatches it once more |
| WakeStore.WakeTables.ClaimWake | bus/native_wake.go:39-106 | The whole new ledger of a claim, and the batch that it dispatches |
| WakeStore.WakeTables.FinishWake | bus/native_wake.go:108-146 | The whole new ledger of an outcome |
| WakeStore.WakeTables.RetryWake | bus/native_wake.go:187-209 | The whole new ledger of a retry; nothing is forgotten while a submission may be under way |
| Attachments.EveryStepIsConsistent | bus/attachments.go:277-410 | Any step of upload, deletion, import, scope deletion or collection, or killing the program between steps, leaves every live row with a file of its size and digest |
| Attachments.EmptyIsSound | bus/attachments.go:277-410 | A store without attachments is consistent and durable, so that what follows holds of every store that began empty |
| Attachments.RunsAreConsistent | bus/attachments.go:277-675 | The same for every run without a power loss |
| Attachments.PowerLossIsHarmlessExactlyWhenDurable | bus/attachments.go:367-410 | Losing power is harmless, whatever it leaves of unfinished writes, exactly when every live file is durable |
| Attachments.ReuseKeepsFlushing | bus/attachments_archive.go:133-138 | Taking over a file that was found keeps everything that is about to be committed durable if and only if that file is durable |
| Attachments.CommitKeepsDurable | bus/attachments_archive.go:119-145 | A commit leaves every live file durable if and only if every file that it commits is |
| Attachments.RunsAreDurableExactly | bus/attachments_archive.go:119-145 | Live attachments are durable throughout a run if and only if every commit of it finds its files durable; a power loss in such a run harms none of them |
| Attachments.FreshImportsAreDurable | bus/attachments_archive.go:119-145 | A run in which no import finds a file already there is always durable, power losses included |
| Attachments.RunsAreDurable | bus/attachments_archive.go:119-145 | The same for every run, power losses included, in which imports take over only durable files |
| Attachments.RetriedImportCanLoseAFile | bus/attachments_archive.go:119-145 | A concrete run that loses a committed file: an import is killed before its file is flushed, its retry takes the file over, and power is lost |
| Attachments.UnlinksOnlyGarbage | bus/attachments.go:367-675 | Only a file without a live row is ever unlinked, whether by a failed write, a deletion or a collection |
| Attachments.CollectionSparesTheLiving | bus/attachments.go:575-675 | A collection keeps the row and the file of every live attachment, and removes only tombstoned ones and files that have been orphans long enough |
| Attachments.FileStore.CollectGarbage | bus/attachments.go:575-675 | The batched directory walk removes every tombstoned file and every old orphan, and no other file |
| Outputs.AppendRetains | bus/output_streams.go:388-408 | After a publish the retained sequences are exactly those above the floor, at most the limit of them |
| Outputs.NewStream | bus/output_streams.go:93-150 | A new stream is numbered from its floor and has no past |
| Outputs.SomePast | bus/archive.go:1143-1165 | Whatever is retained of a stream, an imported one too, is the end of some past |
| Outputs.PublishesGiveViews | bus/output_streams.go:388-408 | Whatever is published to a new or an imported stream, and whenever a reader looks, it has views of one growing stream |
| Outputs.HistoryContract | bus/output_streams.go:447-479 | From a cursor at or above the floor a page is the next of what was published; below it a resync, beyond the current sequence a refusal |
| Outputs.FollowReadsOnce | bus/output_streams.go:447-479 | A reader that follows its cursor over views of a growing stream collects each later value once and in order, and is told to resync if and only if one of its reads finds its cursor below the floor |
| Outputs.EveryReaderReadsOnce | bus/output_streams.go:388-479 | After any run of publishes to a new or an imported stream, and between them, a reader from any cursor reads each later value once and in order, and is told to resync if and only if its cursor has fallen below the floor |
| Outputs.PublishRate | bus/output_streams.go:305-324 | In every run any sixty seconds admit at most 240 publishes of one producer |
| Outputs.OutputStream.Publish | bus/output_streams.go:331-422 | The whole new stream and quota of a publish; a refused one changes nothing |
| Placeholders.SqlStatement | bus/sql_database.go:28-62 | The scanner writes exactly the pieces of the statement with their placeholders numbered from one; for the other engine the statement itself |
| Placeholders.PrintPieces | bus/sql_database.go:34-61 | Every statement is the print of its pieces: plain characters, placeholders and literals with doubled quotes |
| Placeholders.PiecesPrint | bus/sql_database.go:34-61 | Pieces are read back as they were printed, so a statement has one reading |
| Placeholders.NthMarker | bus/sql_database.go:53-57 | The n-th placeholder becomes `$n`, and everything before the first one is untouched |
| Placeholders.ErasingRestores | bus/sql_database.go:28-62 | Erasing the numbers restores a statement if and only if no `$` outside a literal, and no placeholder, is followed by a digit |
| Channels.PostIsAtomic | bus/channels.go:233-327 | Either nothing changes, or the post is there and everyone who follows the channel, but for its author, has exactly one new message about it |
| Channels.FanOutDelivers | bus/channels.go:283-319 | The notices of one post are sent all or none, and keep the invariant of the message store |
| Channels.RetriesFindThePost | bus/channels.go:264-277 | Whatever happened since, as long as the post is retained its author's retry gets it back and changes nothing, and other content under its key is refused |
| Channels.FreshHubIsSound | bus/channels.go:103-143 | A scope without channels is sound |
| Channels.HubRunCarries | bus/channels.go:103-327 | Every run of channel and scope operations keeps threads one level deep, keys unique, references good and limits respected |
| Channels.PrunesWholeThreads | bus/channels_archive.go:181-200 | A prune takes a post exactly when every post of its thread is older than the cutoff |
| Channels.RepliesGoFirst | bus/storage.go:311-315 | Deleting replies before roots never leaves a reply without its root |
| Channels.PruneCounts | bus/channels_archive.go:181-200 | The reported count is the number of posts removed, and none of them is younger than a week |
| ChannelStores.ChannelStore.CreateChannel | bus/channels.go:103-143 | The whole new state of a new channel: unused name, at most 100 channels |
| ChannelStores.ChannelStore.SubscribeChannel | bus/channels.go:189-221 | The whole new state of a subscription or its end, at most 128 for a channel |
| ChannelStores.ChannelStore.PostChannel | bus/channels.go:233-327 | The whole new state of a post; a refused notice rolls back everything |
| ChannelArchives.Validate | bus/channels_archive.go:84-149 | The validator of channels, loop by loop, accepts exactly the valid ones |
| ChannelArchives.ImportPosts | bus/channels_archive.go:150-177 | Two passes insert every post of a valid archive, roots before replies, whatever its order |
| ChannelArchives.ChannelsRoundTrip | bus/channels_archive.go:24-177 | What a sound set of channels exports is valid, and importing it gives back every channel, subscription and post, digests included |
| ChannelArchives.ValidImportsSound | bus/channels_archive.go:84-177 | Whatever the validator accepts is imported into a sound set of channels |

## Left out

- Stores.Store.RegisterAgent: requires the invariant of the scope, because the roll-back of a refused peer list is proved with it; every reachable scope has it.
- Stores.Store.PruneScope: requires the invariant of the scope, because its deletes are proved to meet no foreign key; every reachable scope has it.
- Stores.Store.RotateScopeToken: the releases of every agent start from the same clock reading, where the program reads the clock anew for each agent; the readings show only in event times.
- Stores.Store.DeleteRetentionRows: requires that the rows still to be deleted leave no reference dangling at any point of the list, which `Batches` proves of a prune.
- ArchiveStores.InsertArchive: requires distinct message identifiers and progress rows with a work item, which the validator has checked before; it inserts messages in the order of the archive, where the program first sorts them by creation time, which does not show in keyed tables.
- Wakeups.NothingIsSleptThrough: what a reserve puts back of lapsed reservations, and what a commit leaves for another reserve, is announced to nobody (`SilentGains.SilentGain` shows that nothing else is); only a waiter's timer covers it, and timers are not modelled. Pausing a workspace and revoking a device or a grant wake the whole scope too; they are not among the transactions.
- Attachments.RunsAreDurable: upload quotas, transfer limits, disk-space probes, file permissions and operating-system locks are left out, beyond the exclusion that the locks provide.
- Outputs.OutputStream.Publish: starts after the checks of the credential, of the allowed publishers and of the hosted quota; the event of a publish is not part of the stream.
- Channels.PostIsAtomic: a notice carries the name of the channel but not the identifiers in its text, and the membership of a human author is checked outside of the model.
- Drain.InboxDrains: states its claim for a consumer that stays current, with no arrivals, expiries or other reservations meanwhile.
- Archives list correlations by creation time and bus request, where the program lists them by creation time and client identifier; the order of links and of channel subscriptions is left open.
- The archive's own output streams, escalations, attachments, agent cards' texts, byte budget and format versions are not part of the archive that is modelled; nor is the lookup of an archive that was imported before.
- Escalations to humans, the storage summary, list endpoints, channel history and search: they read, or change one row.
- Validation of texts, names, URLs and sizes of single fields; hosted plans and quotas.
- Transactions of the scope that only a hosted deployment has: a human member reading messages (`bus/hosted_work.go:121-164`), the renewal of a connector's lease (`bus/hosted_mcp_keys.go:117`) and the retirement of all sessions of a device or a member (`bus/hosted_devices.go:83-150`).
- HTTP, MCP and command-line layers, the client apart from its event loop, and the cards of published agents.
- Billing, sign-in, pairing, sealing of secrets and the secrets of credentials; a credential is a row that can be disabled.
- The SQL engines, locking, migrations and the encoding of values: a transaction is one atomic step on tables.
- Deleting a whole scope from the store: every table of it disappears at once. Its files are covered by `Attachments`.
