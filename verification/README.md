# Release platform: task queue, crawler, licence headers, archives

A Dafny model of four parts of the Apache release platform, and proofs about them.

**The task queue.** Worker processes claim rows of the `task` table, run one
handler each and write how it ended; a manager watches the workers, fails tasks
that take too long, replaces workers that have gone and puts their rows back.
`TaskTable.dfy` has the table, its CHECK constraint and the effect of each SQL
statement, `Packages.dfy` the verification tasks of a package. `Protocol.dfy`
makes a transition system of them: an event is one transaction or system call of
one process, events of different processes interleave freely, and the manager's
pass is many events (one or two per worker, then forgetting, respawning,
resetting), not one. `Invariant.dfy` shows what every event keeps, `Runs.dfy`,
`LateWrites.dfy` and `Stopping.dfy` state what follows for whole runs of any length,
and `Witnesses.dfy` has runs that lead to the less expected states.
`Workers.dfy` and `Supervisor.dfy` hold the code itself, as methods that change
the database and the `workers` field; at every `await` the rest of the system
makes any steps it can, as a script of attempted events dictates. Each
method is shown to take exactly the protocol's steps, so the theorems about runs
apply to the code.

**The crawler.** `Crawler.dfy` has the level-counted breadth-first search and its
specification, reachability by routes of links.

**The licence headers.** `Text.dfy` and `Alignment.dfy` have strings, lines and
the law about searching one joined text in another; `License.dfy` the comment
stripper, as a fold that hands one bit from line to line, and the matcher;
`Headers.dfy` the round trips and the exact condition of acceptance, `Rejection.dfy` each
case of the stripper on its own and headers that must not be accepted.

**Archives.** `Archive.dfy` has size-limited extraction in chunks, the search for
the one root directory, and the structure check.

## Assumptions about the task queue

1. A transaction is atomic and succeeds, unless it violates the CHECK constraint, which undoes it.
2. Row ids and pids are never used twice. The `id` column (`atr/db/models.py:230`) is a plain
   primary key, so SQLite may give the highest id again after a restart has deleted rows; a
   late final write, which names its row by id alone, could then reach the new row.
3. `is_running` tells the truth.
4. The error handler's write succeeds, so an outcome is one that it can record
   (`TaskTable.Recordable`). What happens otherwise is stated by `TaskTable.ProcessIsTotal`:
   the only outcome that leaves a claimed row as it was is a task error whose payload
   cannot be serialised; the worker's loop would then go on to claim a second task.
5. Web requests are serialised, and packages are not deleted or changed.
6. Stopping the manager ends the run; what a stop leaves behind, for any continuation, is the
   subject of `Stopping.dfy`. It is assumed to end the tracked workers and whatever the
   manager's coroutine was doing; which other processes it ends is left open.
7. The clock never goes backwards. Creation times (`added`) are arbitrary.

## Where the code differs from what is said of it

- The comment beside the CHECK constraint (`atr/db/models.py:248-251`) calls COMPLETED and FAILED
  terminal. The constraint cannot see the old row, and the worker's last write has no
  status guard. The pair {COMPLETED, FAILED} is indeed never left
  (`Runs.FinishedForGood`), but the status of a finished row can change exactly while
  a worker still runs the handler for it (`LateWrites.StatusCanChangeIff`), which is
  after a timeout, and then from FAILED to COMPLETED; `LateWrites.FailedThenCompleted` is such a run.
- Not every claimed row's pid is in `workers` or in `exited_workers` all the time: a
  child may claim a row before its spawn call has returned (`Witnesses.ClaimedButUnknown`).
  `Runs.NothingLost` shows that this is exactly when it is not.
- The `FlashError` path of a restart commits the deletions. `Runs.RestartDeletes`
  says exactly when that loses results, `Runs.RestartReplaces` that it never happens in a run.
- With `min_workers` above `max_workers` the refill loop never ends (`Runs.RefillEndsIff`,
  `Supervisor.WorkerManager.CheckWorkers`).
- `stop_all_workers` puts no row back: exactly the rows that are ACTIVE at the stop and
  lose their process stay ACTIVE for ever (`Stopping.StopOrphansIff`, `Stopping.StopCanOrphan`).
- `check_structure` means to report an archive without a single root directory as
  invalid, but `task.Error` is not a `ValueError`, so the error escapes (`Archive.CheckStructureCore`).
- The scope test of `url_excluded` never turns a URL away (`Crawler.ReachExtendsBase`,
  and the specification of `Crawler.ArtifactUrls`, which does not ask it).

## Model

| member | source | states |
|---|---|---|
| Runs.MutualExclusion | atr/worker.py:129-153 | In every state of every run no two live workers work on the same task, and a busy worker's row names that worker until it has ended. |
| Runs.NothingLost | atr/manager.py:202-243 | In every reachable state an ACTIVE row's pid is a tracked worker or waits to be reset if and only if it is not that of a child whose spawn call is in progress; between passes it is a tracked worker. |
| Witnesses.ClaimedButUnknown | atr/manager.py:166-178 | For any manager with room for one worker, a run leads to a row claimed by a process that is neither in `workers` nor in `exited_workers`. |
| Runs.RowShapes | atr/db/models.py:252-266 | In every reachable state: QUEUED rows have neither pid nor start time, ACTIVE rows have both, unfinished rows have neither error nor end time, COMPLETED rows have an end time and a result, FAILED rows an end time and an error. |
| Runs.StartedWhenClaimed | atr/worker.py:135-146 | In every run the start time of an ACTIVE row is the time at which it was last claimed. |
| Runs.TimesOutIff | atr/manager.py:286-311 | In every run a duration check fails the row it finds if and only if more than the time limit has passed since that row was claimed, and changes no other row. |
| Runs.LookUpIsOwn | atr/tasks/bulk.py:168-228 | A pid owns at most one ACTIVE row, and a look-up by pid or the cached id can only name the row that this process claimed. |
| Runs.ProgressIsOwn | atr/tasks/bulk.py:240-261 | A progress message changes the result of the sender's own row and nothing else; no other busy worker has that row. |
| Runs.Conservation | atr/worker.py:135-143 | Over every run, rows created plus rows put back equals claims plus rows now queued; claims never exceed the first sum. |
| Runs.FinishedForGood | atr/db/models.py:248-262 | A finished row stays finished over every continuation of the run and keeps its `added`. |
| Runs.TimedOutIsNeverRequeued | atr/manager.py:252-267 | A task failed for exceeding its time limit stays finished in all that follows, although its worker's pid is on the list of the reset. |
| Runs.OneClaimPerWorker | atr/worker.py:250-260 | Over every run each process claims at most one task. |
| Runs.NoOvertaking | atr/worker.py:135-143 | When an older and a younger task are both queued, the younger is not claimed before the older has been, however long the run. |
| Runs.RunEvolves | atr/manager.py:338-343 | No row that stays in the table ever changes its `added`, package, type or arguments, so a task put back regains its place. |
| Runs.DeadWorkersTaskIsRequeued | atr/manager.py:202-243 | If a tracked worker is dead when a pass begins, its row stays untouched until that pass's reset, the pass cannot end before it, and the reset only clears status, pid and start time. |
| Runs.PassRecovers | atr/manager.py:202-243 | Every complete pass contains a moment at which the row of a worker found dead is QUEUED again, otherwise unchanged. |
| Runs.ResetIsExact | atr/manager.py:326-345 | The reset changes exactly the ACTIVE rows whose pid is on its list, and the process of each of them is gone. |
| Stopping.OrphansAreNeverRecovered | atr/manager.py:326-345 | A claimed row whose process is gone and whose pid the manager does not know stays exactly as it is in every continuation. |
| Stopping.StopOrphansIff | atr/manager.py:83-128 | Stopping the manager in any reached state leaves a row claimed and untouched for ever, restarts included, if and only if it is ACTIVE at that moment and its process is gone after the stop. |
| Stopping.OnlyForkedSurvive | atr/manager.py:83-128 | The only claimed rows that escape are those of a child whose spawn call the stop interrupts and which lives on. |
| Stopping.StopOrphansClaimed | atr/manager.py:102-128 | Outside a spawn call, and whenever the stop ends every process, the rows orphaned are exactly those that are ACTIVE when the manager stops. |
| Stopping.StopCanOrphan | atr/manager.py:102-128 | For any manager with room for one worker, a run leads to a stop that orphans a row. |
| Runs.PoolSize | atr/manager.py:130-133 | The pool never exceeds min_workers or max_workers and has exactly min_workers when a refill ends and when a reset runs. |
| Runs.PassIsBounded | atr/manager.py:202-243 | Between two passes the manager makes no more steps than a measure of its state, failed spawns aside. |
| Runs.RefillEndsIff | atr/manager.py:317-324 | The refill loop can end if and only if min_workers <= max_workers. |
| Runs.SevenAtMost | atr/routes/package.py:417-434 | A package never has more than seven unfinished verification tasks. |
| Runs.CheckAdds | atr/routes/package.py:417-434 | In every run a check is accepted exactly when the package is ready and nothing is unfinished; it then adds exactly seven new queued rows, and it never changes or deletes a row. |
| Packages.Replies | atr/routes/package.py:417-429 | Which requests are turned away and with which reason, in the order in which the reasons are looked at; check and restart answer alike. |
| Runs.RestartReplaces | atr/routes/package.py:478-500 | In every run a restart is accepted exactly when the package is ready and nothing is unfinished; it then leaves exactly seven new queued tasks and all other packages' rows, otherwise it changes nothing. |
| Runs.RestartDeletes | atr/routes/package.py:486-495 | Taken alone, a restart loses results exactly when the package has only finished tasks but no signature or committee. |
| LateWrites.OnlyTimedOutRowsChange | atr/worker.py:179-191 | A finished row changes only by the write of its own worker, still busy, and only if it had been failed by timeout. |
| LateWrites.TimedOutMayComplete | atr/worker.py:179-191 | In every run: if the row of a worker that still runs its handler has ended, it was failed by timeout, and the worker's success makes it COMPLETED with the error text kept. |
| LateWrites.StatusCanChangeIff | atr/worker.py:179-191 | In every reachable state, some step can change a finished row's status if and only if some worker still runs the handler for it, and then only from FAILED to COMPLETED. |
| LateWrites.FailedThenCompleted | atr/manager.py:276-311 | For any manager with room for one worker, a run leads to a row failed by timeout and on to the same row COMPLETED. |
| Invariant.Preserved | atr/manager.py:202-345 | Every event keeps the invariant: row shapes, holders, mutual exclusion, tracking, pool size, package limits and the tally. |
| Invariant.ResetSpares | atr/manager.py:338-343 | A reset takes no row from a process that is still busy with it. |
| Invariant.RequestEffect | atr/routes/package.py:417-500 | A check or restart request deletes only finished rows and adds only fresh ones, all of the one package. |
| TaskTable.ProcessIsTotal | atr/worker.py:194-237 | Whatever the handler does, the claimed row ends COMPLETED or FAILED, meets the constraint and carries the right result or error, except exactly for a task error whose payload cannot be serialised. |
| TaskTable.DispatchIs | atr/worker.py:202-232 | The two types that take an object and the eight that take a list find their handler; every other combination raises the unknown-type error. |
| TaskTable.FailureWithoutErrorText | atr/worker.py:163-191 | The first write of a failure without error text is rejected exactly when the row has no error yet. |
| Packages.VerificationTasks | atr/routes/package.py:557-604 | The seven tasks are of seven different types, with the whole argument list of each stated, and a worker finds the handler for each by its type and argument shape. |
| Packages.NewRowAt | atr/routes/package.py:605-608 | The new rows are the seven tasks, one in each of the seven slots, in order. |
| Protocol.Concat | atr/manager.py:189-200 | Runs compose: a run followed by a run from where it ends is a run. |
| Workers.Cluster.TaskNextClaim | atr/worker.py:123-153 | Claims a QUEUED row with the least `added`: it becomes ACTIVE with the present time and the process's pid, every other column and row stays; or finds that none is queued and changes nothing. Either way it is a step of the protocol or none. |
| Workers.Cluster.TaskResultProcess | atr/worker.py:156-191 | Raises, and stores nothing, exactly when the results cannot be serialised or the row would be FAILED with no error text, new or old; otherwise the row named gets verdict, time, results and error text whatever its status, and every other column and row stays. |
| Workers.Cluster.TaskErrorHandle | atr/worker.py:89-120 | The row named becomes FAILED with the exception's text and, for a task error, its payload, and every other column and row stays; it raises in turn, and records nothing, exactly when that payload cannot be serialised. |
| Workers.Cluster.TaskProcess | atr/worker.py:194-237 | Its own part in the run is one recording attempt and, if that raised, one more; whatever others do meanwhile the row has then ended and meets the constraint. |
| Workers.Cluster.WorkerLoopRun | atr/worker.py:250-267 | The worker's own part in the run is nothing, or one claim and the recording of what the handler for that very row came to. |
| Workers.Cluster.DatabaseTaskIdGet | atr/tasks/bulk.py:168-228 | Returns the cached id, or an ACTIVE row of this pid if there is one; it is the protocol's look-up step. |
| Workers.Cluster.DatabaseMessage | atr/tasks/bulk.py:128-143 | Sets the result of the row this process claimed if it looked that row up while holding it, and changes nothing else; otherwise changes nothing. |
| Workers.Cluster.TaskPackageStatusGet | atr/routes/package.py:537-545 | The package's rows, and whether any of them is QUEUED or ACTIVE. |
| Workers.Cluster.TaskVerificationCreate | atr/routes/package.py:548-608 | Adds exactly the seven rows, or raises and adds none. |
| Workers.Cluster.RootPackageCheck | atr/routes/package.py:417-434 | Is the protocol's check request, with the same answer. |
| Workers.Cluster.RootPackageCheckRestart | atr/routes/package.py:468-500 | Is the protocol's restart request, with the same answer. |
| Supervisor.WorkerManager.Start | atr/manager.py:68-81 | Starts, by protocol steps, at most the smaller of min_workers and max_workers workers, and exactly that many if no spawn call fails; does nothing when running. |
| Supervisor.WorkerManager.SpawnWorker | atr/manager.py:130-187 | Adds one worker if there are fewer than max_workers and the spawn call succeeds, and none otherwise, with others stepping before the child is recorded. |
| Supervisor.WorkerManager.CheckTaskDuration | atr/manager.py:276-311 | Answers whether the ACTIVE row of that pid was started more than the time limit ago, and then fails that row and no other. |
| Supervisor.WorkersHoldOne | atr/manager.py:286-296 | In every reachable state a pid has at most one ACTIVE row, so the query finds the only one. |
| Supervisor.WorkerManager.TerminateLongRunningTask | atr/manager.py:245-267 | A row that is still ACTIVE becomes FAILED with the time and the timeout text and keeps its claim, result and place; a row that has ended, and every other row, stays as it is. |
| Supervisor.WorkerManager.MaintainWorkerPool | atr/manager.py:317-324 | The refill loop, cut off after a number of turns: enough turns fill the pool whenever min_workers <= max_workers, whichever spawn calls fail, and no number of turns does otherwise. |
| Supervisor.WorkerManager.ResetBrokenTasks | atr/manager.py:326-345 | Exactly the ACTIVE rows of the given pids become QUEUED, with pid and start time cleared and every other column kept; all other rows stay, and the number of rows put back is counted. |
| Supervisor.WorkerManager.CheckWorkers | atr/manager.py:202-243 | One pass, with everyone else stepping at each await: if its refill fills the pool it is a complete pass of the protocol and leaves exactly min_workers workers, which happens with enough turns whenever min_workers <= max_workers and never otherwise. |
| Supervisor.WorkerManager.Stop | atr/manager.py:83-128 | Whatever the manager is doing, the tracked workers are ended one by one while all others go on; then the dictionary is empty and no row has been put back. |
| Crawler.ArtifactUrls | atr/tasks/bulk.py:364-421 | `seen` is exactly what is reachable from the base by fewer than max_depth links; no URL in it asks for an order of a listing; artifacts and signatures are its target-suffixed members, each once and in one list only; every other member is fetched exactly once and nothing else is. |
| Crawler.ReachExtendsBase | atr/tasks/bulk.py:441-443 | Everything reachable starts with the base URL, and a URL that takes n links is at least n characters longer. |
| Crawler.ReachHasNoSortLink | atr/tasks/bulk.py:437-454 | No reachable URL contains ?C= with one of the letters N, M, S, D and ;O=. |
| Crawler.LinksAreFollowed | atr/tasks/bulk.py:398-406 | Conversely, every link of a reachable page that extends the page's URL and asks for no such order is reached one level later. |
| Crawler.StaysSettled | atr/tasks/bulk.py:374-374 | Once a level reaches nothing new no later level does, so stopping on an empty queue loses nothing. |
| Crawler.LevelStep | atr/tasks/bulk.py:378-408 | Taking one URL off the queue keeps the level's accounting: what is seen, what still waits of this level, and what is queued for the next. |
| Crawler.LevelEnds | atr/tasks/bulk.py:409-412 | A level consumes exactly what the one before queued, and then exactly one more level of URLs is seen. |
| Crawler.ProcessUrl | atr/tasks/bulk.py:382-408 | One URL is passed over, or seen, sorted and, if it is a page, fetched and its unseen links queued. |
| Crawler.ExtractLinks | atr/tasks/bulk.py:508-526 | Keeps exactly the links that start with the page's URL, as often as they occur. |
| Crawler.Findings.CheckMatches | atr/tasks/bulk.py:424-434 | Appends the URL to the list of its kind, if it has one, and says so. |
| Crawler.ClassifyPermitted | atr/routes/package.py:241-244 | With the permitted file types a URL is an artifact exactly if it ends with one of them, and a signature exactly if it ends with one followed by ".asc". |
| Crawler.OrderFreeIff | atr/tasks/bulk.py:424-434 | Neither the order nor the repetition of file types matters for any URL if and only if no two of them conflict, which shows in their texts alone. |
| Crawler.ConflictIff | atr/tasks/bulk.py:424-434 | Two types conflict if and only if some URL ends with the first and with the second followed by ".asc", but not with the second. |
| Crawler.ClassifyUnmixed | atr/tasks/bulk.py:424-434 | For types that do not mix on a URL, it is an artifact exactly if one of them ends it, and otherwise a signature exactly if one of them followed by ".asc" does. |
| Crawler.ClassifyOrderFree | atr/tasks/bulk.py:424-434 | With the permitted file types, lists with the same elements classify every URL alike. |
| Crawler.OrderCanMatter | atr/tasks/bulk.py:424-434 | An input on which it does matter: with the types .gz and .asc, the order decides whether a.gz.asc is a signature or an artifact. |
| Alignment.Aligned | atr/tasks/license.py:476-482 | One joined text occurs in another exactly when a run of lines has its first line ending with the first expected line, its inner lines equal, and its last starting with the last expected one. |
| Alignment.PrefixAligned | atr/tasks/license.py:476-482 | A joined text is a prefix of another exactly when its lines are. |
| Text.SplitJoin | atr/tasks/license.py:424-463 | Joining lines and splitting the text again gives the lines back. |
| Text.StripMargins | atr/tasks/license.py:437-437 | Stripping gives what stands between the white space. |
| Text.IsSpaceIff | atr/tasks/license.py:437-437 | White space is the space and the five control characters from the tab on. |
| Text.StripKeeps | atr/tasks/license.py:437-440 | A marker occurs in a line exactly when it occurs in the stripped line. |
| License.GatherConcat | atr/tasks/license.py:436-461 | Stripping is a left fold over lines with one bit: it can be done piece by piece. |
| License.StripLines | atr/tasks/license.py:436-461 | The loop yields the lines that the fold yields. |
| License.HeadersStripComments | atr/tasks/license.py:418-463 | The content unchanged for an unknown style, otherwise the cleaned lines joined. |
| License.StyleTable | atr/tasks/license.py:31-116 | For every comment style, exactly which extensions have it; no other extension has one. |
| License.LowerAt | atr/tasks/license.py:415-415 | Lower-casing changes the letters from A to Z, to the letters at the same place from a on, and nothing else. |
| License.FileTypeOf | atr/tasks/license.py:410-415 | The file type is what follows the last dot, in lower case, unless only dots stand before it in the file's name. |
| License.NoFileType | atr/tasks/license.py:410-414 | A file without a dot in its name has no file type and no comment style. |
| License.StyleForExtension | atr/tasks/license.py:468-471 | A file has the comment style of its extension, in whatever case it is written, and no style without one. |
| Headers.ValidatesIff | atr/tasks/license.py:466-494 | For any header that starts with a line that is not blank: a file is accepted exactly when its style is known and some run of its cleaned lines matches the header's lines. |
| Headers.ApacheValidatesIff | atr/tasks/license.py:466-494 | The same for the Apache header and any file name. |
| License.Reasons | atr/tasks/license.py:470-494 | A file is turned away for an unknown style or for a header that does not match, each with its own message. |
| Headers.SingleLineHeaderIsFound | atr/tasks/license.py:451-453 | The header written as single-line comments, in every style, with any margins, any tail and any preamble that leaves no block comment open, is accepted. |
| Headers.BlockHeaderIsFound | atr/tasks/license.py:439-457 | The header written inside a block comment, with or without leading asterisks in the C styles, is accepted, however the block is opened and whether or not it is closed. |
| Headers.CompactBlockHeaderIsFound | atr/tasks/license.py:439-449 | The same when the header begins behind the opener and ends before the closer. |
| Headers.StaysOutside | atr/tasks/license.py:440-443 | Lines without the block opener leave no block comment open. |
| Headers.OutsideClosed | atr/tasks/license.py:440-449 | A block stays open up to the first line with the closer, and not beyond it. |
| Headers.SingleIsCleaned | atr/tasks/license.py:451-453 | A line rendered as a single-line comment is cleaned to its text. |
| Headers.BlockIsCleaned | atr/tasks/license.py:455-457 | A line inside a block comment, starred or not, is cleaned to its text. |
| Headers.OpenerIsCleaned | atr/tasks/license.py:440-443 | An opening line is cleaned to the text behind the opener. |
| Headers.CloserIsCleaned | atr/tasks/license.py:446-449 | A closing line is cleaned to the text before the closer. |
| Rejection.LineOpens | atr/tasks/license.py:440-443 | Outside a block, a line with the opener gives what follows its first opener, and opens the block. |
| Rejection.LineCloses | atr/tasks/license.py:446-449 | Inside a block, a line with the closer gives what stands before its first closer, and closes the block. |
| Rejection.LineIsComment | atr/tasks/license.py:452-453 | Outside a block, a line that starts with the single-line marker and has no opener gives what follows the marker. |
| Rejection.LineIsCode | atr/tasks/license.py:436-461 | Outside a block, a line with neither marker is kept as it is, and no block is opened. |
| Rejection.LineIsStarred | atr/tasks/license.py:456-457 | Inside a C-style block, a line that starts with an asterisk gives what follows it. |
| Rejection.LineIsInside | atr/tasks/license.py:436-461 | Inside a block, every other line without the closer is kept as it is. |
| Rejection.CleanedContains | atr/tasks/license.py:436-461 | Cleaning only takes away: whatever occurs in a cleaned line occurs in the line. |
| Rejection.InterruptedHeaderIsRejected | atr/tasks/license.py:466-494 | A file whose only copy of the header, written as single-line comments, is interrupted by a line of code is rejected, in every style and at every place, except exactly when the code stands before the last header line and starts with that line. |
| Headers.StyleIsSound | atr/tasks/license.py:31-116 | No marker of any of the styles can be mistaken for part of the header's text. |
| Headers.HeaderIsSuitable | atr/tasks/license.py:150-166 | The Apache header starts with a line that is not blank, and no line of it holds a comment marker. |
| Archive.Extraction.ArchiveExtractSafe | atr/tasks/sbom.py:31-87 | Outcome and files are those of the member-by-member definition; with a positive chunk size the number of characters written is, after every single write, at most the limit and one chunk; on success what is returned is what was written, within the limit. |
| Archive.Extraction.ExtractFile | atr/tasks/sbom.py:64-83 | The chunk loop stores the whole file, or stops in the chunk that passes the limit and removes the file. |
| Archive.WalkSucceedsIff | atr/tasks/sbom.py:41-87 | Extraction succeeds exactly when every member fits in after those before it; the total is then the number of characters in all files and within the limit. |
| Archive.WalkFailsAt | atr/tasks/sbom.py:47-83 | Otherwise it stops at the first member that does not fit, with the limit, the amount extracted before it and, if it declares too much, its declared size. |
| Archive.HonestWalk | atr/tasks/sbom.py:47-83 | If every member yields its declared size, extraction succeeds exactly when the sizes add up to no more than the limit (or there are no files), and the check inside the loop never fires. |
| Archive.WalkStores | atr/tasks/sbom.py:57-67 | After a success each file holds in full what the last member of its name yields. |
| Archive.WalkKeeps | atr/tasks/sbom.py:41-61 | After a success a name that no readable member has is as it was before. |
| Archive.RootDirectory | atr/tasks/archive.py:57-73 | Returns r exactly when r is the first non-empty first component and all members from there on have it; says that there is none exactly when no member has one, and otherwise names the root so far and the first component that clashes with it. |
| Archive.RootIsUnique | atr/tasks/archive.py:57-73 | There is at most one root. |
| Archive.ExtractedUnderRoot | atr/tasks/archive.py:57-73 | Every file that extraction stores under a name with a first component lies under the root. |
| Archive.CheckStructureCore | atr/tasks/archive.py:94-113 | An archive is valid exactly when the root expected from the file name is its root, which for name.tgz and name.tar.gz is that name; without a single root the error escapes. |
| Archive.ExpectedRootOf | atr/tasks/archive.py:99-99 | For n + ".tar.gz" the expected root is n exactly when n's last component has a character other than a dot. |
| Archive.ExpectedRootOfSingle | atr/tasks/archive.py:99-99 | With one extension and no other dot in its name, a file is expected to hold a root of its name without that extension. |
| Archive.ExpectedRootOfPlain | atr/tasks/archive.py:99-99 | With no dot in its name, a file is expected to hold a root of its whole name. |
| Text.SplitextOf | atr/tasks/archive.py:99-99 | Taking off an extension gives the name back, unless only dots stand before it in the last component. |
| Text.SplitextPlain | atr/tasks/archive.py:99-99 | A path whose last component has no dot has no extension. |

## Left out

- HTTP, HTML parsing and URL resolution (section 5.2 of RFC 3986): a page's resolved links are an arbitrary list, empty when a download fails; only the prefix filter is modelled.
- The database layer, locking, JSON encoding and the parsing of stored times: each transaction is one step, and a value is serialisable or not.
- Progress percentages, log messages and page texts other than error texts that are stored in a row.
- `require_sigs` and `max_concurrent` of the bulk download, which do not influence the crawl, and the downloads that follow it.
- Handlers other than those named above: what a handler does is an arbitrary outcome; `check_integrity` hands on a coroutine, which is one of the outcomes that cannot be serialised.
- Upload, release and package deletion, sessions, permissions, forms, configuration, committees.
- Workers.Cluster.WorkerLoopRun: is cut off after a given number of polls, because the loop itself never ends while no task is queued; the one-second retry after an escaped exception is excluded by assumption 4.
- Workers.Cluster.Await: the others' steps are events that the script attempts at this await; those that are not possible are passed over.
- Supervisor.WorkerManager.MaintainWorkerPool: is cut off after a given number of turns, because the loop need not end; of the spawn calls, any finite number may fail.
- Supervisor.WorkerManager.CheckTaskDuration: database errors, on which the source answers True, are excluded by assumption 1.
- Supervisor.WorkerManager.CheckWorkers: the `workers` dictionary is a set of pids, gone over in an arbitrary order.
- The monitoring loop around the passes, a stop while `start` is still spawning, and signals to process groups: a worker that was sent SIGTERM may go on or exit at any later time.
- License.HeadersStripComments: bytes are characters, and white space is the six ASCII characters that `bytes.strip` removes.
- License.FileTypeOf: `lower` is modelled for ASCII letters.
- The choice of files to check (`_INCLUDED_PATTERNS`) and the search for LICENSE and NOTICE files.
- Archive.Extraction.ArchiveExtractSafe: a file is kept under its member's name; joining it to the target directory, creating directories, and operating-system errors are not modelled.
