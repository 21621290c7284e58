# Batchcraft: a verified model

Batchcraft expands a Batch (prompts, image and parameter alternatives, seeds) into Jobs, runs them on
ComfyUI one Run at a time, and keeps a library of workflows, a store of Saved Batches and a browsable
history. This project models the parts of it in which a small mistake is easy and costly, and proves
what they promise for all inputs, all reachable states and all interleavings.

## What is modelled

- **Concurrent protocols as state machines.** A step is the code a coroutine runs between two
  suspensions; cancellation and timeout are steps of their own. `ReadCapacity` is the bounded FIFO
  admission of artifact reads. `RunLifecycle` is the process-wide registry of Runs together with the
  cancellation control: start, discard, durable cancellation, completion callbacks, shutdown and drain;
  `RunSteps` says component by component what each of its steps does and that no other step does it,
  `RunProgress` that nothing gets stuck, `RunAgreement` when the record of a cancellation and the flag on
  the running task agree; `RunRegistry` is the registry class itself, each method proved to be one step.
  `FileOperations` is the call that joins its worker thread through repeated cancellation.
  `RequestBody` is the leasing, spooling and replay of request bodies, with every await a point at which
  a request can fail or be cancelled.
- **Paging and query compilation.** `Keyset` is the part shared by both browsers. `HistoryFilters`
  compiles a filter object into nested predicates and a positional value list and is proved against
  the direct meaning in `HistoryTables`; `HistoryQuery` adds sorting, bookmarks, cursor binding and
  generations; `HistoryCursors` says when a request is refused and why; `HistoryCanonical` is the
  canonical clause order. `Catalog` pages over the library while it keeps changing, and
  `CatalogContents` says which rows each view shows.
- **Persistence.** `GlobalLibrary` specifies the library's transactions, receipts and invariants;
  `LibraryCalls` and `LibraryCopies` say for each call when it succeeds, which error it gives otherwise,
  and what it stores; `GlobalStore` is the store class. `SavedBatchRows` and `LinkedSetRows` are the
  children of a Saved Batch as numbered rows and the loops that read them back, `LinkedSetTables` the four
  tables of the linked sets and the query over them, `BindingTables` the same for image and parameter
  bindings, `Positions` their numbering; `BindingOrder` is the normalisation before saving;
  `BatchRevisions` specifies optimistic revisions and prompt references, `BatchCalls` what each of its
  calls decides and does, and `BatchStore` carries the transactions out statement by statement.
- **Exact arithmetic.** `Decimals`, `Parameters`, `Budgets` and `ByteLimits`; `RangeMeaning` is what a
  numeric range means in exact arithmetic. `Common` holds shared types.
- **Workflow overlay.** `WorkflowOverlay` validates profiles and writes a Job's values into a node graph;
  `ProfileDocuments` is the JSON form of a profile, and `MaterializedValues` shows that what is
  materialised for a parameter is what preparation accepts.

Idealisations: concurrent database transactions are serial and a rollback restores the old state; hashes,
canonical JSON, Base64 and cursors are injective and so represented by what they encode; new ids and the
current time are parameters, and an id that collides is a conflict rather than assumed away; texts are
sequences of Unicode scalar values; a float is the real number it denotes, and converting decimal text
to a float and back is an arbitrary function whose round-trip check is the code's own guard.

Findings worth knowing:

- A durable cancellation record and the flag on the running task can disagree, in exactly the runs that
  `RunAgreement.RecordWithoutFlagExactly` describes. `AbandonedRecord` is one: the caller is cancelled
  while its worker thread writes. `RestartedAdmission` is another, with nobody cancelled: the intents are
  read before the registry lock (service.py:818-829), so a second start of a Run that waits for the lock
  goes on without the flag after a stop was recorded and completed. Where the state file keeps a Run from
  being started twice (service.py:843-847) and no storing request is cancelled, record and flag agree
  (`RecordMeansFlag`). Asking again does not help: a recorded mode is answered before the registry is
  asked (service.py:875-877).
- A request body's lease is lost exactly when an exception other than an error or a cancellation strikes
  the one await of the finally block that precedes the release (`RequestBody.ReleasedOnce`,
  `StruckLeaks`). A cancellation that strikes there is swallowed.
- A joined call leaves its worker thread running only if an exception that no handler stops strikes one of
  its awaits (`FileOperations.JoinsWorker`, `StruckLeavesEarly`); and a fault of the worker, an exception
  outside the ordinary errors, can take the place of a cancellation (`DropsNothing`).
- The materialisation budget's loop refuses some products within the maximum, exactly when an empty axis
  follows a prefix that is already too large (`Budgets.BudgetIsExact`). No caller delivers one: linked
  sets without rows are refused before (schemas.py:175, saved_batches.py:426-427), and counted axes are
  never empty (`Budgets.DefinitionBudget`).
- The catalog's starting key would hide a row only if both its creation time and its id were empty
  (`Catalog.StartIsBelow`).

To check everything: `dafny verify dfyconfig.toml`.

## Model

| member | source | states |
|---|---|---|
| Keyset.KeyOrder | backend/src/batchcraft/db/history_query.py:217-222 | comparing row values `(k1, ..., kn) > (?, ..., ?)` is a strict total order, numbers before texts |
| Keyset.FetchMeaning | backend/src/batchcraft/db/history_query.py:219-233 | fetching limit + 1 rows and cutting back gives an ascending page of at most `limit` rows beyond the bookmark; a continuation exists exactly when rows were left out, and all of those lie behind it |
| Keyset.TraversalAscends | backend/src/batchcraft/db/history_query.py:209-233 | however the table changes between pages, the keys returned by a traversal only go up, so none comes twice |
| Keyset.StableRowReturned | backend/src/batchcraft/db/history_query.py:209-233 | a row that matches at every page of a finished traversal is returned |
| Keyset.ImmutableTraversal | backend/src/batchcraft/db/history_query.py:209-233 | over an unchanging table a finished traversal is the whole ordered listing, whatever the page sizes |
| Keyset.TraversalTerminates | backend/src/batchcraft/db/history_query.py:219-233 | each continuation leaves strictly fewer rows, so as many requests as remaining rows plus one finish the traversal |
| HistoryQuery.KeyOrderIsReadingOrder | backend/src/batchcraft/db/history_query.py:136-139 | key order is the promised order: unknown timestamps last in both directions, then time in the requested direction, then run, job and artifact |
| HistoryQuery.WhereIsVisible | backend/src/batchcraft/db/history_query.py:140-159 | the assembled WHERE clause with its values bound by position holds of a row exactly when the row is one the query asks to see |
| HistoryQuery.RowsUnique | backend/src/batchcraft/db/history_query.py:160-171 | no two listed rows share a key, so the key of the last row is a usable bookmark |
| HistoryQuery.WhereSql | backend/src/batchcraft/db/history_query.py:140-159 | the growing lists of predicates and values are exactly the specified ones, in order |
| HistoryQuery.Cut | backend/src/batchcraft/db/history_query.py:227-233 | the cut and the next cursor are those of the fetched page |
| HistoryQuery.Browse | backend/src/batchcraft/db/history_query.py:131-233 | the request as it is assembled and looked up step by step gives the specified answer; which answer that is, guard by guard, is stated by the HistoryCursors rows |
| HistoryQuery.AnswerIsPage | backend/src/batchcraft/db/history_query.py:184-233 | an accepted request of one generation is the keyset page over the filtered rows, from the bookmark of its cursor on |
| HistoryQuery.CompleteJourneyIsListing | backend/src/batchcraft/db/history_query.py:131-233 | following next_cursor from the start to the end within one generation yields exactly the filtered rows in key order, each once, also when the limit changes on the way |
| HistoryQuery.JourneyCompletes | backend/src/batchcraft/db/history_query.py:186-232 | with enough requests within one generation the journey does end, and without an error |
| HistoryCursors.RefusedExactly | backend/src/batchcraft/db/history_query.py:184-213 | each of the four errors exactly when its own condition holds and no earlier one does: stale search index under filters, a cursor not issued for this request, another generation, a bookmark row that is gone or no longer asked for; in every other case an answer |
| HistoryCursors.AcceptedIsPage | backend/src/batchcraft/db/history_query.py:209-233 | an accepted request answers with the page behind the row its cursor ended at, and with a cursor for this request and generation that ends at the last row, exactly if rows remain |
| HistoryCursors.ForeignCursorRefused | backend/src/batchcraft/db/history_query.py:184-207 | a cursor sent with another project, kind or query is refused as mismatched, whatever happened since, and with the same one it never is; only the limit may differ |
| HistoryCursors.ListedExactly | backend/src/batchcraft/db/history_query.py:140-171 | a row is listed exactly if it is the row of a stored run or result that the query asks to see |
| HistoryCursors.FoundExactly | backend/src/batchcraft/db/history_query.py:209-213 | the bookmark is found exactly if its row is still stored and still asked for |
| HistoryFilters.ParameterClauseMeaning | backend/src/batchcraft/db/history_filters.py:161-177 | a parameter predicate with its three or four values holds exactly when the job has a row that the filter asks for |
| HistoryFilters.JobClauseMeaning | backend/src/batchcraft/db/history_filters.py:195-202 | the job predicates are evaluated on one single job, in the results view the producing one |
| HistoryFilters.ClausesMeaning | backend/src/batchcraft/db/history_filters.py:133-203 | all clauses together say what the filter object means |
| HistoryFilters.FilterSql | backend/src/batchcraft/db/history_filters.py:133-203 | the loop that appends predicates and values produces exactly the specified predicates and the values in placeholder order |
| HistoryFilters.WhereMeaning | backend/src/batchcraft/db/history_filters.py:133-203 | evaluating the predicates with the value list bound by position equals the direct meaning of the filter; the number of placeholders is the number of values |
| HistoryTables.MatchingResultMeansMatchingRun | backend/src/batchcraft/db/history_filters.py:195-202 | a run with a matching result also matches in the runs view |
| HistoryCanonical.CanonicalMeaning | backend/src/batchcraft/db/history_filters.py:113-119 | sorting the clause lists does not change what the filter matches, in either view |
| HistoryCanonical.ReorderedClausesShareCursor | backend/src/batchcraft/db/history_filters.py:113-119 | writing the same clauses in another order gives the same canonical filters, hence the same cursor binding |
| HistoryCanonical.SortedMembers | backend/src/batchcraft/db/history_filters.py:116 | canonical order neither loses nor adds a clause |
| Catalog.StartIsBelow | backend/src/batchcraft/db/global_workflows.py:868-870 | the starting key ("", "") lies below every row except one with empty creation time and empty id |
| Catalog.Browse | backend/src/batchcraft/db/global_workflows.py:126-183 | parameter checks, cursor binding (which includes the page size), owner and target checks, each with its error, then the keyset page and the cursor of its last row; which rows are listed is stated by the CatalogContents rows |
| Catalog.Scan | backend/src/batchcraft/db/global_workflows.py:147-178 | a scan lists exactly the matching rows, each once |
| Catalog.ScanOrderIrrelevant | backend/src/batchcraft/db/global_workflows.py:148-178 | the page does not depend on the order in which the table is scanned |
| Catalog.KeyStays | backend/src/batchcraft/db/global_workflows.py:391-445 | no library operation changes a row's `(created_at, id)` |
| Catalog.ViewStays | backend/src/batchcraft/db/global_workflows.py:482-497 | a view that can be listed stays listable through any operations |
| Catalog.Follow | backend/src/batchcraft/db/global_workflows.py:462-558 | following next_cursor never fails once the view was accepted, and is a keyset traversal over the library as it is at each page |
| Catalog.NothingTwice | backend/src/batchcraft/db/global_workflows.py:892-902 | whatever is inserted, renamed, archived or appended between pages, no row is returned twice and keys only go up |
| Catalog.StableRowOnce | backend/src/batchcraft/db/global_workflows.py:892-902 | a row that keeps matching throughout a finished traversal is returned exactly once |
| Catalog.LibrariesChain | backend/src/batchcraft/db/global_workflows.py:206-259 | any batches of library calls between the pages, also failing or replayed ones, lead to such a sequence of libraries |
| CatalogContents.FamiliesShown | backend/src/batchcraft/db/global_workflows.py:148-158 | a family is listed exactly if it is stored, not archived or archived ones are wanted, and its name or description contains the query; every such one for an empty query |
| CatalogContents.CopyableShown | backend/src/batchcraft/db/global_workflows.py:167-178 | a profile version is offered for copying exactly if it is for the version asked for, neither it nor its profile is archived, and the profile's name contains the query |
| CatalogContents.VersionsShown | backend/src/batchcraft/db/global_workflows.py:529-542 | the same for the versions of a family, by name and note |
| CatalogContents.ProfilesShown | backend/src/batchcraft/db/global_workflows.py:500-524 | the same for the profiles of a family, by name and description, whatever the target |
| CatalogContents.ProfileVersionsShown | backend/src/batchcraft/db/global_workflows.py:529-542 | the same for the versions of a profile, restricted to the target if one is given |
| CatalogContents.ShownExactly | backend/src/batchcraft/db/global_workflows.py:126-183 | in each view a default listing shows no archived row, and wanting archived ones adds exactly those |
| CatalogContents.ArchivingMoves | backend/src/batchcraft/db/global_workflows.py:411-445 | once archived a row is in no default listing of its view and, as before, in the inclusive one; once unarchived it is in both; the other rows stay listed as they were |
| CatalogContents.FirstPageShowsAll | backend/src/batchcraft/db/global_workflows.py:147-183 | a first page without a continuation shows exactly the rows of the view |
| CatalogContents.PageInCreationOrder | backend/src/batchcraft/db/global_workflows.py:148-178 | the rows of a page come in order of creation time, then id |
| CatalogContents.ContainsMeaning | backend/src/batchcraft/db/global_workflows.py:154-155 | a text contains the query exactly if it has it as a piece at some position, ASCII letters compared without case |
| CatalogContents.ViewRefusedExactly | backend/src/batchcraft/db/global_workflows.py:160-166 | a view is refused exactly for a missing version, owner or target, or a target of another family |
| CatalogContents.ForeignCursorRefused | backend/src/batchcraft/db/global_workflows.py:868-910 | a cursor is accepted exactly for the view and the page size that it was issued for |
| ReadCapacity.StepKeepsInv | backend/src/batchcraft/api/artifacts.py:37-74 | every step, with cancellation or timeout also between a grant and its resumption, keeps: active = holders + granted waiters, 0 <= active <= limit, a waiting queue only at full capacity, at most max_waiters waiting, grants in queueing order |
| ReadCapacity.RunKeepsInv | backend/src/batchcraft/api/artifacts.py:37-74 | the same over whole runs |
| ReadCapacity.NoOvertaking | backend/src/batchcraft/api/artifacts.py:38-47 | a newcomer never gets a slot while somebody waits |
| ReadCapacity.GrantsFollowQueueing | backend/src/batchcraft/api/artifacts.py:69-74 | of two waiters that did not withdraw the earlier one is granted first |
| ReadCapacity.NoSlotLost | backend/src/batchcraft/api/artifacts.py:53-67 | once nobody holds, waits or is granted, the counter is back at zero |
| ReadCapacity.ReleaseServesOldest | backend/src/batchcraft/api/artifacts.py:69-74 | a release with waiters hands the slot to the oldest one |
| ReadCapacity.LeavingIsFinal | backend/src/batchcraft/api/artifacts.py:53-67 | a request that has left stays out: a slot is given back once |
| ReadCapacity.ReadCapacity.Claim | backend/src/batchcraft/api/artifacts.py:37-47 | over the counter and the deque as they were: a free slot is taken at once, with all slots taken the claim waits last while fewer than max_waiters wait, and is refused exactly when that many do |
| ReadCapacity.ArrivalDecided | backend/src/batchcraft/api/artifacts.py:37-47 | in every reachable state an arrival holds at once exactly if fewer than `limit` slots are taken, is refused exactly if all are taken and max_waiters wait, and is queued last otherwise; nobody else moves |
| ReadCapacity.SlotGivenBack | backend/src/batchcraft/api/artifacts.py:69-74 | a slot given back, by a request that ends or by one that was granted too late, goes to the oldest waiter; without one the count of taken slots falls by one |
| ReadCapacity.GrantedRuns | backend/src/batchcraft/api/artifacts.py:53-67 | a granted waiter that resumes becomes a holder; the count does not change |
| ReadCapacity.WaiterWithdraws | backend/src/batchcraft/api/artifacts.py:53-63 | a waiter that is cancelled or times out before its grant leaves the queue; the order of the others, their state and the count stay |
| ReadCapacity.ReadCapacity.Release | backend/src/batchcraft/api/artifacts.py:69-74 | _release hands the slot on or frees it |
| ReadCapacity.ReadCapacity.Interrupted | backend/src/batchcraft/api/artifacts.py:53-63 | a cancelled or timed-out waiter gives back a slot it was already granted, or leaves the queue |
| RunLifecycle.StepKeepsInv | backend/src/batchcraft/application/tasks.py:55-162 | every step of start, discard, cancel, release, shutdown and drain, in any interleaving, keeps the registry and cancellation invariants |
| RunLifecycle.RunKeepsInv | backend/src/batchcraft/application/tasks.py:55-162 | the same over whole runs |
| RunLifecycle.ReachableInv | backend/src/batchcraft/application/tasks.py:55-162 | they hold in every state that can be reached from a fresh process |
| RunLifecycle.AtMostOneLiveTask | backend/src/batchcraft/application/tasks.py:63-80 | at most one execution task is not done, and it is the one registered |
| RunLifecycle.StaleCallbackRemovesNothing | backend/src/batchcraft/application/tasks.py:153-157 | a late completion callback never removes a newer entry of the same run |
| RunLifecycle.NothingRunsAfterShutdown | backend/src/batchcraft/application/tasks.py:113-142 | once shutdown has returned every task ever admitted is done and none is admitted later, also when a start had passed the closing check before |
| RunLifecycle.DrainHasCancelled | backend/src/batchcraft/application/tasks.py:131-140 | in every reachable state in which the drain waits for the tasks, each task that has not ended has been cancelled |
| RunSteps.CancelledExactly | backend/src/batchcraft/application/tasks.py:100-140 | a task is cancelled exactly by a stored detach of its own or by the drain if it is registered, and no step takes that back |
| RunSteps.DrainExactly | backend/src/batchcraft/application/tasks.py:113-142 | the first shutdown begins the drain, which takes the lock, waits for exactly the tasks registered then, takes the lock again and is over; no other step moves it |
| RunSteps.ClosingExactly | backend/src/batchcraft/application/tasks.py:113-115 | admission is closed by shutdown, by nothing else, and for good |
| RunSteps.StartDecided | backend/src/batchcraft/application/tasks.py:63-75 | a start that gets the lock goes on exactly if shutdown has not begun and no registered task runs, whichever Run it is for |
| RunSteps.DiscardDecided | backend/src/batchcraft/application/tasks.py:82-89 | a discard that gets the lock goes on exactly if shutdown has not begun and its own Run does not run; another running Run does not matter |
| RunSteps.RequestDecided | backend/src/batchcraft/application/tasks.py:100-108 | a request that gets the lock goes on exactly if its Run runs, with that Run's task, also after shutdown has begun |
| RunSteps.RegisteredExactly | backend/src/batchcraft/application/tasks.py:63-162 | a task is registered when it is created, and its entry goes exactly when its own callback gets the lock, a caller finds it finished, or the drain clears the registry |
| RunSteps.CreatedExactly | backend/src/batchcraft/application/tasks.py:75-80 | a task is created exactly at the end of a storage check that went well, of a start that was neither detached nor cancelled |
| RunSteps.DoneExactly | backend/src/batchcraft/application/tasks.py:144-151 | a task ends exactly by its own completion |
| RunSteps.LockExactly | backend/src/batchcraft/application/tasks.py:63-111 | who holds the registry lock after each step: a caller joined to its worker keeps it when cancelled, a request lets go of it |
| RunSteps.WaitingExactly | backend/src/batchcraft/application/tasks.py:144-157 | a caller waits from its call until it gets the lock or is cancelled, and each completion starts its own callback |
| RunSteps.HolderExactly | backend/src/batchcraft/application/cancellation.py:35-51 | who holds a control's lock after each step, and that an admission yields true exactly if neither flag is set |
| RunSteps.RecordedExactly | backend/src/batchcraft/db/cancellations.py:29-64 | an intent is recorded exactly by the commit of a write for it, and with that commit's time exactly the first time |
| RunSteps.WritesExactly | backend/src/batchcraft/application/cancellation.py:40-51 | a write is begun exactly when a request gets the control's lock, for its own Run and mode |
| RunProgress.CallerGetsIn | backend/src/batchcraft/application/tasks.py:55-162 | at any moment of any run every caller that waits for the lock can get it, with nobody cancelled and no write failing on the way |
| RunProgress.ShutdownCanFinish | backend/src/batchcraft/application/tasks.py:113-142 | at any moment of any run a shutdown that was begun can finish in this way too |
| RunLifecycle.RequestCompletes | backend/src/batchcraft/application/tasks.py:100-111 | the step that completes a request finds the record of its mode durable, sets the flag of that mode and leaves the other; only a detach cancels the task |
| RunLifecycle.NoAdmissionAfterRequest | backend/src/batchcraft/application/cancellation.py:35-51 | after a request has completed no later admission of the same task's control yields true |
| RunLifecycle.OpenAdmissionExcludesRequest | backend/src/batchcraft/application/cancellation.py:35-51 | while an admission that yielded true is open no request for that task completes |
| RunLifecycle.StepKeepsFlag | backend/src/batchcraft/application/cancellation.py:30-51 | each of the two flags once set stays set, and only the step that completes a request of its mode for that task sets it |
| RunLifecycle.RecordIsCreatedOnce | backend/src/batchcraft/db/cancellations.py:29-64 | an intent is recorded once; its first timestamp never changes |
| RunAgreement.RecordWithoutFlagExactly | backend/src/batchcraft/application/cancellation.py:40-51 | over every run: a live task lacks the flag of a recorded request, with no flag about to be set, exactly if one of three steps caused it (a request abandoned between record and flag, an abandoned write committing later, a task started from intents read before the record) and since then the task has neither ended nor had another request of that mode recorded for it |
| RunAgreement.RecordMeansFlag | backend/src/batchcraft/application/service.py:816-866 | in every run in which a task is created only for a Run that had none and no request is cancelled while it is being stored, a live task whose Run is recorded carries that mode's flag or is just being flagged |
| RunAgreement.NoAdmissionForRecordedRun | backend/src/batchcraft/application/cancellation.py:35-38 | in those runs no admission yields true for a recorded Run, whichever task asks |
| RunAgreement.AbandonedRecord | backend/src/batchcraft/application/cancellation.py:40-51 | a run from a fresh process that ends with a recorded stop and a live task without the flag: the caller is cancelled while its thread writes |
| RunAgreement.RestartedAdmission | backend/src/batchcraft/application/service.py:816-866 | a run from a fresh process, with nobody cancelled, after whose recorded and completed stop a second start of the same Run is admitted, its intents having been read before |
| RunLifecycle.DiscardedRunIsQuiet | backend/src/batchcraft/application/tasks.py:82-89 | in every reachable state in which a discard is writing, every task of that Run has ended |
| RunLifecycle.DiscardExcludesStart | backend/src/batchcraft/application/tasks.py:82-89 | and while it writes no step creates a task of that Run |
| RunRegistry.RunTaskRegistry.RemoveCompleted | backend/src/batchcraft/application/tasks.py:159-162 | the loop removes exactly the entries of completed tasks |
| RunRegistry.RunTaskRegistry.StartSection | backend/src/batchcraft/application/tasks.py:63-75 | start up to its storage check is the specified step |
| RunRegistry.RunTaskRegistry.StartPrepared | backend/src/batchcraft/application/tasks.py:75-80 | after the check: creating and registering the task are one step, and none is created for a cancelled caller or a detached run |
| RunRegistry.RunTaskRegistry.DiscardSection | backend/src/batchcraft/application/tasks.py:82-89 | discard up to its storage write is the specified step |
| RunRegistry.RunTaskRegistry.RequestSection | backend/src/batchcraft/application/tasks.py:100-108 | request_cancellation up to the control's lock is the specified step |
| RunRegistry.RunTaskRegistry.RequestStored | backend/src/batchcraft/application/cancellation.py:40-51 | after the durable write the flag is set, both locks are freed and a detach cancels the task |
| RunRegistry.RunTaskRegistry.ReleaseSection | backend/src/batchcraft/application/tasks.py:153-157 | a completion callback removes the entry only if it is its own task's |
| RunRegistry.RunTaskRegistry.DrainSection | backend/src/batchcraft/application/tasks.py:131-138 | the loop that cancels each registered task not yet being cancelled is the specified step; that exactly the registered tasks are cancelled and stay so is CancelledExactly and DrainHasCancelled |
| RunRegistry.StorageCheckJoined | backend/src/batchcraft/application/tasks.py:75-80 | after a storage check joined through any cancellations the worker has ended, and a task is created exactly if the check succeeded and nobody cancelled the caller |
| FileOperations.JoinsWorker | backend/src/batchcraft/_async_io.py:13-29 | over every run of a call, however often it is cancelled, it does not leave while its worker runs, unless an exception strikes that no handler stops |
| FileOperations.DropsNothing | backend/src/batchcraft/_async_io.py:13-29 | without a cancellation the call ends with the worker's own result or error; with one it ends in it, or in a fault of the worker |
| FileOperations.GoesOnExactly | backend/src/batchcraft/_async_io.py:13-29 | the call returns exactly when the worker succeeded and nobody cancelled the caller, and then with the worker's result |
| FileOperations.LeavesAtOnce | backend/src/batchcraft/_async_io.py:20-29 | once the worker has ended the caller can be run on, and then leaves |
| FileOperations.StruckLeavesEarly | backend/src/batchcraft/_async_io.py:13-29 | a run in which such an exception makes the call leave while its worker runs |
| FileOperations.FileOperation | backend/src/batchcraft/_async_io.py:10-29 | the function with its join loop, over any sequence of ends, cancellations and resumptions, ends as that run does |
| Decimals.ParseMeaning | backend/src/batchcraft/domain/parameter_intents.py:182-195 | an accepted text denotes sign, whole part and fraction over a power of ten |
| Decimals.SimpleIsGrammar | backend/src/batchcraft/domain/parameter_intents.py:14 | a text is accepted exactly when it can be put together by the grammar: a sign or none, digits, optionally a point and digits, and the parts are determined |
| Decimals.ParsePrint | backend/src/batchcraft/domain/parameter_intents.py:148-201 | parsing the printed form of any integer at any scale gives back integer and scale |
| Decimals.PrintParsed | backend/src/batchcraft/domain/parameter_intents.py:148-201 | printing a parsed text keeps its value and its scale |
| Parameters.ValidateAlternatives | backend/src/batchcraft/domain/models.py:69-84 | accepted exactly: nonempty, all safe, pairwise different (numbers compare together, booleans apart), Base first |
| Parameters.CountIsGrid | backend/src/batchcraft/domain/parameter_intents.py:148-179 | the k-th grid point lies between start and end inclusive exactly when k < count, so the next one overshoots |
| Parameters.PaddingChangesNothing | backend/src/batchcraft/domain/parameter_intents.py:117-179 | operands with more trailing zeros, hence a larger common scale, give the same verdict, count, start, step and the same points, with or without Base |
| Parameters.PaddingKeepsRepresentable | backend/src/batchcraft/domain/parameter_intents.py:117-140 | and the same answer to whether every point can be written down exactly, given that reading a decimal text depends on its number alone |
| Parameters.PointExact | backend/src/batchcraft/domain/parameter_intents.py:126-127 | floor division of the scaled integer points loses nothing |
| Parameters.SafeIffEndsSafe | backend/src/batchcraft/domain/parameter_intents.py:128-132 | an integer range is refused exactly when its first or last value leaves the safe range |
| Parameters.PointsAreAlternatives | backend/src/batchcraft/domain/parameter_intents.py:141-145 | points are pairwise different and Base comes first, so the closing check never refuses |
| Parameters.NumericPoints | backend/src/batchcraft/domain/parameter_intents.py:117-140 | the loop yields the grid points in order, or refuses when one cannot be represented |
| Parameters.MaterializeRange | backend/src/batchcraft/domain/parameter_intents.py:117-145 | materialisation gives Base if wanted and then all grid points, or the specified refusal |
| Parameters.BindingCounts | backend/src/batchcraft/domain/parameter_intents.py:64-99 | accepted exactly when every intent is for its own known parameter and countable; the sizes in order |
| Parameters.MaterializeBindings | backend/src/batchcraft/domain/parameter_intents.py:44-61 | succeeds exactly when countable, within the bound and representable, with one binding per intent of exactly the counted size |
| RangeMeaning.RangeDecided | backend/src/batchcraft/domain/parameter_intents.py:148-179 | in exact arithmetic: refused for a zero step, for a number that is no integer where integers are asked for, for a step away from the end, or if the point after the ten thousandth step still lies in the range, in this order; accepted otherwise |
| RangeMeaning.RangePoints | backend/src/batchcraft/domain/parameter_intents.py:117-179 | an accepted range has exactly as many points as do not lie beyond its end, and the k-th is exactly start + k * step, written as the type asks |
| RangeMeaning.RangeTextsDecided | backend/src/batchcraft/domain/parameter_intents.py:148-195 | before that the type is checked, then the three texts in order, each with its own fault |
| RangeMeaning.PointFitsExactly | backend/src/batchcraft/domain/parameter_intents.py:123-140 | a point is representable exactly if it is a safe integer, or if every decimal text of it reads back as it |
| MaterializedValues.SameTypeCheck | backend/src/batchcraft/domain/parameter_intents.py:102-114 | an alternative is accepted for a parameter exactly when preparing a workflow accepts its JSON value there |
| MaterializedValues.DrawnIsKnown | backend/src/batchcraft/domain/parameter_intents.py:44-61 | whatever alternatives a Job draws from materialised bindings of a profile's parameters, preparing the workflow finds every key known and every value typed |
| WorkflowOverlay.ValidateWorkflow | backend/src/batchcraft/comfyui/workflow.py:93-110 | accepts exactly the nonempty graphs whose nodes all have a class and an inputs object |
| WorkflowOverlay.ReadSlots | backend/src/batchcraft/comfyui/workflow.py:225-260 | reads the slot array in order under unique valid keys, and fails only if there is no such reading |
| WorkflowOverlay.ReadParameters | backend/src/batchcraft/comfyui/workflow.py:263-314 | the same for parameters and their types |
| WorkflowOverlay.ValidateProfile | backend/src/batchcraft/comfyui/workflow.py:113-222 | with its growing set of used targets it accepts exactly the profiles whose sections target different, existing, literal inputs with typed base values |
| WorkflowOverlay.Prepare | backend/src/batchcraft/comfyui/workflow.py:25-90 | succeeds exactly for usable and known values on a valid profile, and the result is the base with each supplied value at its target and nothing else changed |
| ProfileDocuments.ProfileReading | backend/src/batchcraft/comfyui/workflow.py:113-314 | a JSON document reads as a profile exactly when it is that profile's document: the three mappings, image inputs and parameters in order, with proper and unique keys and nothing else in them |
| ProfileDocuments.StableKeyIsGrammar | backend/src/batchcraft/domain/image_slots.py:4-24 | the accepted keys are exactly those put together from a letter, letters, digits and single underscores between segments |
| WorkflowOverlay.PreparedIsOverlay | backend/src/batchcraft/comfyui/workflow.py:70-88 | no write hides another: the result is the base overlaid with all the writes |
| WorkflowOverlay.PreparedIsUnique | backend/src/batchcraft/comfyui/workflow.py:70-90 | the statement leaves no freedom, so the order of the writes does not matter |
| WorkflowOverlay.WritesCommute | backend/src/batchcraft/comfyui/workflow.py:70-88 | writes to different inputs commute |
| WorkflowOverlay.WiringUnchanged | backend/src/batchcraft/comfyui/workflow.py:368-377 | the set of connection edges is that of the base |
| WorkflowOverlay.PreparedIsValid | backend/src/batchcraft/comfyui/workflow.py:44-90 | the result validates against the same profile |
| WorkflowOverlay.PrepareTwice | backend/src/batchcraft/comfyui/workflow.py:25-90 | preparing a prepared workflow is preparing the base with the merged values |
| WorkflowOverlay.OverridingForgets | backend/src/batchcraft/comfyui/workflow.py:25-90 | values that override everything supplied before give what preparing the base gives |
| GlobalLibrary.RunKeeps | backend/src/batchcraft/db/global_workflows.py:206-789 | over any calls and any changes the Projects make, names stay unique, versions numbered, ownership and profile validity hold, and no stored version changes but for its archive mark |
| GlobalLibrary.ReachableLibrary | backend/src/batchcraft/db/global_workflows.py:206-789 | every library that calls can lead to is consistent |
| GlobalLibrary.StepKeeps | backend/src/batchcraft/db/global_workflows.py:206-789 | the same for one call of any kind |
| GlobalLibrary.FamilyNumbers | backend/src/batchcraft/db/global_workflows.py:823-825 | in a reachable library the numbers of a family are exactly 1..n, for versions and for profile versions |
| GlobalLibrary.UseKeepsProject | backend/src/batchcraft/db/global_workflows.py:640-660 | using a library setup in a Project leaves the library alone and keeps the Project's tables consistent |
| GlobalLibrary.SavedWorkflow | backend/src/batchcraft/db/global_workflows.py:273-298 | saving adds exactly one version row, the next of its active family, with the given content under the family's current name |
| GlobalLibrary.SavedProfile | backend/src/batchcraft/db/global_workflows.py:322-363 | saving a profile adds exactly one version for an active target of its own family, valid for that target, with the given sections |
| GlobalLibrary.RenamedWorkflow | backend/src/batchcraft/db/global_workflows.py:391-409 | renaming changes name, description and update time of one row, takes no used name, and touches no version |
| GlobalLibrary.RenamedProfile | backend/src/batchcraft/db/global_workflows.py:391-409 | the same for a profile, within its workflow |
| GlobalLibrary.UnarchiveUndoes | backend/src/batchcraft/db/global_workflows.py:423-445 | unarchiving a version restores the tables from before it was archived |
| LibraryCalls.AuthorStores | backend/src/batchcraft/db/global_workflows.py:206-259 | a request that succeeds for the first time stores its receipt, and every row it answers with is stored under its id as answered; local tables, projects and copies stay |
| LibraryCalls.SaveWorkflowDecided | backend/src/batchcraft/db/global_workflows.py:273-298 | saving a workflow: which of the errors, and success, each exactly when |
| LibraryCalls.SaveWorkflowStores | backend/src/batchcraft/db/global_workflows.py:273-298 | after it the library has exactly one more version, the next of its family, and the family row as given; every other row is as before |
| LibraryCalls.SaveNewProfileDecided | backend/src/batchcraft/db/global_workflows.py:322-363 | saving a new profile: each outcome exactly when |
| LibraryCalls.SaveNextProfileDecided | backend/src/batchcraft/db/global_workflows.py:322-363 | saving a further version of a profile: each outcome exactly when |
| LibraryCalls.SaveProfileStores | backend/src/batchcraft/db/global_workflows.py:322-363 | after either the library has exactly one more profile version, with the given sections, and every other row is as before |
| LibraryCalls.UpdateWorkflowDecided | backend/src/batchcraft/db/global_workflows.py:380-409 | renaming a workflow: each outcome exactly when, and the one row it writes |
| LibraryCalls.UpdateProfileDecided | backend/src/batchcraft/db/global_workflows.py:380-409 | renaming a profile: each outcome exactly when, and the one row it writes |
| LibraryCalls.SetArchivedDecided | backend/src/batchcraft/db/global_workflows.py:411-445 | archiving and unarchiving: missing rows are refused, else exactly that row carries the time or no mark, and no other row changes |
| LibraryCalls.ReceiptAnswers | backend/src/batchcraft/db/global_workflows.py:226-236 | under a receipt nothing is written: the same request is answered again, another one is a conflict, an improper one refused |
| GlobalLibrary.CopyIsFaithful | backend/src/batchcraft/db/global_workflows.py:697-789 | a copy is a new family whose version 1 holds the source workflow, with each chosen profile as version 1 of a new profile with the same sections; existing rows stay |
| LibraryCopies.CopyRefused | backend/src/batchcraft/db/global_workflows.py:572-610 | without a receipt a copy is refused for its texts, its Project, or its source version, each exactly when |
| LibraryCopies.CopyRefusedAt | backend/src/batchcraft/db/global_workflows.py:611-633 | and for the first chosen profile that is missing, of another version, or not the Project's |
| LibraryCopies.CopyDecided | backend/src/batchcraft/db/global_workflows.py:640-789 | otherwise it succeeds exactly if ids and names are free and each profile fits, and then it adds to the destination exactly the family under the given name or the source's, its version 1 and the chosen profiles; source and everything else stay |
| LibraryCopies.CopyReceiptAnswers | backend/src/batchcraft/db/global_workflows.py:672-682 | under a receipt nothing is copied |
| LibraryCopies.ImportRefused | backend/src/batchcraft/db/global_workflows.py:74-124 | a historical import is refused for its texts, for digests that differ from the reviewed ones, or for an invalid snapshot, each exactly when |
| LibraryCopies.ImportDecided | backend/src/batchcraft/db/global_workflows.py:74-124 | otherwise it succeeds exactly if ids and names are free, and adds exactly the snapshot as a new family |
| GlobalLibrary.WriteCopyKeeps | backend/src/batchcraft/db/global_workflows.py:697-789 | a copy keeps the destination consistent, in both directions |
| GlobalLibrary.AuthoredAtMostOnce | backend/src/batchcraft/db/global_workflows.py:206-259 | after a request succeeded, every later call under its id changes nothing: the same request gets the first response, another one an error |
| GlobalLibrary.CopiedAtMostOnce | backend/src/batchcraft/db/global_workflows.py:672-682 | the same for copies and historical imports, which share their receipts |
| GlobalLibrary.FailureChangesNothing | backend/src/batchcraft/db/global_workflows.py:251-259 | a call that fails leaves the database as it was |
| GlobalLibrary.RunKeepsReceipts | backend/src/batchcraft/db/global_workflows.py:226-236 | receipts are never changed or dropped |
| GlobalStore.FindNext | backend/src/batchcraft/db/global_workflows.py:823-825 | the next number is one above the highest of the family |
| GlobalStore.GlobalWorkflowStore.Author | backend/src/batchcraft/db/global_workflows.py:206-259 | receipt lookup, write, receipt, commit or rollback are the specified call, which stores what it answers (LibraryCalls.AuthorStores and the rows after it) |
| GlobalStore.GlobalWorkflowStore.SaveWorkflow | backend/src/batchcraft/db/global_workflows.py:273-298 | the write of save_workflow |
| GlobalStore.GlobalWorkflowStore.SaveProfile | backend/src/batchcraft/db/global_workflows.py:322-363 | the write of save_profile |
| GlobalStore.GlobalWorkflowStore.UpdateMetadata | backend/src/batchcraft/db/global_workflows.py:380-409 | the write of update_metadata: the supplied fields of one row, unless its name is taken |
| GlobalStore.GlobalWorkflowStore.SetArchived | backend/src/batchcraft/db/global_workflows.py:411-445 | the write of set_archived: the mark of one row in one of four tables, with an update time for families only |
| GlobalStore.GlobalWorkflowStore.InsertProfiles | backend/src/batchcraft/db/global_workflows.py:733-771 | the loop over the chosen profiles stops at the first refusal and otherwise inserts each |
| GlobalStore.GlobalWorkflowStore.Copy | backend/src/batchcraft/db/global_workflows.py:560-669 | checks, receipt, source checks, copy and commit: exactly the specified outcome |
| GlobalStore.GlobalWorkflowStore.ImportHistorical | backend/src/batchcraft/db/global_workflows.py:74-124 | digest preconditions, validation, copy and commit: exactly the specified outcome |
| BindingTables.QueryIsRows | backend/src/batchcraft/db/saved_batches.py:920-940 | for any binding and value table: a list of rows has exactly the rows of the left join, in the order of binding and value position, if and only if it is the list of the bindings' rows group by group |
| BindingTables.InsertedGrouped | backend/src/batchcraft/db/saved_batches.py:818-888 | the two tables filled binding by binding, grouped, are the bindings that were stored |
| BindingTables.GroupedIsInserted | backend/src/batchcraft/db/saved_batches.py:818-940 | any two tables under their keys group to given bindings exactly when they are what storing these leaves |
| SavedBatchRows.Regroup | backend/src/batchcraft/db/saved_batches.py:1138-1248 | the stateful decoding loop over joined rows reads exactly the groups behind them, and refuses when a position is missing or a part is unreadable |
| SavedBatchRows.ImageBindings | backend/src/batchcraft/db/saved_batches.py:1138-1177 | decoding gives bindings exactly when the rows are what storing those valid bindings leaves |
| BindingTables.ImagesRoundTrip | backend/src/batchcraft/db/saved_batches.py:867-888 | any two tables under their keys read as given valid image bindings exactly when they are what storing these leaves |
| BindingTables.ReadImageBindings | backend/src/batchcraft/db/saved_batches.py:920-1177 | decoding what the query returns gives image bindings exactly when they are valid and the tables are what storing them leaves |
| SavedBatchRows.ParameterBindings | backend/src/batchcraft/db/saved_batches.py:1180-1248 | decoding gives intents exactly when the rows are what storing those valid intents leaves |
| BindingTables.IntentsRoundTrip | backend/src/batchcraft/db/saved_batches.py:818-851 | the same for parameter intents, explicit values and ranges |
| BindingTables.ReadParameterBindings | backend/src/batchcraft/db/saved_batches.py:930-1248 | decoding what the query returns gives intents exactly when they are valid and the tables are what storing them leaves |
| LinkedSetRows.LinkedSets | backend/src/batchcraft/db/saved_batches.py:1251-1312 | decoding the cross join gives sets exactly when the four tables hold those sets cell by cell, contiguously numbered |
| LinkedSetRows.SetsRoundTrip | backend/src/batchcraft/db/saved_batches.py:771-817 | numbered groups of rows hold valid sets exactly when they are the groups of those sets |
| LinkedSetTables.InsertedGrouped | backend/src/batchcraft/db/saved_batches.py:771-817 | the four tables filled by the nested enumerations, grouped by set position, are these groups |
| LinkedSetTables.QueryIsAllRows | backend/src/batchcraft/db/saved_batches.py:941-958 | for any four tables under their keys: a list of rows has exactly the rows of the left joins, in the order of set, row and member position, if and only if it is the list of the groups' cross joins |
| LinkedSetTables.StoredQuery | backend/src/batchcraft/db/saved_batches.py:771-958 | what storing valid sets leaves keeps the foreign keys, and the query on it returns the numbered cross joins of the sets and nothing else |
| LinkedSetTables.FlatRoundTrip | backend/src/batchcraft/db/saved_batches.py:771-958 | any four tables under their keys hold sets exactly when these are valid and the tables are what storing them leaves |
| LinkedSetTables.ReadLinkedSets | backend/src/batchcraft/db/saved_batches.py:941-1312 | decoding what the query returns gives sets exactly when they are valid and the tables are what storing them leaves, so stored sets come back as they were |
| Positions.RisingContiguous | backend/src/batchcraft/db/saved_batches.py:1255-1259 | positions are one-based and contiguous exactly when the j-th one is j + 1 |
| BindingOrder.NormalizedIsOrdered | backend/src/batchcraft/db/saved_batches.py:1358-1377 | the normalised bindings pass the later order check exactly when the given ones were an arrangement of the independent parameters |
| BindingOrder.NormalizedRearranges | backend/src/batchcraft/db/saved_batches.py:1358-1377 | normalising only rearranges |
| BindingOrder.NormalizedTwice | backend/src/batchcraft/db/saved_batches.py:1358-1377 | normalising twice is normalising once |
| BatchRevisions.RunSound | backend/src/batchcraft/db/saved_batches.py:123-308 | over any calls every stored selection resolves to a prompt version of the batch's own project, and prompt versions stay numbered |
| BatchRevisions.ReachableSound | backend/src/batchcraft/db/saved_batches.py:123-308 | in every state that calls can lead to this holds, and a batch loads one prompt per stored selection |
| BatchRevisions.DeletedPromptSound | backend/src/batchcraft/db/prompts.py:251-275 | deleting a prompt removes its versions and, being refused while a batch selects one, leaves no selection dangling |
| BatchRevisions.LoadKeepsAll | backend/src/batchcraft/db/saved_batches.py:902-912 | the inner join in the loader drops no selection |
| BatchRevisions.UpdateMoves | backend/src/batchcraft/db/saved_batches.py:213-287 | an update succeeds only against the current revision, moves it to the next, and then loads exactly the saved selections |
| BatchRevisions.OneSuccessPerRevision | backend/src/batchcraft/db/saved_batches.py:232-278 | of all updates expecting one revision at most one succeeds, whatever runs in between; the others change nothing |
| BatchRevisions.RevisionStep | backend/src/batchcraft/db/saved_batches.py:213-308 | in every call a batch stays as it is or goes to the next revision |
| BatchRevisions.LoadedContentStays | backend/src/batchcraft/db/saved_batches.py:900-912 | while a batch keeps its revision what it loads does not change |
| BatchRevisions.SecondArchiveNothing | backend/src/batchcraft/db/saved_batches.py:289-308 | a second archive changes nothing |
| BatchRevisions.FailureChangesNothing | backend/src/batchcraft/db/saved_batches.py:213-308 | a call that fails leaves prompts, versions and batches as they were |
| BatchCalls.CreateBatchDecided | backend/src/batchcraft/db/saved_batches.py:123-189 | creating a batch: each error, and success, exactly when; the new row starts unarchived at revision one with the definition's name and selections, and nothing else changes |
| BatchCalls.UpdateBatchDecided | backend/src/batchcraft/db/saved_batches.py:213-287 | updating one: succeeds exactly for the current revision and selections as they are stored in the batch's Project; name and selections are replaced, the revision rises by one, the rest stays |
| BatchCalls.ArchiveBatchDecided | backend/src/batchcraft/db/saved_batches.py:289-308 | archiving one: afterwards it is archived, its revision is higher by one exactly if it was not archived before, and nothing else changes |
| BatchCalls.CreatePromptDecided | backend/src/batchcraft/db/prompts.py:67-137 | creating a prompt: each error, and success, exactly when, and the two rows it adds |
| BatchCalls.RenamePromptDecided | backend/src/batchcraft/db/prompts.py:174-227 | renaming one: each outcome exactly when; versions keep the name they were made under |
| BatchCalls.CreateVersionDecided | backend/src/batchcraft/db/prompts.py:362-413 | a new version: each outcome exactly when; its number is the one after the highest of its prompt, its name the prompt's present one |
| BatchCalls.DeletePromptDecided | backend/src/batchcraft/db/prompts.py:251-275 | deleting a prompt: succeeds exactly if no batch selects any of its versions, and these go with it |
| BatchStore.Stores.Create | backend/src/batchcraft/db/saved_batches.py:123-189 | root insert, then the selection rows: the constraint violation is the conflict; with any statement failing, the tables are as before |
| BatchStore.Stores.Update | backend/src/batchcraft/db/saved_batches.py:213-287 | root row read, revision compared, UPDATE with its own revision test and row count, rows deleted and inserted one by one, commit: the specified outcome, or nothing stored if the database fails at any statement, or everything stored if it fails only at reading back |
| BatchStore.Stores.Archive | backend/src/batchcraft/db/saved_batches.py:289-308 | the conditional UPDATE and its row count tell archived from missing |
| BatchStore.Stores.LoadSelections | backend/src/batchcraft/db/saved_batches.py:902-912 | reading the selection rows by position through the join gives what the specification loads, one per row |
| BatchStore.OneBatchWritten | backend/src/batchcraft/db/saved_batches.py:753-781 | changing one root row and replacing its selection rows changes that batch and no other |
| BatchStore.RowsReferenceMeaning | backend/src/batchcraft/db/prompts.py:257-264 | the join over selection rows finds a row exactly when some batch selects a version of the prompt |
| BatchStore.Stores.CreatePrompt | backend/src/batchcraft/db/prompts.py:67-137 | two inserts or none: a failure at the second leaves no prompt behind |
| BatchStore.Stores.CreateVersion | backend/src/batchcraft/db/prompts.py:362-413 | numbering and inserting a prompt version; the unique number is never violated |
| BatchStore.Stores.DeletePrompt | backend/src/batchcraft/db/prompts.py:251-275 | the reference query, then the delete that cascades to versions and is restricted by selections: the specified outcome, or nothing changed if a statement fails |
| Budgets.CheckBudget | backend/src/batchcraft/db/saved_batches.py:112-121 | the running division accepts exactly when the product of the sizes before the first empty axis is within the maximum, and never lets the count pass it |
| Budgets.BudgetIsExact | backend/src/batchcraft/db/saved_batches.py:112-121 | it agrees with the full product except exactly when an axis is empty and those before the first empty one are already too many |
| Budgets.EmptyAxisRefused | backend/src/batchcraft/db/saved_batches.py:112-121 | an example of that exception |
| Budgets.DefinitionBudget | backend/src/batchcraft/db/saved_batches.py:112-121 | for countable intents and linked sets that have rows no axis is empty and the loop decides the full product |
| Budgets.CheckMaterializationBudget | backend/src/batchcraft/db/saved_batches.py:92-121 | the whole check over parameters, intents and numbers of linked rows: refuses what cannot be counted and otherwise decides the full product, unless a linked set has no row |
| Budgets.DividedBudgetAgrees | backend/src/batchcraft/db/saved_batches.py:673-680 | dividing the linked rows out of the maximum first is the same bound |
| Budgets.PreviewBudget | backend/src/batchcraft/application/service.py:298-308 | the divided cap bounds the base count exactly when the whole preview fits both the maximum and the seed space |
| Budgets.MaterializeSeeds | backend/src/batchcraft/application/service.py:1185-1206 | the seeds are the first distinct values of the stream, all in range; it succeeds exactly when some usable prefix of the stream holds enough |
| Budgets.DistinctOrder | backend/src/batchcraft/application/service.py:1194-1206 | seeds come in the order in which they first occur |
| ByteLimits.RefusalIsNumeric | backend/src/batchcraft/api/security.py:128-139 | the server's and the client's digit-string checks both decide whether the number is above the limit, for any length |
| ByteLimits.SameLengthOrder | backend/src/batchcraft/comfyui/client.py:345-351 | among numerals of one length text order is number order |
| ByteLimits.ReadResponse | backend/src/batchcraft/comfyui/client.py:332-365 | refuses a content encoding; refuses exactly when a well-formed declaration, the content of a response read before, or the received bytes exceed the limit; reports a broken stream; otherwise the content is all there is |
| ByteLimits.Accumulate | backend/src/batchcraft/comfyui/client.py:352-363 | the bounded accumulation collects everything or refuses, exactly by the total size |
| RequestBody.RunBalanced | backend/src/batchcraft/api/security.py:142-218 | over every interleaving, with an exception or cancellation at any await, the counter is the number of leases held and stays within the maximum |
| RequestBody.ReleasedOnce | backend/src/batchcraft/api/security.py:148-218 | an ended request has taken at most one lease and given it back exactly as often as it took it, unless, leased and awaiting the first receive, it was struck by an exception that is neither an error nor a cancellation, and then not |
| RequestBody.PathsEnd | backend/src/batchcraft/api/security.py:142-218 | a request has at most five steps after it arrived, and exactly until it has ended some step is possible |
| RequestBody.StruckLeaks | backend/src/batchcraft/api/security.py:209-218 | a run in which the lease and the file are lost |
| RequestBody.NothingLeaks | backend/src/batchcraft/api/security.py:209-218 | once all requests have ended the counter is zero exactly if none was struck in this way |
| RequestBody.Spool | backend/src/batchcraft/api/security.py:163-192 | complete, too large or gone exactly when a message decides it and the awaits up to there end before the deadline, with the seek after an excess counted too; expired in every other case; a complete body is all bytes received |
| RequestBody.SpoolDecided | backend/src/batchcraft/api/security.py:163-192 | at most one message decides, and in one way |
| RequestBody.LeaseExactly | backend/src/batchcraft/api/security.py:148-218 | a request gets a lease exactly when it may have a body and fewer than the maximum are held, and keeps it until the last await of its finally block |
| RequestBody.ServedExactly | backend/src/batchcraft/api/security.py:148-208 | the application is called exactly for an empty body, without a lease, and for a body spooled whole |
| RequestBody.RefusedExactly | backend/src/batchcraft/api/security.py:160-192 | a refusal is sent exactly when all leases are held, or the body was too large or too late |
| RequestBody.FileExactly | backend/src/batchcraft/api/security.py:166-216 | a spool file is open from the start of the spooling until the finally block has closed it |
| RequestBody.EndedExactly | backend/src/batchcraft/api/security.py:209-218 | a request is over exactly after its finally block, of one await or two |
| RequestBody.ReplayIsExact | backend/src/batchcraft/api/security.py:194-206 | the replayed chunks concatenate to the received bytes, and more_body is false on the last one and no other |
| RequestBody.Replay.Next | backend/src/batchcraft/api/security.py:197-206 | one call delivers the next message of the replay and counts down |
| RequestBody.RequestSecurityMiddleware.Look | backend/src/batchcraft/api/security.py:148-165 | after the probe: no lease for a disconnect or an empty body, refusal exactly at full capacity, otherwise one lease, kept also when the spool file cannot be made |
| RequestBody.RequestSecurityMiddleware.AfterAwaitingFirst | backend/src/batchcraft/api/security.py:210-214 | after the await that suppresses errors and cancellations: on to closing the file, or the release, or neither |
| RequestBody.RequestSecurityMiddleware.AfterClosing | backend/src/batchcraft/api/security.py:213-218 | however closing the file ends, the inner finally releases |

## Left out

- Batch compiler, Run executor, execution-state store and file stores: they are not part of this model; where a step depends on one of them, its outcome is a parameter.
- Lock fairness: any waiter may get a free registry or control lock next, which covers the FIFO order of `asyncio.Lock` and every other one.
- Joined calls in the registry: a start's storage check and a discard's write are one suspension each in `RunLifecycle`; that they end before a cancellation is delivered is proved of the join loop, except for an exception that no handler stops, which is no event of the registry. Blocking of the event loop and cancel scopes other than task cancellation are left out.
- SQLite: only primary keys, uniqueness, row-value order, `instr`/`lower` on ASCII letters and placeholder order are modelled, on maps and sequences; no WAL, indexes or migrations.
- Cursor text: decoding errors of a cursor, its length bound and the version field; a cursor is the record it encodes.
- Filter parsing: the validation of individual filter fields and duplicate JSON keys; the canonical order of clauses is modelled. Negative zero is the number zero.
- Row contents: history and catalog pages are modelled as keys and row identities, not as the selected columns, counts and latest-version lookups beside them.
- Source ancestry: the provenance recorded with a copied setup and its presentation.
- Saved Batch children that are single columns: variable bindings and seed arrays, stored as one JSON array each.
- Workflow and profile selections of a Saved Batch: whether the rest of a definition is acceptable is a parameter of the revision model.
- Path safety of a batch's filesystem key: only its uniqueness in the Project is modelled.
- Prompt archiving and prompt descriptions: they take part in no invariant here.
- Decimal digits outside ASCII: the pattern `\d` also accepts other scripts' digits.
- JSON documents: copying a workflow before writing into it is implicit, since documents are values; sharing between caller and result is not captured.
- Error wording: error classes that callers distinguish are kept; messages are not.
- Host and origin policy, CORS, HTTP routing, WebSocket observation, multipart staging and the frontend.
- Mutual exclusion of an `asyncio.Lock`: it is the lock's own guarantee, represented by its single owner; what the sections guarded by it promise is proved.
- RunAgreement.RecordMeansFlag: that a Run which had a task is not started again is a hypothesis on the steps of the run, because the state file that ensures it is written by the executor.
- The two intents of a start: they are read in two threads that the caller awaits together, and the model reads them in one step.
- HistoryQuery.Browse: pages are row identities with their keys; the selected columns, the scan time and the decoding of cursor text are left out.
- Catalog.Browse: pages are row identities with their keys; the selected columns and the latest-version lookups are left out.
- BatchRevisions.LoadedContentStays: speaks of the prompt selections; the other children of a batch are not part of the revision model.
- RequestBody.RequestSecurityMiddleware.AfterAwaitingFirst: an exception may strike at this await in every case, also when the first receive has already ended and the await does not suspend.
- SavedBatchRows.Regroup: requires rows shaped like a left join ordered by position, which is what its query delivers; other row sequences are not considered.
- LinkedSetRows.LinkedSets: requires the ordered left join of the four tables under their primary and foreign keys.
