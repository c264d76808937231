# Verified models of the translation pipeline, its concurrent kernels and its deployment journals

`dafny verify dfyconfig.toml` checks the whole project. Each file is one module and follows one part of
the repository.

**The translation pipeline.** `Texts` and `Grouping` cover greedy batching under a count bound and a token
bound. `WorkBudget` is the shared budget with sticky cancellation. `Envelope` is the segment envelope
protocol on parsed JSON, with objects as member lists so that a duplicate key is visible. `Translator` is
one group worker: provider calls, retries, upstream slots, two envelope attempts, then paragraph recovery.
`Scheduler` is the bounded-window batch scheduler, with futures finishing in any order. `Provenance` and
`Paragraphs` are the cache as the server uses it, from the single endpoint and the batch endpoint.

**Concurrent kernels and the planner.** `CacheStore`, `SingleFlight`, `SessionBroker` and `RateLimiter`
are classes whose lock-protected sections (or transactions) are atomic steps. Each class keeps a ghost
trace of every section of every thread, and the main results are lemmas about all traces. `MountPlan` is
the mount planner; a mount map means "the deepest enclosing mount decides".

**Deployment journals.** `Reconfigure`, `LegacyUpgrade`, `HubMigration`, `ReaderCopy` and `Installers` are
journaled protocols over durable files, trees and Docker. A class `Host` (or `Copier`) holds the world.
Every durable write, rename, unlink and Docker call goes through one method, `Become`, which may carry out
the step, raise with or without its effect, or end the process. The ghost `history` lists every state the
host has been in, across commands and reruns; `Valid` says that each state satisfies the invariant and that
each pair of neighbouring states obeys the protocol's laws, so a step that could break them does not verify.
The main results are lemmas about all such histories. `fault` and `dies` are nondeterministic, so a contract
about `faultFree` (or `calm`) is a contract about a run in which no step fails.

Where a lemma returns such a history, its clauses name the states in order, from a fresh host through the
steps of the commands; steps that change nothing are left out.

Where a method's name starts with the word "Interleave" or "Meanwhile", its contract is what other threads
or running containers may do at that point; callers see nothing but the contract.

## Where the code falls short of the plain statement

Each of these is kept as the code has it, with the condition under which the statement holds.

- `GroupedWriteNeedsWindow`: the single endpoint stores its answer under a grouped contract exactly when a
  context window is configured. With window 0 every grouped entry has an accepted envelope behind it.
- `AttemptsNeeded`, `StartupCheckMissesTokenBudget`: one attempt per group of every admissible request takes
  exactly the ceiling of paragraphs over `Width`, the number of longest paragraphs that fit one group. The
  startup check divides by the batch size instead, so it covers every request exactly when both ceilings agree:
  always without a token budget, or with one of at least batch size times the longest paragraph; never, for more
  than one paragraph and a batch size above 1, when one longest paragraph fills the budget.
- `HitsConserved`, `FlushCanLoseHits`: a flush that fails after taking the hits and before its `try`
  (`connection()` or the clock raises) forgets them, and so does one whose `rollback()` raises (cache.py:489-493);
  no other step loses a hit.
- `RowCountBound`, `FailedPruneBreaksBound`: a due prune whose commit fails has already reset the write
  counter, so the table can pass its bound. Without such a failure the bound holds; whatever fails, it holds on
  every run exactly for a cache of one entry; `RunRetains` says by how much it is passed.
- `OvertakenCallerPasses`: the limiter reads its clock before it takes the lock, so callers that were overtaken
  can be admitted into a full window, any number of times; `WindowAdmitsAtMostLimit` needs non-decreasing
  readings.
- `ClosedWindowBound`, `ClosedWindowHoldsMore`: a window closed at both ends holds up to twice the limit, and no
  more.
- `WholeSourceExactly`, `LastDirectoryCanBeLost`: the tree manifest lists files only, so a copy interrupted
  after its last file and before its last directory is published without that directory.
- `EvidenceGone`, `RefusalWindows`, `CommitWindow`: when recovery of a reconfiguration refuses, and runs that
  end in each of the three refusing windows.
- `RollbackApplies`, `RolledBackUnderCommit`: topology rollback refuses, among others, a state that is rolled
  back under a journal that is still committed, and a rollback that dies before its last write leaves it;
  nothing runs beside the restarted sources in that state.
- `Migrate`, `StuckAfterHubState`: a hub install whose state save raises after its effect is taken back, and then
  neither migration nor rollback takes the host any further, because its state still says `installed`.
- `NeitherApplies`: the combinations of state and journal that neither upgrade nor rollback accepts.
  `StuckAfterRollback` and `StuckAfterInstall` are runs that end in two of them: dying inside a rollback whose
  journal said `snapshot-complete`, and an install that committed its state and then raised, which the journal
  records as `upgrade-failed`.
- `InstallUnraid`, `StrayTemplateStays`: what a `cleaned` journal leaves of the templates is exactly the one
  whose write raised after its rename, which is on no cleanup list; without such a write nothing is left.
- `InstallCompose`, `SharedServiceRemoved`: Compose goes by the project's labels. Every step is lawful unless they
  are found on an object that is not this attempt's; such a container is replaced or removed.
- `InstallHub`, `ForeignHubRemoved`: hub cleanup removes by name. Every step is lawful unless the inspection
  shows a container that is not this attempt's; then that container is removed.

## Model

| member | source | states |
|---|---|---|
| Texts.StripIdempotent | translator.py:1874 | Stripping a stripped text changes nothing, so keys and segments built from stripped texts agree |
| Grouping.TranslationGroups | translator.py:1854-1894 | Illegal bounds raise; otherwise the groups cut the non-blank indices, in order, into groups that fit both bounds, and no group could have taken the first index of the next |
| Grouping.TokenGroups | translator.py:1878-1894 | The greedy loop with its running token count yields such a saturated split |
| Grouping.CountChunks | translator.py:1874-1876 | The count-only slices yield such a saturated split |
| Grouping.StaysAhead | translator.py:1878-1894 | After k groups the greedy split has consumed at least as much as any other split |
| Grouping.GreedyIsFewest | translator.py:1854-1894 | No contiguous split under the same bounds has fewer groups |
| Grouping.CountOnlyCeiling | translator.py:1874-1876 | With token budget 0 the group count is exactly the ceiling of work over size |
| Grouping.StartupAttemptsSuffice | server.py:143-150 | With token budget 0 the startup check pays for one call per group of every admissible request |
| Grouping.AttemptsNeeded | server.py:143-150 | With estimates from 1 to maxCost, a number of attempts pays for every admissible request if and only if it is at least the ceiling of paragraphs over the width, the number of longest paragraphs one group takes |
| Grouping.StartupCheckMissesTokenBudget | server.py:143-150 | The startup check covers every admissible request if and only if that ceiling is no more than its own; so always for budget 0 or at least size times maxCost, and not for a budget that one longest paragraph fills |
| Grouping.SubsequenceAccepted | translator.py:2147-2172 | Any subsequence of the planned groups passes the selection check |
| Grouping.DistinctIsDisjoint | translator.py:2148-2160 | A selection without repeated indices gives every group slots of its own |
| WorkBudgets.CountersConserved | work_budget.py:75-99 | Under every interleaving the counters are the sums over admitted reservations and never pass a cap |
| WorkBudgets.FirstReasonSticks | work_budget.py:55-61 | After any later cancels the reason is still that of the first |
| WorkBudgets.NothingAfterCancel | work_budget.py:55-99 | No reservation after a cancel is admitted; it is refused with the first reason |
| WorkBudgets.RefusedChangesNothing | work_budget.py:75-99 | A refused section leaves counters and reason as they were |
| WorkBudgets.RunMonotone | work_budget.py:55-99 | What other workers do never lowers a counter, changes a reason or passes a cap |
| WorkBudgets.WorkBudget.Cancel | work_budget.py:55-61 | An empty reason is a ValueError; otherwise the section is the cancel step |
| WorkBudgets.WorkBudget.EnsureActive | work_budget.py:63-69 | Raises the cancel reason, then the deadline, in that order |
| WorkBudgets.WorkBudget.ReserveAttempt | work_budget.py:75-99 | Raises exactly the refusal of the reservation step, or adds exactly what was asked |
| Envelopes.ParseSegmentEnvelope | translator.py:1782-1826 | Returns translations exactly for an accepted envelope, one per id, stripped |
| Envelopes.BindSegments | translator.py:1807-1826 | The loop accepts exactly the envelopes whose segments carry the ids in order and stay under the byte cap |
| Envelopes.BoundToItsOwnId | translator.py:1807-1826 | Result j is the non-empty stripped text the provider bound to id j |
| Envelopes.AnswersOneRequest | translator.py:1804-1813 | One envelope is accepted for one id list only |
| Envelopes.EnvelopeRoundTrip | translator.py:1782-1826 | Parsing the envelope an obedient provider renders gives back its translations |
| Translator.FreshIds | translator.py:1975-1983 | The opaque ids of a request are distinct and never used before |
| Translator.Worker.AcquireSlot | translator.py:1204-1213 | A slot is taken only within queue timeout and deadline; it fails with the cancel reason, when the deadline has passed, or with `queue` after the whole queue timeout, and a failure takes none |
| Translator.Worker.SleepBeforeRetry | translator.py:1216-1227 | The wait is no longer than asked and never passes the deadline, changes no slot, and goes on only with an active budget before the deadline |
| Translator.Worker.Attempt | translator.py:1253-1290 | One reservation, one slot, released on every way out |
| Translator.Worker.CallProvider | translator.py:1247-1401 | At most maxRetries attempts; slots are balanced; only classified failures come out |
| Translator.Worker.Complete | translator.py:1404-1452 | The providers are asked in order, each after the first only because of an eligible failure of the one before; the result is the verdict of the last one asked, and an answer is logged with that provider's namespace and model |
| Translator.Worker.TranslateText | translator.py:1570-1592 | A cancelled budget is seen before any provider is asked and changes nothing; otherwise the result is the verdict of the providers asked in order |
| Translator.Worker.TranslateAlone | translator.py:2088-2099 | The direct path's item is the answer to exactly this text |
| Translator.Worker.TryEnvelope | translator.py:1984-2021 | None exactly when the logged answer to this request is a malformed envelope; items exactly when it is an accepted one, each being what it bound to its segment; otherwise no call is logged |
| Translator.Worker.RecoverOne | translator.py:2030-2076 | A recovered segment is its own single answer or a sanitized marker, and never cacheable |
| Translator.Worker.RecoverParagraphs | translator.py:2029-2076 | As above for every segment, one call per segment and provider at most |
| Translator.Worker.TranslateEnvelope | translator.py:1944-2076 | At most (n + 2) attempts per eligible provider; all items from one envelope or none cacheable |
| Translator.Worker.TranslateGroup | translator.py:2079-2110 | The bound and the outcome for a group of the request, on either path; slots balanced |
| Translator.EnvelopeItemHolds | translator.py:2004-2014 | An accepted call justifies the item built from it |
| Scheduler.Confluent | translator.py:2231-2278 | Two runs whose groups produced the same items return the same batch, whatever the completion order |
| Scheduler.DoGroup | translator.py:2179-2229 | Only budget exhaustion escapes, and the shared budget is cancelled first |
| Scheduler.Batch.Submit | translator.py:2238-2241 | Never more than maxConcurrent groups outstanding; pending work makes the window non-empty |
| Scheduler.Batch.Write | translator.py:2254-2266 | Each slot gets the item of its own index, other slots keep theirs, and the missing-segment filler is never stored |
| Scheduler.Batch.Run | translator.py:2231-2278 | The loop terminates with every group stored, or raises with the budget cancelled |
| Scheduler.TranslateBatch | translator.py:2114-2278 | A bad selection is the only ValueError; a normal return assembles exactly the produced items and leaves other slots empty |
| Scheduler.SelectionIsDisjoint | translator.py:2147-2172 | An accepted selection gives every group slots of its own |
| Provenance.ModelIsServersOwn | translator.py:1455-1470 | With distinct namespaces the model the server records with an answer is that of the provider that gave it |
| Provenance.CallHasServersModel | translator.py:1455-1470 | Every call a request logs was made with the model the server records for its namespace |
| Provenance.CacheableIsJustified | server.py:1063-1090 | The entry written for a cacheable item is backed by the call the group made for exactly its contract, under the answering provider's own model |
| Provenance.GroupedWriteNeedsWindow | server.py:1641-1680 | The single endpoint writes a grouped entry if and only if the context window is positive |
| Provenance.SingleWritesJustified | server.py:1641-1680 | Both entries of the single endpoint are backed by its single-text call, under the model that answered |
| Provenance.JustifiedStays | cache.py:409-441 | Evidence never expires: an entry justified once stays justified |
| Provenance.Server.Get | server.py:970-992 | Whatever other requests do, a hit is justified |
| Provenance.Server.PutMany | server.py:1082-1090 | All or nothing, and every entry stays justified |
| Provenance.Server.TranslateSingle | server.py:81-114 | A hit is justified by some provider and contract; a fresh answer by its own call, with the model recorded for its provider |
| Provenance.Server.LookupGroup | server.py:960-990 | The whole group from one provider under one contract, or nothing |
| Paragraphs.ServeGroup | server.py:958-1031 | A hit fills every slot of the group from one scope; a miss touches nothing |
| Paragraphs.LookupAll | server.py:958-1031 | Every group is served whole or is missing, in order; blanks stay empty |
| Paragraphs.RecoveryNeverStored | server.py:1063-1081 | Only items of a direct call or an envelope are stored; no recovery and no error marker |
| Paragraphs.GroupEntriesJustified | server.py:1050-1081 | Every entry stored for a finished group is backed by a call of that group |
| Paragraphs.RefreshAll | server.py:1048-1081 | Every missing group shows the items of one translation of exactly that group |
| Paragraphs.MissingIsAccepted | server.py:1033-1045 | What the cache pass leaves over passes the scheduler's check, so its ValueError cannot be raised |
| Paragraphs.BothPasses | server.py:958-1090 | The two passes together answer every group wholly from one scope or wholly fresh |
| Paragraphs.TranslateParagraphs | server.py:906-1110 | Every planned group is served whole or refreshed whole, blanks stay empty, only clean items are stored, and every cache entry stays justified |
| CacheStores.CapKeepsTop | cache.py:592-600 | Every row kept ranks above every row dropped, by last access, creation, key |
| CacheStores.CapKeepsExactly | cache.py:592-600 | Exactly min(rows, cap) rows survive |
| CacheStores.RunRetains | cache.py:566-580 | Under every interleaving the table exceeds its cap by no more than the writes not yet paid for |
| CacheStores.RowCountBound | cache.py:566-580 | Unless a due prune fails, at most max_entries + min(1000, max_entries) - 1 rows after every section; and always while no write is unpaid |
| CacheStores.FailedPruneBreaksBound | cache.py:571-584 | With arbitrary failures the bound holds on every run if and only if max_entries is 1 |
| CacheStores.Overflow | cache.py:571-584 | For every larger cache: a full table, one failed due prune and two committed writes pass the bound |
| CacheStores.ExpireSparesFresh | cache.py:426-438 | An expiring get never deletes a row that is unexpired when the delete happens |
| CacheStores.PendingTotalIsSum | cache.py:464-502 | The pending total is the sum of the per-key counts in every reachable state |
| CacheStores.HitsConserved | cache.py:464-502 | For a surviving row, written, in-flight and pending hits plus dropped ones equal queued hits, through concurrent, committed and rolled-back flushes |
| CacheStores.FlushCanLoseHits | cache.py:475-493 | A flush that fails without restoring them loses the hits it took |
| CacheStores.CacheStore.constructor | cache.py:280-282 | Opening a table expires and caps it |
| CacheStores.CacheStore.QueueHit | cache.py:464-471 | The hit is counted in one section, whether or not the flush it triggers raises |
| CacheStores.CacheStore.FlushHits | cache.py:473-502 | Takes everything pending; commits exactly that count, or raises with the hits restored or lost |
| CacheStores.CacheStore.Get | cache.py:409-450 | A returned value was in the table, unexpired at the cutoff, at some moment of the call |
| CacheStores.CacheStore.PutMany | cache.py:516-584 | ValueError exactly for an empty list or a blank text; otherwise one put transaction with this ending |
| CacheStores.CacheStore.DeleteRow | cache.py:427-434 | The delete removes the row only if it is the one that was read |
| CacheStores.UpsertAll | cache.py:549-565 | Entries replace value and times and keep hit counts, in order |
| SingleFlights.RunKeeps | singleflight.py:72-140 | In every reachable state the registry is within its cap and every active flight is registered under its key |
| SingleFlights.OneActivePerKey | singleflight.py:72-140 | At most one active flight per key, whatever was expired, evicted or invalidated |
| SingleFlights.OutcomeIsFinal | singleflight.py:141-167 | A completed flight's value or error never changes |
| SingleFlights.CountersAccount | singleflight.py:117-167 | leaders + shared + rejections is the number of valid calls; followers_waiting is joined minus departed |
| SingleFlights.RejectedWhenAllActive | singleflight.py:117-129 | A call is rejected exactly when the registry is full of active flights and none is live for its key |
| SingleFlights.OnlyOneOldest | singleflight.py:82-92 | The eviction victim is unique |
| SingleFlights.SingleFlight.OldestCompleted | singleflight.py:82-92 | Finds the minimum of (completed_at, key), or that nothing is completed |
| SingleFlights.SingleFlight.MakeRoom | singleflight.py:122-127 | Evicts at most the oldest completed flight; fails exactly when all are active |
| SingleFlights.SingleFlight.Enter | singleflight.py:117-139 | One section decides leader, follower or rejection as the step relation says |
| SingleFlights.SingleFlight.Follow | singleflight.py:155-167 | Without a timeout a follower gets the outcome of the very flight it joined |
| SingleFlights.SingleFlight.Call | singleflight.py:106-167 | ValueError exactly on bad arguments; otherwise the result belongs to the role its entry section decided |
| SessionBrokers.SessionsBounded | reader_session.py:482-513 | At most max_entries sessions after every section, one per token |
| SessionBrokers.IssueSurvives | reader_session.py:500-513 | The issued session is present, as the most recent, when its exchange returns |
| SessionBrokers.ExistsIffHeld | reader_session.py:476-562 | A session exists exactly when it was issued and not since replaced, revoked, found expired or evicted |
| SessionBrokers.AuthenticatesExactly | reader_session.py:525-549 | A token authenticates exactly when held, in its lifetime and for its binding; the subject is the one it was issued for |
| SessionBrokers.OrderIsRecency | reader_session.py:500-549 | The map is ordered by last issue or successful authentication |
| SessionBrokers.EvictionIsLeastRecent | reader_session.py:512-513 | An evicted session was used less recently than each of the max_entries that stay |
| SessionBrokers.ReaderSessionBroker.Exchange | reader_session.py:482-523 | Issues exactly for a reachable authority, an identity and a well-formed token; the session is last in the map |
| SessionBrokers.ReaderSessionBroker.Authenticate | reader_session.py:525-549 | A request with one well-formed cookie and no Authorization is answered exactly as its section finds the session, and a success comes from a held one; any other is rejected without a section |
| SessionBrokers.ReaderSessionBroker.Revoke | reader_session.py:551-562 | Succeeds exactly when there is nothing to remove or the token authenticates; other requests may run in between, and then the token is gone; a rejected request leaves only its authentication section |
| SessionBrokers.RejectedKeepsSessions | reader_session.py:538-546 | A rejected authentication removes nothing but an expired session of its own token |
| RateLimiter.WindowAdmitsAtMostLimit | server.py:621-647 | With non-decreasing call times any half-open 60-second window admits at most limit calls of a client |
| RateLimiter.AdmitsExactly | server.py:621-647 | A client with room is refused exactly when its last 60 seconds are full |
| RateLimiter.ClientsCapped | server.py:627-640 | The store never tracks more clients than its cap, whatever the clock |
| RateLimiter.StepRemembers | server.py:434-452 | Neither pressure reclaim nor cleanup forgets a timestamp in its window |
| RateLimiter.ClosedWindowHoldsMore | server.py:641-647 | For every limit, calls at both ends of a closed window fill it with twice the limit |
| RateLimiter.ClosedWindowBound | server.py:641-647 | With non-decreasing call times a closed window holds at most twice the limit |
| RateLimiter.OvertakenCallerPasses | server.py:624-647 | For every limit and every k, callers overtaken between clock and lock put k times the limit into one window |
| RateLimiter.SlidingWindow.Check | server.py:621-647 | One call step; True exactly when admitted |
| RateLimiter.SlidingWindow.Clean | server.py:434-452 | One cleanup step |
| RateLimiter.InflightTable.Acquire | server.py:456-465 | Succeeds exactly below both caps; the table stays what is outstanding |
| RateLimiter.InflightTable.Release | server.py:468-474 | Returns one slot; a release of nothing changes nothing |
| RateLimiter.OutstandingIsDifference | server.py:456-474 | With paired releases the table is acquisitions minus releases |
| RateLimiter.AcquireThenRelease | server.py:456-474 | A release undoes the acquisition before it |
| MountPlan.EffectiveIsDeepest | btctl_container.py:368-375 | The effective mode is that of the deepest enclosing mount |
| MountPlan.NearestExistingDirectory | btctl_container.py:187-201 | The deepest existing path at or above; an error exactly when the minimum is missing or that path is no directory; never above the minimum |
| MountPlan.CheckoutNeverWritable | btctl_container.py:320-371 | Nothing in the checkout is writable |
| MountPlan.UngrantedNeverWritable | btctl_container.py:320-371 | Nothing in an existing managed path not granted rw is writable |
| MountPlan.EnvironmentNeverWritable | btctl_container.py:331 | The environment file is not writable |
| MountPlan.GrantedIsWritable | btctl_container.py:342-358 | A path granted rw is writable even when only an ancestor exists, and so is everything below it except the environment file |
| MountPlan.CheckSeparate | btctl_container.py:320-329 | Passes exactly for pairwise disjoint paths, disjoint from the checkout |
| MountPlan.ServeAll | btctl_container.py:346-359 | Fails exactly when an entry has no path, its minimum or directory is missing, or one source is asked for in both modes; the map then holds exactly the entries' sources |
| MountPlan.UngrantedIsNotRW | btctl_container.py:361-371 | The read-only overrides can never conflict with a writable bind |
| MountPlan.MountedWithinShare | btctl_paths.py:76-113 | For a path strictly below its share or pool root, no bind is broader than that root |
| MountPlan.Mounts.AddMount | btctl_container.py:333-339 | Refuses exactly a source asked for in both modes |
| MountPlan.PlanIsLeastPrivilege | btctl_container.py:342-371 | A finished plan is least privilege at every path |
| MountPlan.CreateMountPlan | btctl_container.py:280-385 | A plan is returned exactly for a regular environment file, separate paths, reachable sources and no source in both modes; it is least privilege, binds nothing broader than the share of a path below it, and has the lock mount exactly when the command uses the state directory |
| ReaderCopy.PublishedFiles | btctl_hub.py:1371-1413 | Whatever the interruption, the published files are the source's |
| ReaderCopy.WholeSourceExactly | btctl_lifecycle.py:666-685 | The published tree is the whole source unless the copy stopped after its last file and before its last directory |
| ReaderCopy.LastDirectoryCanBeLost | btctl_lifecycle.py:670-671 | Such a stop is one a disk can hold exactly when the missing directory is empty, and the tree is then published without it |
| ReaderCopy.PublishedIsStable | btctl_hub.py:1384-1397 | Running the copy on its own result changes nothing |
| ReaderCopy.Copier.Copy | btctl_hub.py:1371-1413 | From every state its own crash can leave it ends without refusing, target published and no work tree |
| ReaderCopy.Copier.CopyAtomic | btctl_lifecycle.py:797-810 | Publishes an exact copy through the work tree, or refuses when a destination exists |
| ReaderCopy.Copier.RemoveWork | btctl_hub.py:1406-1407 | The removal may stop anywhere and stays recoverable |
| ReaderCopy.Copier.CopyAndRecord | btctl_hub.py:1535-1549 | The same with the journal save |
| Reconfigure.TargetShowsDesired | btctl_reconfigure.py:170-180 | The new environment shows every desired setting and leaves other keys alone |
| Reconfigure.AllOldOrAllNew | btctl_reconfigure.py:374-609 | Between two moments without a journal, fingerprint, api.env and live environment stayed old together or became the attempt's together |
| Reconfigure.OneAttempt | btctl_reconfigure.py:523-542 | While a journal exists it describes one attempt |
| Reconfigure.RefusalWindows | btctl_reconfigure.py:440-477 | A concrete run, through a second crash, that ends in an open journal with an unknown container id, and one step later without its old snapshot; recovery refuses both |
| Reconfigure.CommitWindow | btctl_reconfigure.py:563-609 | A concrete run in which the save of the new state raises after its effect and the rollback dies: the new state under a rolling-back journal, which recovery refuses |
| Reconfigure.Host.Recover | btctl_reconfigure.py:374-468 | Refuses exactly on foreign or vanished evidence and then changes nothing; otherwise ends with no journal |
| Reconfigure.Host.LoadCurrent | btctl_reconfigure.py:90-189 | Refuses exactly a change of other keys or no change at all |
| Reconfigure.Host.Cleanup | btctl_reconfigure.py:470-477 | Unlinks in an order that keeps the settled state settled |
| Reconfigure.Host.RestoreOld | btctl_reconfigure.py:455-468 | Ends with the old environment live and no journal |
| Reconfigure.Host.Swap | btctl_reconfigure.py:546-562 | Ends with a fresh container showing the new environment, evidence intact at every failure |
| Reconfigure.Host.Commit | btctl_reconfigure.py:563-575 | Commits only a verified replacement |
| Reconfigure.Host.RollBack | btctl_reconfigure.py:576-609 | Always ends in an error; without further faults everything is old again and no journal is left |
| Reconfigure.Host.Reconfigure | btctl_reconfigure.py:479-609 | Refuses exactly a journal of another plan or without its evidence, and without a journal exactly an unacceptable plan, changing nothing; on success the stored fingerprint is the plan's and the environment shows its settings |
| Installers.CleanedStaysTrue | btctl_unraid.py:560-605 | Once the journal read cleaned for an attempt, nothing of that attempt ever exists again |
| Installers.NothingComesBack | btctl_compose.py:155-170 | No key of an attempt appears once its containers are gone |
| Installers.ForeignContainersStay | btctl_unraid.py:535-553 | Somebody else's container stays through every run of lawful steps: all runs of the Unraid installer, and those of the others under the conditions their own rows state |
| Installers.ForeignNetworkStays | btctl_unraid.py:554-564 | So does somebody else's network |
| Installers.GrowthKeeps | btctl_compose.py:1048-1107 | What others create meanwhile never falsifies a cleaned journal |
| Installers.ForeignHubRemoved | btctl_hub.py:751-944 | A concrete run: the name is free, a foreign container takes it during the build, create raises, and the cleanup removes it and closes as cleaned |
| Installers.Host.RemoveByName | btctl_hub.py:902-909 | Every step is lawful when the name is free or the container is this attempt's own; a foreign one shown by the inspection is gone after the removal |
| Installers.Host.HubCleanup | btctl_hub.py:895-944 | Lawful when nothing was started, or the name is free or our own; otherwise the foreign container is removed, and without further faults it always is |
| Installers.Host.UnraidCleanup | btctl_unraid.py:523-605 | Reverse cleanup; cleaned only when every step succeeded, and then exactly the listed templates are gone; without further faults and foreign networks it does end cleaned |
| Installers.Host.CopyTemplates | btctl_unraid.py:508-514 | What is on disk is the list of copies and, exactly when a write raised after its rename, that one template |
| Installers.Host.RemoveOne | btctl_unraid.py:535-549 | Removes a container only with this attempt's labels |
| Installers.Host.RemoveNetwork | btctl_unraid.py:554-564 | Removes only this attempt's network; somebody else's is an error and stays |
| Installers.Host.RemoveKeys | btctl_compose.py:155-170 | No new session key of the attempt is left |
| Installers.Host.UpService | btctl_compose.py:1012-1013 | A container of the same project is recreated, any other is a conflict; lawful unless somebody else's is recreated |
| Installers.Host.ComposeDown | btctl_compose.py:1066-1072 | Removes what carries the project's labels and leaves nothing of the attempt; lawful unless some of it is somebody else's |
| Installers.Host.Withdraw | btctl_unraid.py:404-424 | An early failure restores the retry evidence, which is still true |
| Installers.Host.InstallUnraid | btctl_unraid.py:307-605 | Success leaves both roles, network, templates and state; a cleaned journal leaves exactly the template that was on disk without being listed, if any |
| Installers.StrayTemplateStays | btctl_unraid.py:508-531 | A concrete run of lawful steps that ends with a cleaned journal and one template on disk |
| Installers.Host.ComposeCleanup | btctl_compose.py:1066-1107 | Ends open or with nothing of the attempt left, and without further faults cleaned; lawful unless an object of the same project is met that is not this attempt's |
| Installers.Host.InstallCompose | btctl_compose.py:898-1107 | Success leaves both roles, network and state; a cleaned journal leaves nothing of the attempt; every step is lawful unless an object of the same project is met that is not this attempt's |
| Installers.SharedServiceRemoved | btctl_compose.py:1066-1107 | A concrete run in which `compose down` removes somebody else's container of the same project |
| Installers.Host.InstallHub | btctl_hub.py:751-944 | Success leaves the hub container and state; every step is lawful unless the inspection after a failed start shows a container that is not this attempt's, which is then removed; a cleaned journal leaves nothing of the attempt |
| HubMigration.RestartedWhileHubAbsent | btctl_hub.py:1415-1435 | A source that runs again was started while no hub container existed |
| HubMigration.RolledBackIsFinal | btctl_hub.py:1628-1639 | After a finished rollback no hub container exists in any later state |
| HubMigration.RolledBackUnderCommit | btctl_hub.py:1628-1639 | A concrete run: a whole migration, and a rollback that dies between its last two writes; topology rollback then refuses |
| HubMigration.StuckAfterHubState | btctl_hub.py:1541-1596 | A concrete run that ends with the sources running under a state that says installed, which neither migrate nor rollback takes further |
| HubMigration.Host.RestartSources | btctl_hub.py:1415-1435 | Only with the hub absent; on success every initially running source runs |
| HubMigration.Host.Uninstall | btctl_hub.py:1064-1176 | Refuses exactly a state or attempt file it does not accept; ends with the hub gone |
| HubMigration.Host.Rollback | btctl_hub.py:1608-1639 | Refuses exactly when it does not apply, changing nothing; success means hub gone and initial sources running |
| HubMigration.Host.InstallHub | btctl_hub.py:751-944 | Starts the hub only with every source stopped; without faults it succeeds exactly when nothing is in its way |
| HubMigration.Host.RecoverSources | btctl_hub.py:1561-1596 | Restarts sources only if the hub container is known to be gone; then, without further faults, every initially running source runs |
| HubMigration.Host.Migrate | btctl_hub.py:1462-1606 | Refuses exactly a finished migration, other sources or another plan, changing nothing; success means the hub runs, no source runs and the journal is committed; without faults it succeeds exactly for a hub that runs or nothing in its way |
| LegacyUpgrade.HandOver | btctl_lifecycle.py:995-1025 | Legacy container and v2.2 roles hand over through a moment when neither runs |
| LegacyUpgrade.AttemptsGrow | btctl_lifecycle.py:1151-1177 | The attempt number never falls and a recorded snapshot manifest is never re-recorded |
| LegacyUpgrade.NewAttemptIsNew | btctl_lifecycle.py:1151-1177 | A new attempt's number is above every earlier one |
| LegacyUpgrade.RecordedSnapshotsStay | btctl_lifecycle.py:1028-1076 | No later attempt overwrites or removes a recorded snapshot |
| LegacyUpgrade.InstalledFromEqualTrees | btctl_lifecycle.py:1495-1532 | A v2.2 runtime is first created when snapshot and source, and in a fresh upgrade the target, are equal |
| LegacyUpgrade.NeitherApplies | btctl_lifecycle.py:1326-1411 | Exactly which combinations of state and journal neither command accepts |
| LegacyUpgrade.StuckAfterRollback | btctl_lifecycle.py:1572-1666 | A concrete run from a fresh host into such a state: an upgrade that dies before its journal, and a rollback that dies after `uninstalling` |
| LegacyUpgrade.StuckAfterInstall | btctl_lifecycle.py:1523-1561 | Another: an install that raises after its state is saved, journaled as upgrade-failed |
| LegacyUpgrade.Host.RestoreLegacy | btctl_lifecycle.py:995-1025 | Never starts the legacy container while a v2.2 role is active |
| LegacyUpgrade.Host.Uninstall | btctl_lifecycle.py:480-589 | Ends with no v2.2 role and no network, unless the removal had finished before |
| LegacyUpgrade.Host.Rollback | btctl_lifecycle.py:1572-1666 | Refuses exactly an ineligible host or failing evidence, changing nothing; success means the legacy container ran again and both files say rolled back; without faults an eligible rollback succeeds |
| LegacyUpgrade.Host.Decide | btctl_lifecycle.py:1318-1411 | Refuses exactly the hosts it does not accept, changing nothing; finds a plan exactly when there is no cutover to finish |
| LegacyUpgrade.Host.Prepare | btctl_lifecycle.py:1078-1209 | Opens the next number with nothing of it on disk; without faults exactly when nothing is in its way |
| LegacyUpgrade.Host.PrepareRetry | btctl_lifecycle.py:1028-1076 | Moves away the interrupted work trees, an unrecorded snapshot and a fresh attempt's target, and nothing recorded |
| LegacyUpgrade.Host.TakeSnapshot | btctl_lifecycle.py:1481-1501 | Ends with the legacy writer stopped and the snapshot equal to its data |
| LegacyUpgrade.Host.FillTarget | btctl_lifecycle.py:1502-1515 | A fresh target equals the snapshot |
| LegacyUpgrade.Host.Fail | btctl_lifecycle.py:1537-1570 | Always ends in an error; without further faults the failure is journaled and the legacy service runs again unless v2.2 took over |
| LegacyUpgrade.Host.Upgrade | btctl_lifecycle.py:1300-1570 | Refuses exactly the hosts it does not accept, changing nothing; success means the state is installed and the journal says upgraded; without faults an accepted host, first, retried or upgraded again, succeeds exactly when a cutover stands or nothing is in the way, with both roles running and the legacy container stopped after a new attempt |

## Left out

- Flask routing, CORS, JSON responses, logging, metrics and the recovery counters: plumbing.
- Provider HTTP, deadline sockets and DNS: a provider call answers anything or fails with any classified error.
- The streaming endpoint (`translate_text_stream`, server.py:1785-1831): it can join deltas of a failed primary with a fallback's output before caching, so it is outside the provenance results.
- Prompt rendering, JSON text parsing, output caps and the token estimator are arbitrary functions; results hold for every choice of them.
- SHA-256 and HMAC are injective: digests are represented by what they digest.
- SQLite is a map with serialised transactions; the legacy v1 table and its normalisation are not part of this model.
- Instants are numbers; that ISO timestamps compare as instants do is assumed.
- File modes, ownership, symbolic links, fsync details and Docker argument lists are not modelled; a check of them is a step that may fail.
- `SegmentProtocolError`: no modelled code raises it, so its handlers are not modelled.
- `singleflight` reuse inside the translator: an explicit budget disables it on the modelled paths.
- `cached_count`, `fresh_count` and timing of the batch endpoint: sums over slots the model already determines.
- SingleFlights.SingleFlight.Call: an object of class `_Flight` is named by its creation number instead of being an object of its own, so aliasing of flights is not captured.
- CacheStores.CacheStore.Clean: the number of deleted rows that `cleanup` returns and the counts of `stats` are not modelled.
- SessionBrokers.ReaderSessionBroker.Exchange: cookie, origin and credential parsing are inputs; the authority's answer is a parameter.
- MountPlan.CreateMountPlan: the rendered order of mounts and the file identities of mount sources are not modelled; the file system is one snapshot.
- Reconfigure.Host.StartApi: health, network aliases and sandbox checks are steps that may fail; containers are not modelled as stopping by themselves.
- Installers.Host.UpService: that `compose up` recreates and `compose down` removes whatever carries the project's labels is Docker's behaviour and is assumed; a recreation is one step.
- Grouping.AttemptsNeeded: the token estimator is not modelled, so the bound on the longest paragraph's estimate is a parameter instead of a function of its character limit.
- Installers.Host.InstallHub: under the Compose profile the hub is removed by project instead of by name.
- Installers.Host.InstallUnraid: preflight checks of the reader container and networks, and the archive of a previous state, are not modelled.
- HubMigration.Host.Migrate: the data copy is one step that may fail here; `ReaderCopy` has its steps. Containers are not modelled as stopping by themselves.
- LegacyUpgrade.Host.Upgrade: work trees are present or absent, their contents and preserved copies are not modelled; the install attempt file of the inner installer is not modelled, and neither are its session keys.
- Adoption commands, doctor, configuration validation, templates' text and browser code: many branches, but only single-branch facts.
