# DeploySentry: what its flag service keeps

A Dafny 4.11 model of the feature-flag service and four smaller parts of DeploySentry, with proofs about whole runs and
all interleavings. `dafny verify dfyconfig.toml` checks everything.

The tables and the cache are values (`Store.Db`, `Cache.CacheView`) with one function for each SQL statement or cache
command. The objects of the service (`FlagRepository`, `FlagCache`, `Evaluator`, `FlagService`, `FlagHandler`,
`RetentionSweeper`, `LifecycleScheduler`, `StagingService`, `SSEBroker`, `DeployService`, `HealthMonitor`) are classes
whose methods change their fields as the originals do, and each method is proved equal to a function of the old state.
The main results are lemmas about those functions over runs; where calls overlap in the original, the run is a state
machine whose moves are the single database, cache and channel accesses.

| file | part |
|---|---|
| `model.dfy`, `targeting.dfy` | entities; rule matching and percentage buckets |
| `store.dfy`, `repository.dfy`, `cache.dfy` | tables with their constraints, the repository, the Redis cache |
| `evaluation.dfy`, `evaluator.dfy`, `service.dfy` | evaluation with and without the cache; the mutators and their invalidations |
| `runs.dfy`, `blindspots.dfy`, `precedence.dfy` | the cache over every run, where it goes wrong, which rule decides |
| `staleness.dfy`, `batch.dfy` | overlapping reads, fills, writes and invalidations; concurrent batches |
| `machine.dfy` | state machines and their runs |
| `lifecycle.dfy`, `retention.dfy`, `jam.dfy` | failing tests, retention, how retention stops |
| `scheduler.dfy`, `racing.dfy`, `racewindow.dfy` | due events of one and of many schedulers |
| `undo.dfy`, `undolaws.dfy`, `trail.dfy` | the audited endpoints and their reverts; the trail as a history |
| `preview.dfy`, `loading.dfy` | staged edits, previewed and committed |
| `broker.dfy`, `deploy.dfy`, `health.dfy`, `slug.dfy` | event streaming, predecessor links, health scores, slugs |

## What turned out differently from the documentation or the intent

Each of these is a lemma, with the exact condition where there is one.

- The rollout bucket is the first four bytes of the digest modulo 100, compared with `<` (`internal/flags/evaluator.go:291-293`,
  `internal/flags/targeting.go:31-32`); `README.md:220-223` describes eight bytes, modulo 101 and `<=`. The model follows the code.
- `UpdateRule` evicts the flag its argument names, not the rule's own (`BlindSpots.UpdateRuleCoherentIff`,
  `BlindSpots.StaleRuleServed`); a staged rule update carries a `flag_id` of its own.
- Segment edits never reach the cache (`BlindSpots.SegmentEditCoherentIff`, `BlindSpots.StaleSegmentServed`).
- A late fill outlives the write and the invalidation that should have removed it, to within a nanosecond of the bound
  (`Staleness.BoundIsTight`).
- The removal date wraps around from 106,752 days on (`LifecycleRuns.RemovalIsAhead`, `LifecycleRuns.RemovalWrapsAround`).
- Active flags that kept a deletion date through `UnarchiveFlag` can occupy the whole sweep batch and stop retention for good
  (`Retention.JamLasts`, reached by calls alone in `Jams.JamReached`).
- Marking a due flag does not ask whether it is still due (`RaceWindows.MarkedStillDueIff` and the three runs after it).
- Edits through the endpoint can never be reverted: their payload has no flag type, so the rebuilt flag does not validate
  (`UndoLaws.EditNeverUndone`). Edits through staging can, and the revert then replaces the enabled bit as well
  (`UndoLaws.UpdateUndoneIff`). Release flags cannot be edited, since their application is not read back
  (`UndoLaws.EditedIff`, `UndoLaws.ReleaseFlagNotEdited`).
- The first setting of an environment cannot be reverted: without an earlier row the old value is empty
  (`UndoLaws.FlagEnvThereAndBack`).
- Archiving an archived flag succeeds and leaves an entry whose revert unarchives it (`UndoLaws.ArchiveThereAndBack`).
- Reverting a toggle that changed nothing changes the flag (`UndoLaws.ToggleThereAndBack`). Reverting a rule's deletion
  brings the rule back inactive everywhere (`UndoLaws.RuleThereAndBack`).
- A previewed archive leaves the `archived` member as it was (`Preview.PagePreviewed`). The commit loads its rows in no
  particular order (`LoadingOrder.TwoRowsCommuteIff`) and is not rolled back (`Preview.FailedBatchKeepsPrefix`).
- Broadcasts share a read lock, so two clients may be told of two changes in opposite orders (`Streaming.OverlapReorders`).
- An `Unwatch` during a round of the health monitor can be undone by the round (`HealthRounds.UnwatchedReturnsIff`).
- A deployment's predecessor need not stay completed (`DeploymentRuns.CompletedStaysIff`, two runs after it), and a terminal
  status need not be final (`MutatorRuns.LeavesStatusIff`).

## Assumptions

- `Model.Lawful`: JSONB text is a fixed point of storing it again, compacting a JSON text does not change its value, and
  compacting twice is compacting once. SHA-256, JSONB, `json.Marshal` and `strconv.ParseFloat` are otherwise arbitrary functions.
- A nil list is written as NULL, which the list columns refuse (`migrations/012_create_feature_flags.up.sql:10`,
  `migrations/021_add_flag_metadata.up.sql:6`; `createFlag` guards against it, `internal/flags/handler.go:258-263`).
- `Store.Valid` is what the schema guarantees. Keys are unique in a project because no statement of the service writes
  `application_id` (`migrations/029_platform_redesign.up.sql:132-133`).
- Cache commands succeed; an entry may in addition vanish at any time in the concurrent models. Reads of the database during an
  evaluation may fail (`Evaluation.Faults`). Writes fail as their constraints say.
- The clock comes with the call and does not go back within a run. Ids of new rows come with the call and are new.
- No caller of `CreateDeployment` names a predecessor itself; none in the repository does.

## Model

| member | source | states |
|---|---|---|
| Targeting.WordsInCount | internal/flags/evaluator.go:285-294 | of the first n hash words exactly n/100·p + min(n mod 100, p) fall into a p percent rollout |
| Targeting.RolloutShare | internal/flags/targeting.go:24-33 | of all 2^32 words p·42949672 + min(p, 96) do, so the share is off p/100 by less than 10^-9 |
| Targeting.HashPercentage | internal/flags/evaluator.go:282-294 | the bucket is in 0..99 |
| Targeting.ConditionsMeaning | internal/flags/targeting.go:129-151 | the short-circuit walk is conjunction under AND, disjunction under OR, and no match under anything else |
| Store.OneAnswer | internal/platform/database/postgres/flags.go:281-294 | the row limit of GetFlagByKey never cuts anything off: one flag answers a lookup |
| Store.FindFlag | internal/platform/database/postgres/flags.go:281-294 | what the lookup returns answers it; nothing is returned only if nothing does |
| Store.ListingUnique | internal/flags/repository.go:128-129 | distinct priorities leave ListRules a single order |
| Repository.ListingExists | internal/platform/database/postgres/flags.go:713-735 | there is always an order for it to return |
| Repository.FlagRepository.GetFlagByKey | internal/platform/database/postgres/flags.go:281-294 | the object's lookup is FindFlag |
| Repository.FlagRepository.ListRules | internal/platform/database/postgres/flags.go:713-735 | all rules of the flag and no others, each once, by priority |
| Repository.FlagRepository.ListActiveFlags | internal/platform/database/postgres/flags.go:297-343 | unarchived flags of the project, each once; all of them unless the page is full |
| Repository.FlagRepository.ListFlagsToHardDelete | internal/platform/database/postgres/flags.go:608-628 | overdue flags only, earliest dates first, none skipped in favour of a later one |
| Repository.FlagRepository.ListFlagsDueForRemoval | internal/platform/database/postgres/flags.go:466-488 | due, unmarked, active flags, earliest first, all of them unless the page is full |
| Cache.FlagCache.SetFlag | internal/platform/cache/flagcache/flagcache.go:53-71 | files the flag under its own environment and its id, each with the same expiry |
| Cache.FlagCache.Invalidate | internal/platform/cache/flagcache/flagcache.go:118-125 | drops the slot the id is mapped to, the mapping and the rules, and nothing else |
| Cache.FlagCache.GetRules | internal/platform/cache/flagcache/flagcache.go:73-83 | an expired or empty list is a miss |
| Evaluators.Evaluator.ResolveFlag | internal/flags/evaluator.go:110-125 | hit, or database read and fill; the error cases fill nothing |
| Evaluators.Evaluator.LoadRules | internal/flags/evaluator.go:158-172 | the same for the rule list |
| Evaluators.Evaluator.LoadSegment | internal/flags/evaluator.go:266-280 | the same for one segment |
| Evaluators.Evaluator.MatchRules | internal/flags/evaluator.go:180-202 | the loop finds the first rule of the specification and leaves its cache |
| Evaluators.Evaluator.Evaluate | internal/flags/evaluator.go:108-222 | result and cache are those of EvaluateCached, on every fault |
| Evaluation.FetchFlagTransparent | internal/flags/evaluator.go:110-125 | through a coherent cache the flag is the stored one up to lifecycle columns, or its read failed, or there is none; the fill keeps coherence |
| Evaluation.ScanTransparent | internal/flags/evaluator.go:180-202 | the rule found is the one the rows alone give, rules with unreadable segments skipped at most |
| Evaluation.EvaluateTransparent | internal/flags/evaluator.go:108-222 | through a coherent cache, whatever reads fail, an evaluation is a failed read of flag or rules, or a cache-free evaluation that skips at most rules with unreadable segments; and leaves the cache coherent |
| Evaluation.MayAnswerStored | internal/flags/evaluator.go:266-280 | when flag, rule and segment reads work, what an evaluation may come to is a cache-free evaluation outright |
| Evaluation.EvaluateTransparentExactly | internal/flags/evaluator.go:108-222 | with working reads and distinct priorities it is the one cache-free evaluation |
| Service.FlagService.Mutate | internal/flags/service.go:310-575 | every mutator writes first, then invalidates; a refused write leaves rows and cache alone; archiving an archived flag succeeds |
| Service.FlagService.BulkToggle | internal/flags/service.go:402-414 | all flags are attempted in order and the first error is returned |
| Service.FlagService.WarmCache | internal/flags/service.go:888-912 | enabled flags of one page and their rules are filed, disabled ones are not |
| Runs.StatementValid | migrations/029_platform_redesign.up.sql:132-133 | no call of the service breaks what the schema guarantees |
| Runs.CallFootprint | internal/flags/service.go:310-575 | a call touches one flag and evicts it, or changes nothing an evaluation reads; two kinds of call excepted |
| Runs.InvalidateCoherent | internal/flags/service.go:310-575 | a write confined to one flag and then its invalidation keep the cache coherent |
| Runs.ServeCoherent | internal/flags/service.go:310-575 | so does every call that is not one of the two kinds |
| Runs.AlwaysCoherent | internal/flags/service.go:733-912 | the cache is coherent after every run of calls, warm-ups, expiries and evaluations with any failing reads |
| Runs.CacheNeverDiffers | internal/flags/evaluator.go:108-222 | hence every evaluation at every moment of every run comes to what the rows alone allow it to, exactly that where its own reads work |
| Runs.FlagCallAddsRemoves | internal/flags/service.go:835-844 | rows come only from CreateFlag and go only by HardDeleteFlag, past its guard |
| BlindSpots.UpdateRuleCoherentIff | internal/flags/service.go:489-501 | a rewritten rule keeps the cache right exactly when the id was right, the owner's rules were not cached, or nothing changed |
| BlindSpots.SegmentEditCoherentIff | internal/flags/service.go:627-634 | a segment edit keeps it right exactly when the segment was not cached or did not change |
| BlindSpots.StaleRuleServed | internal/flags/staging_commit.go:107-124 | concrete tables and cache on which the old rule goes on being served |
| BlindSpots.StaleSegmentServed | internal/flags/service.go:627-634 | concrete tables and cache on which an edited segment goes on counting a user in |
| Precedence.FirstMatchWins | internal/flags/evaluator.go:180-202 | the rule found has the lowest priority number among the active, matching rules of the flag |
| Precedence.DecidedIffWins | internal/flags/evaluator.go:174-202 | with distinct priorities it is the only such rule, whatever the order of the rows |
| Precedence.LowerRulesIrrelevant | internal/flags/evaluator.go:174-202 | adding, removing or editing rules of lower precedence than the winner never changes it |
| Precedence.RolloutMonotone | cmd/api/main.go:1038-1046 | raising one percentage moves a user only onto that rule, never off it or off another onto a third |
| Precedence.AnswerMonotone | internal/flags/evaluator.go:181-222 | the same for the whole evaluation result |
| Precedence.SwitchesAtMostOnce | internal/flags/targeting.go:24-33 | along any non-decreasing rollout a user's answer changes at most once, to the rolled-out rule |
| Staleness.UsesAreFresh | internal/flags/evaluator.go:110-125 | under every interleaving, shared reads, failed cache reads and warm-ups included, a used flag, rule list or segment was the database's answer within TTL plus the read-to-fill delay before its use |
| Staleness.MoveKeeps | internal/flags/evaluator.go:158-172 | the invariant behind it, for every read, fill, hit, write, eviction and passage of time |
| Staleness.BoundIsTight | internal/flags/service.go:375-397 | a run reaches the bound to the nanosecond, after the write and its invalidation completed |
| Staleness.StaleHitNeedsLateFill | internal/flags/service.go:375-397 | after a write and its invalidation, a hit on anything older was filled in after the invalidation by a read from before the write |
| Batches.AccessesMakeEvaluate | internal/flags/evaluator.go:108-222 | the single accesses of a worker compose to Evaluate through the cache |
| Batches.MoveKeeps | internal/flags/service.go:423-448 | whatever a worker holds still leads to the answer its key has alone |
| Batches.BatchEnds | internal/flags/service.go:423-448 | every schedule ends: a bounded number of accesses for each key, and a batch that cannot go on has finished |
| Batches.BatchAnswersEachAlone | internal/flags/service.go:423-448 | under every schedule of at most ten workers, whatever reads fail for whatever keys, each slot is written once and holds what its key alone may come to |
| Batches.ScheduleIrrelevant | internal/flags/service.go:423-448 | a slot whose own reads work and whose rules are unambiguous is the same under any two schedules, coherent caches and failures of the other keys |
| LifecycleRuns.FailingTestKillsFlag | internal/flags/service.go:733-774 | after a failing result every evaluation in every environment that can read the flag reports it off until a call sets an enabled bit, whatever reads fail |
| LifecycleRuns.RulesAlwaysValid | internal/models/flag.go:219-253 | no run leads from rules that validate to one that does not |
| LifecycleRuns.IterationsCountFailures | internal/flags/repository.go:66-69 | over any run the iteration count grows by exactly the number of failing results |
| LifecycleRuns.RemovalIsAhead | internal/flags/service.go:777-788 | the date lies the given days ahead exactly when they are at most 106751 |
| LifecycleRuns.RemovalWrapsAround | internal/flags/service.go:777-788 | one day more and the flag is due at once |
| Retention.DatesAlwaysOk | internal/flags/repository.go:85-116 | in every run an archived flag's delete_after is never later than archived_at plus retention |
| Retention.ArchivalOf | internal/flags/service.go:330-373 | a flag found archived was archived by one call of the run, or before it, and has been ever since |
| Retention.DeletedOnlyAfterRetention | internal/flags/service.go:835-844 | a row goes only by a hard delete, while archived, after full retention since the call that last archived it, in the run or before it |
| Retention.UnarchiveLeavesDate | internal/flags/revert.go:39-53 | unarchiving, or reverting an archive, leaves the deletion date; restoring clears it |
| Retention.RetentionSweeper.DeleteOne | internal/flags/retention_sweep.go:66-102 | one deletion and, only if it went through, one audit row with the flag as it was |
| Retention.RetentionSweeper.SweepOnce | internal/flags/retention_sweep.go:66-102 | a sweep is the deletions of one batch in order, with their audit rows |
| Retention.SweptRows | internal/flags/retention_sweep.go:66-102 | exactly the deletable flags of the batch go, every other row is unchanged |
| Retention.SweptTombstones | internal/flags/retention_sweep.go:66-102 | one audit row for each deleted flag, with its last state, and none besides |
| Retention.SweepDeletesIff | internal/flags/retention_sweep.go:66-102 | a flag goes exactly when the batch reaches it and its retention has passed |
| Retention.BatchReaches | internal/platform/database/postgres/flags.go:608-628 | which overdue flags a batch of a hundred reaches |
| Retention.JammedSweepDoesNothing | internal/flags/retention_sweep.go:66-102 | a batchful of active flags with the earliest dates makes a sweep do nothing |
| Retention.JamLasts | internal/flags/retention_sweep.go:66-102 | and every later sweep too, over every run that does not archive, restore or clear one of them |
| Jams.JamReached | internal/flags/revert.go:39-53 | from empty tables, calls of the service alone lead to such a state, with a flag past its retention that is never deleted |
| Scheduler.LifecycleScheduler.Tick | internal/flags/lifecycle_scheduler.go:63-77 | a tick marks the listed flags in order and emits those whose mark succeeded |
| Scheduler.LoneTick | internal/flags/lifecycle_scheduler.go:63-77 | alone, it emits every listed flag once and marks exactly those |
| Racing.MoveKeeps | internal/flags/lifecycle_scheduler.go:63-77 | the invariant of any number of schedulers, crashes, failing marks and publishes, and concurrent calls |
| Racing.AtMostOneEvent | internal/flags/repository.go:71-77 | one setting of a removal date sends at most one event, for a flag that was due when listed |
| Racing.FinishedTickSettles | internal/flags/lifecycle_scheduler.go:63-77 | when a tick finishes, each flag it listed is gone, its mark never reached the database, or its event is out, about to go out, or lost in a crash or a failed publish |
| RaceWindows.MarkFilesListedIff | internal/flags/lifecycle_scheduler.go:63-77 | over every interleaving a mark announces the listed setting exactly when nobody set or cancelled the date between list and mark |
| RaceWindows.MarkedStillDueIff | internal/platform/database/postgres/flags.go:493-505 | the marked row is still due exactly when the calls in between left it a date no later than the list, and not archived |
| RaceWindows.RescheduleLosesItsEvent | internal/platform/database/postgres/flags.go:493-505 | a run in which a rescheduled flag is announced at once and never at its new date |
| RaceWindows.CancelledStillAnnounced | internal/platform/database/postgres/flags.go:493-505 | a run in which a flag without a date is announced |
| RaceWindows.ArchivedStillAnnounced | internal/platform/database/postgres/flags.go:493-505 | a run in which an archived flag is announced |
| Undo.FlagHandler.Perform | internal/flags/handler.go:1484-1537 | the audit values are captured before the change, and recorded, as the JSONB columns keep them, only if it succeeds |
| Undo.FlagHandler.Revert | internal/auth/revert_handler.go:40-116 | the dispatched handler's call is made and the swapped row appended; a refusal changes nothing |
| UndoLaws.GuardMeansCurrent | internal/flags/revert.go:338-355 | the text comparison of the race check holds only of the audited value |
| Trails.StepFair | internal/auth/revert_handler.go:89-104 | each step of any kind records the row before and the row after it, or is silent because nothing audited happened to the row |
| Trails.EntriesTruthful | internal/flags/handler.go:1501-1537 | over every run of commands, reverts and unaudited calls an entry about the row has its state just before and just after |
| Trails.TrailIsHistory | internal/flags/handler.go:1501-1537 | where no unaudited call writes the row, the entries about it, picked out of the trail, are its history, and replaying their new values gives the current row |
| UndoLaws.FlagEnvThereAndBack | internal/flags/revert.go:322-368 | setting and reverting restores the tables exactly when there was a row before; otherwise the entry does not decode |
| UndoLaws.UpdateUndoneIff | internal/flags/revert.go:75-146 | exactly when an edit entry, whoever wrote it, is reverted, by force or not, and everything the revert writes |
| UndoLaws.EditNeverUndone | internal/flags/handler.go:544-600 | the edit endpoint's own entries never are, even by force |
| UndoLaws.CommitThereAndBack | internal/flags/staging_commit.go:56-74 | a staged update is reverted exactly when its old value is restorable and its new default and expiry were in stored form, and restored exactly when the old value was the flag |
| UndoLaws.EditedIff | internal/models/flag.go:184-216 | exactly when an edit of a stored flag goes through |
| UndoLaws.ReleaseFlagNotEdited | internal/platform/database/postgres/flags.go:200-249 | a release flag that is created and that no edit leaves a release flag |
| UndoLaws.RuleEnvThereAndBack | internal/flags/handler.go:1416-1440 | restored exactly when the rule is one of the named flag and had a row |
| UndoLaws.ToggleThereAndBack | internal/flags/handler.go:869-871 | the revert always goes through, and restores exactly when the toggle changed the bit |
| UndoLaws.RuleThereAndBack | internal/flags/handler.go:1312-1338 | the row comes back exactly when it validates, as all rules of the service do; its environment states do not |
| UndoLaws.ArchiveThereAndBack | internal/flags/handler.go:639-659 | reverting an archive restores exactly when the flag was not archived before; a repeated archive succeeds and is audited too |
| UndoLaws.QueueThereAndBack | internal/flags/handler.go:692-721 | reverting a queueing restores exactly when the flag was not queued before |
| UndoLaws.RestoreThereAndBack | internal/flags/revert.go:301-319 | reverting a restore archives as of now: retention begins anew and a deletion date is lost |
| UndoLaws.NewRuleThereAndBack | internal/flags/handler.go:1201-1238 | reverting the creation of a rule restores all tables |
| UndoLaws.NewFlagThereAndBack | internal/flags/revert.go:56-71 | reverting the creation of a flag keeps its row, archived, and every other row |
| UndoLaws.RepeatRaces | internal/flags/revert.go:236-278 | the same value-changing revert again is refused as a race, for every action but rule creation |
| UndoLaws.NewerValueKept | internal/flags/revert.go:149-176 | without force a later, differing value of a toggle, an edit or an environment state is never overwritten |
| Preview.Buckets | internal/staging/overlay.go:51-65 | the buckets hold each resource's rows in their order |
| Preview.OverlayList | internal/staging/overlay.go:40-90 | the overlay patches every flag by its own rows, in place, and drops the deleted |
| Preview.StagingService.Stage | internal/platform/database/postgres/staging.go:29-64 | staging replaces the row of the same flag and field path in its place, or adds one; no two rows share a target |
| Preview.StagingService.Commit | internal/staging/service.go:108-209 | rows are carried out in order up to the first failure; only a complete batch leaves the staging table |
| Preview.FlagPreviewed | internal/flags/handler.go:1765-1794 | folding a flag's staged rows gives the enabled, archived and queued bits that committing all rows gives |
| Preview.PagePreviewed | internal/staging/overlay.go:40-90 | the same for a page; the archived member is right exactly when archiving did not change |
| LoadingOrder.CommitsIffAllClear | internal/flags/staging_commit.go:275-298 | a batch over any flags commits exactly when every row decodes and finds its flag, and none toggles a flag its own earlier rows leave archived |
| LoadingOrder.OrderWithinFlag | internal/platform/database/postgres/staging.go:93-108 | loading orders that keep each flag's rows in order commit together and to the same outcome |
| LoadingOrder.WholeRowsCommute | migrations/061_create_staged_changes.up.sql:31-38 | rows without field paths commit to the same outcome in every loading order |
| LoadingOrder.TwoRowsCommuteIff | internal/platform/database/postgres/staging.go:93-108 | two rows of one flag have one outcome in both orders exactly when their actions commute on its bits |
| LoadingOrder.LoadingOrderMatters | internal/platform/database/postgres/staging.go:93-108 | an archive and a restore under two field paths, which do not |
| Preview.FailedBatchKeepsPrefix | internal/staging/service.go:171-180 | a failing batch leaves what its succeeding rows, committed alone, would leave |
| Broker.SSEBroker.Broadcast | internal/flags/handler.go:1681-1692 | every registered channel with room gets the message once, a full one is left alone, none is closed |
| Broker.SSEBroker.Unsubscribe | internal/flags/handler.go:1672-1677 | the channel leaves the map and is closed; no closed channel stays registered |
| Streaming.MoveKeeps | internal/flags/handler.go:1649-1692 | the invariant over subscribing, overlapping broadcasts, receiving and disconnecting |
| Streaming.ClientsAreServed | internal/flags/handler.go:1681-1692 | received and waiting messages are what a 64-slot queue keeps of the offers, in order; each broadcast is offered once; no send meets a closed channel |
| Streaming.SerialClientsInOrder | internal/flags/handler.go:1681-1692 | without overlap, the offers are exactly the messages since the subscription, in broadcast order |
| Streaming.ReturnedFirst | internal/flags/handler.go:1681-1692 | a broadcast that returned before another began comes first for every client offered both |
| Streaming.OverlapReorders | internal/flags/handler.go:1682-1683 | with overlap, two clients can see two messages in opposite orders |
| Deployments.DeployService.GetLatestCompletedDeployment | internal/platform/database/postgres/deploy.go:377-394 | the completed deployment of the pair with the latest date, a missing date counting as latest |
| Deployments.DeployService.CreateDeployment | internal/deploy/service.go:88-133 | validation, then linking to that deployment, or to none if the lookup fails, then insertion; errors change nothing |
| Deployments.DeployService.Mutate | internal/deploy/service.go:161-312 | the mutators write status, traffic and dates of the one row |
| DeploymentRuns.MoveKeeps | internal/platform/database/postgres/deploy.go:190-217 | the link invariant, with lookup and insertion apart and arbitrary stale updates and build events between |
| DeploymentRuns.ChainsEnd | internal/deploy/desired_state_handler.go:119-127 | links end, never return, stay in the pair and meet only deployments completed there before |
| DeploymentRuns.CompletedStaysIff | internal/platform/database/postgres/deploy.go:190-217 | over every run a completed deployment ends completed exactly when the last status written into its row since, if any, is that one |
| DeploymentRuns.RerunUncompletes | internal/platform/database/postgres/deploy.go:574-604 | a run in which a rerun of its workflow fails a deployment's predecessor |
| DeploymentRuns.StaleCopyUncompletes | internal/platform/database/postgres/deploy.go:190-217 | a run in which a stale copy sets it running again |
| MutatorRuns.LeavesStatusIff | internal/deploy/service.go:161-312 | with load and store apart, exactly which store takes a row out of its status; out of a terminal one, only a copy loaded before the row became so |
| MutatorRuns.CancellationLost | internal/deploy/service.go:300-312 | a run in which a traffic update writes a cancelled deployment back to running |
| Health.HealthScorer.constructor | internal/health/scorer.go:53-65 | the weight table of the entries; a fallback that is not positive becomes 1 |
| Health.LastEntryCounts | internal/health/scorer.go:53-58 | of several weights of a name the last counts |
| Health.HealthScorer.ComputeScore | internal/health/scorer.go:75-95 | the loop computes the clamped weighted mean, 1 without checks or weight |
| Health.ScoreBetween | internal/health/scorer.go:75-95 | the score lies between the smallest and largest check score, and is their exact weighted mean when those are in [0, 1] |
| Health.ScoreMonotone | internal/health/scorer.go:75-95 | raising check scores never lowers it |
| Health.ScorePermuted | internal/health/scorer.go:75-95 | the order of the checks does not matter |
| Health.ThresholdDecides | internal/health/monitor.go:155-186 | checks all at the threshold are healthy together, checks all below it are not |
| Health.HealthMonitor.RunChecks | internal/health/monitor.go:156-170 | one result for each check in order, a failing probe scoring 0 |
| Health.HealthMonitor.Evaluate | internal/health/monitor.go:145-203 | a round assesses every watched deployment and touches no other |
| HealthRounds.UnwatchedReturnsIff | internal/health/monitor.go:145-203 | a deployment unwatched comes back exactly when the round then under way still stores it, and then stays |
| HealthRounds.UnwatchUndone | internal/health/monitor.go:104-108 | a run in which it does |
| Health.HealthHistory.RecordScore | internal/health/scorer.go:152-172 | every deployment keeps its latest observations of all ever recorded, at most maxSize |
| Health.HealthHistory.GetHistorySince | internal/health/scorer.go:192-204 | those of them at or after the given time, in order |
| Slugs.SlugifyProjectName | cmd/cli/projects.go:313-337 | the byte machine is the squeezing of runs without its last dash |
| Slugs.SlugsAgreeIff | internal/groups/service.go:44-50 | both slugs of a name are letters and digits with single inner dashes, and equal exactly when no character beyond ASCII lowers into the alphabet |
| Slugs.SlugsIdempotent | internal/groups/service.go:44-50 | a slug is its own slug under both |

## Left out

- HTTP, authentication, JSON and YAML decoding: the modelled endpoints take decoded requests.
- SQL text, connection failures of writes, and the columns `created_at`, `updated_at`, creator and updater.
- Telemetry, metrics, analytics, webhooks and publishing, except the due event of the scheduler.
- `singleflight` outside `Staleness`: elsewhere coalesced reads are separate reads.
- Flags with an application: the statements of this service never write one.
- Lost updates between the read and the write of one mutator: calls are atomic in `Runs`, `LifecycleRuns` and `Retention`.
  `Staleness` and `DeploymentRuns` allow arbitrary writes in between.
- Previews of staged `update` and `create` rows, provisional ids, staging markers: only toggle, archive, restore and delete are
  previewed; the audit entry of a committed `update` is in `Undo`.
- UndoLaws.UpdateUndoneIff: times are stored as given, where PostgreSQL rounds them to microseconds.
- Preview.StagingService.Commit: batches with provisional ids, their ordering and substitution.
- How `createFlag` builds and checks its flag before it calls the service; `UndoLaws.NewFlagThereAndBack` takes any flag.
- Audit writes that fail after a successful revert, and the organisation check of the revert endpoint.
- Runs.CacheNeverDiffers: leaves out runs with the two kinds of call under `BlindSpots`.
- Staleness.UsesAreFresh: speaks of each used value by itself, not of one evaluation mixing values of several moments.
- Batches.BatchAnswersEachAlone: the rows and the clock that schedule rules read stand still during the batch.
- Racing.FinishedTickSettles: an event lost by a crash or a failed publish is accounted for, not sent again.
- Streaming.ClientsAreServed: a message accepted by the buffer of a client that disconnects is kept there, not delivered.
- Health.ScoreBetween: scores and weights are reals, so rounding is not modelled; metrics and listeners of the monitor are left out.
- Health.HealthMonitor.Evaluate: a round is one step here; its steps are apart in `HealthRounds`.
- Deletion of applications and environments, which removes or detaches their deployments.
- Slugs beyond the lowering function and UTF-8 bytes given as parameters.
- Rollouts, the phase engine, the coordinator, groups and members: only what the modelled parts call.
