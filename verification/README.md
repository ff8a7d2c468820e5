# Verified model of the maintenance scripts

This project models the repository's data-repair scripts as transactions on tables and proves what
they promise: that over-billed copies are reversed exactly, that a clean-up may be stopped and run
again, that replicas migrate one at a time, that scans and roll-ups equal a one-pass version, that
retry loops end, and that two writers with old plans never overwrite each other.

How it is modelled:

- Each table is a map or a sequence in a class; each transaction is a method whose contract gives its
  whole new state, or says that nothing changed. NULL is `Option`.
- Whatever a method and its specification share, a ranking, a guard, a decision, is also stated column
  by column by a lemma that does not mention it (the rows that say "in columns").
- A uuid is a natural number with its order. The md5 fingerprint is the tuple it hashes. The order in
  which the database returns the lines of a join, and the order of a Python dictionary, are arbitrary.
- `LEFT JOIN delivered_records` yields one line for every matching claim. That this fan-out cannot
  delete a survivor is proved, not assumed.
- County lookups, owner flags, property keys, derived names and text normalisation are arbitrary pure
  functions handed to the methods; abort schedules and dropped connections are arbitrary inputs.
- Crashes, dropped connections, other writers, deliveries, uncharged stores and period resets are
  steps or inputs that may come anywhere. A process lives for a given number of commits.

| module | models |
|---|---|
| `Ledger`, `Store` | results, delivered_records, jobs, users; the ledger invariants; survivor ranking |
| `CleanupPlan` | the ranking query and the loops of `_plan`, for both clean-ups |
| `BilledCleanup`, `BilledResults`, `Billing`, `BilledRun` | the clean-up of billed copies |
| `SafeCleanup` | the clean-up of unbilled copies in many commits |
| `Release`, `Provenance` | releasing stranded claims; stamping where a duplicate came from |
| `LedgerRuns` | whole runs of all of these with deliveries, uncharged stores and resets |
| `Migrate` | replicas racing for the migration lock |
| `OwnerFlags`, `OwnerNames`, `Membership` | scans and roll-ups against their one-pass meaning |
| `AssumedMailing`, `KingMailing` | retries that converge; two write-once writers |
| `ChildNames`, `PierceOwner` | plan, validate, apply; ambiguity detection and chunks |

## What the code does not do

Each of these is a promise of a script or its documentation that the code does not keep on every
input. The model keeps the code as it is; one lemma or method gives an input, another says exactly
when the promise is kept.

- `COALESCE(billing_applied_at, finished_at)` takes a finished but never charged job for a charged
  one, so its clean-up can take back another job's charge (`Billing.UnchargedJobLosesACharge`, reached
  by a run in `LedgerRuns.StoredJobBreaksARun`). One clean-up keeps the counter right exactly when the
  job's charge is its own (`Billing.AttributableIff`), and a whole run does exactly when each of its
  clean-ups and resets does (`LedgerRuns.RunsStayRightIff`); a job with `billing_applied_at` is safe.
- In the build without that column `finished_at` alone stands for the charge. A job charged before the
  user's period began and finished after it takes a unit from the new period that was not its own
  (`Billing.StraddlingJobLosesACharge`); every other charged job is safe, and only that one is not
  (`Billing.FinishedAtKeepsBillingIff`).
- After a reconnect the owner-flag backfill may print more committed rows than it wrote
  (`OwnerFlags.PrintsTooMuch`). It prints the rows written plus the UPDATEs lost with a connection
  (`OwnerFlags.Results.Backfill`), so it is exact iff none was lost (`OwnerFlags.LostIff`); where no
  UPDATE raises, iff no computable row was evaluated twice (`OwnerFlags.PrintedCountIff`).
- With `--limit`, an aborted owner-name run followed by the same command does not end where the
  uninterrupted run does (`OwnerNames.RerunWithLimitDiffers`, exact condition `OwnerNames.RerunSameIff`).
- The page-by-page roll-up and the GROUP BY differ on a row with a key and an empty record type
  (`Membership.EmptyTypeDisagrees`), and on no other (`Membership.BuildsAgreeIff`).
- The parcel and the address stored beside a key depend on the page size
  (`Membership.ParcelDependsOnBatch`), unless one was stored before, the key's first row carries one or
  no row does (`Membership.StoredFieldIff`).
- `--max-attempts` is stamped from the last planned row of the head. Convergence still holds, but a row
  may be looked at more often than the maximum (`AssumedMailing.BoundFails`), exactly when the maximum is
  four or more (`AssumedMailing.BoundIff`). Carrying each row's own counter in the plan would keep the
  bound for every maximum (`AssumedMailing.LooksBounded` with `carry`); the script does not do that.
- A rule K lookup that raises leaves the exit code at 0, although the script says an abort must not
  stall silently (`AssumedMailing.SilentStall`). A run stops for its source and exits 0 iff rule K was
  unreachable with candidates waiting and no rule found its source down (`AssumedMailing.SilentStallIff`).
- One user's colliding pair that the plan cannot rename blocks the renames of every user
  (`ChildNames.StuckPair`); the plan is refused iff some user's two names would still meet
  (`ChildNames.RefusedIff`).
- An accepted owner spelled exactly like the old label is cleared, not stored
  (`PierceOwner.OwnerLikeLabel`); every other accepted owner is stored (`PierceOwner.OwnerStoredIff`).

## Conditions left to the schema and the rest of the system

What the scripts promise here holds as long as the rest of the system supplies a condition; the
lemmas say exactly which.

- The provenance preview counts join lines, not rows. It is exact iff no row has two matching claims
  (`Provenance.PreviewIsExactIff`), which the unique constraint on delivered_records gives
  (`Provenance.UniqueClaimsPreviewExactly`).
- A period reset zeroes the counter; the counter stays right iff no charge lies at or after the new
  period start (`LedgerRuns.ResetKeepsBillingIff`).

## Model

| member | source | states |
|---|---|---|
| Ledger.SurvivorExists | scripts/cleanup_watchdog_billed_dups.py:109-122 | every group has a row that ranks strictly before all the others |
| Ledger.SurvivorUnique | scripts/cleanup_watchdog_billed_dups.py:109-122 | no group has two survivors, because the sort ends in the primary key |
| Ledger.SameGroupIff | scripts/cleanup_watchdog_billed_dups.py:95-101 | rows are one group iff they are one job's and agree in each of the nine scraped columns, with '' and NULL page hashes equal |
| Ledger.SurvivorBillable | scripts/cleanup_watchdog_billed_dups.py:103-107 | the billed ranking keeps a non-duplicate row whenever the group has one |
| Ledger.SurvivorClaimed | scripts/cleanup_watchdog_dup_results.py:87-88 | the claim column: first in the safe ranking, second after the duplicate flag in the billed one |
| Ledger.SurvivorBestEnriched | scripts/cleanup_watchdog_billed_dups.py:115-121 | among rows that tie on flag and claim the survivor has the mailing address if any has, then the property address, the skip-trace hit, the property key, then the earliest row |
| Ledger.OneClaimPerGroup | scripts/diag_verify_repair_invariants.py:18-43 | under the ledger invariants two claims on rows of one group are one claim on one row |
| Ledger.OnlyAnchor | scripts/diag_verify_repair_invariants.py:18-43 | under the ledger invariants only one row of a group is named by a claim |
| Ledger.RepairKeepsLedger | scripts/diag_verify_repair_invariants.py:18-43 | a clean-up that removes rows and moves claims inside their group keeps each ledger check on the strength of that check, and never adds a claim that names a duplicate |
| CleanupPlan.JoinClaims | scripts/cleanup_watchdog_billed_dups.py:123-125 | the LEFT JOIN: every line once, one line per claim that names the row, one empty line if none does |
| CleanupPlan.FirstIsSurvivor | scripts/cleanup_watchdog_billed_dups.py:113-122 | rn = 1 is exactly the first line of the surviving row, whatever order the join came in |
| CleanupPlan.FanOutShows | scripts/cleanup_watchdog_billed_dups.py:217-245 | a second claim on a row puts that row twice, or a survivor, into the delete list |
| CleanupPlan.ListedIff | scripts/cleanup_watchdog_dup_results.py:140-168 | on any ledger a row is listed for deletion iff it does not survive or two claims name it |
| CleanupPlan.CleanListIffNoFanOut | scripts/cleanup_watchdog_billed_dups.py:217-245 | the delete list has no repeat and no survivor exactly when no row of the job has two claims |
| CleanupPlan.CleanList | scripts/cleanup_watchdog_billed_dups.py:217-245 | without fan-out the list is exactly the doomed rows and delete_billed the number of billable ones among them |
| CleanupPlan.DoomedBilledCounts | scripts/cleanup_watchdog_billed_dups.py:237-242 | delete_billed counts distinct non-duplicate rows whenever the list has no repeat |
| CleanupPlan.BilledListed | scripts/cleanup_watchdog_dup_results.py:162-163 | on any ledger the non-duplicate count of a job is positive iff such a row is not a duplicate |
| CleanupPlan.SurvivorListed | scripts/cleanup_watchdog_billed_dups.py:222-225 | the lookup of a line's survivor never misses |
| CleanupPlan.FindSurvivors | scripts/cleanup_watchdog_billed_dups.py:222-225 | every group that shows a first line is mapped to its survivor |
| CleanupPlan.ClassifyAll | scripts/cleanup_watchdog_billed_dups.py:226-245 | per job: the delete ids, the billed count and the re-point pairs (listed claimed row, its survivor), and nothing of other jobs |
| CleanupPlan.Plan | scripts/cleanup_watchdog_billed_dups.py:217-245 | _plan of both scripts: one entry for each job of the scope with rows, fitting the ranking |
| BilledCleanup.RepointClaims | scripts/cleanup_watchdog_billed_dups.py:469-475 | re-pointing pair by pair equals moving every claim on the listed rows to its survivor at once; the row counts add up |
| BilledCleanup.ArchiveAndDelete | scripts/cleanup_watchdog_billed_dups.py:485-503 | succeeds exactly when the list has no repeat and all its rows exist; then exactly those rows are archived and gone |
| BilledCleanup.AnchorCheck | scripts/cleanup_watchdog_billed_dups.py:271-278 | after the re-points the anchor check passes exactly when no survivor is in the list |
| BilledCleanup.ChecksMeanNoFanOut | scripts/cleanup_watchdog_billed_dups.py:476-503 | with no ledger assumption, for the checks of either script: the anchor check passes iff no survivor is listed, and with the batch counts iff the join did not fan out |
| BilledCleanup.Transaction | scripts/cleanup_watchdog_billed_dups.py:436-530 | commits exactly when CanCommit holds of the state it starts from, and then reaches AfterCommit with these counts |
| BilledCleanup.CommitsIff | scripts/cleanup_watchdog_billed_dups.py:426-517 | the whole condition in columns: job over, user there, a timestamp by COALESCE, no row claimed twice, the list is the rows outranked by an equal lead, none referred to elsewhere, and the counter absorbs the decrement of the current period |
| BilledCleanup.ApplyJob | scripts/cleanup_watchdog_billed_dups.py:426-530 | one job is all or nothing: commits iff CanCommit, otherwise the database is unchanged |
| BilledResults.OneRowPerRecord | scripts/cleanup_watchdog_billed_dups.py:109-126 | after a commit each (job, fingerprint) has exactly one row, unchanged, non-duplicate exactly when some copy was; other jobs keep every row |
| BilledResults.LeadsKept | scripts/cleanup_watchdog_billed_dups.py:95-126 | after a commit every row of the job has a kept row equal to it in all nine columns, a billable one if it was billable, and no two kept rows are equal in all nine |
| BilledResults.BilledCountIsRecords | scripts/cleanup_watchdog_billed_dups.py:520-527 | the recomputed billed_count is the number of records that had a billed copy |
| BilledResults.NothingLost | scripts/cleanup_watchdog_billed_dups.py:482-503 | every row is still there or is in the archive as it was |
| BilledResults.ClaimAfter | scripts/cleanup_watchdog_billed_dups.py:458-476 | a claim on a doomed row names the survivor of its group; every other claim is untouched |
| BilledResults.CommitRepairs | scripts/cleanup_watchdog_billed_dups.py:458-476 | a commit is a repair in the sense of Ledger.RepairKeepsLedger |
| BilledResults.RepointRepairs | scripts/cleanup_watchdog_billed_dups.py:458-476 | under the ledger invariants only claims that named a flagged duplicate move, and each then names a non-duplicate row |
| BilledResults.SecondPlanEmpty | scripts/cleanup_watchdog_billed_dups.py:50-55 | under the ledger invariants a second plan for the job is empty, for any order of the join |
| Billing.CleanupKeepsBillingIff | scripts/cleanup_watchdog_billed_dups.py:35-48 | a commit keeps records_used equal to the billable rows of the period iff it deletes no billable row or the period flag is true to the charge |
| Billing.AttributableIff | scripts/cleanup_watchdog_billed_dups.py:35-48 | for charged and uncharged jobs and both builds, a commit keeps the counter right iff nothing billable goes, or the job was charged and finished_at does not stand in for a charge the period began after, or it was not charged and is not taken for charged now |
| Billing.ChargedJobKeepsBilling | scripts/cleanup_watchdog_billed_dups.py:35-48 | for a job with billing_applied_at the counter stays right and a charge of a prior period is never subtracted |
| Billing.GuardNeverFires | scripts/cleanup_watchdog_billed_dups.py:505-517 | while the counter is right the >= :dec guard lets every truthful decrement through |
| Billing.UnchargedJobLosesACharge | scripts/cleanup_watchdog_billed_dups.py:159-159 | a concrete state where the finished_at fallback subtracts a charge the job never had |
| Billing.FinishedAtKeepsBillingIff | scripts/cleanup_watchdog_billed_dups.py:159-159 | where finished_at stands for the charge, a commit for a charged job keeps the counter right iff it deletes no billable row or the period did not begin between the charge and the end |
| Billing.StraddlingJobLosesACharge | scripts/cleanup_watchdog_billed_dups.py:159-159 | a concrete job charged before the period began and finished after, whose clean-up takes a unit from the new period |
| BilledRun.OtherJobUntouched | scripts/cleanup_watchdog_billed_dups.py:627-637 | cleaning one job changes neither the plan nor the readiness of another |
| BilledRun.ApplyOne | scripts/cleanup_watchdog_billed_dups.py:632-637 | one job either commits whole or changes nothing, and extends the trace of commits |
| BilledRun.ApplyPlans | scripts/cleanup_watchdog_billed_dups.py:627-637 | every listed job has its turn, commits whole or fails alone; exactly the copies of the jobs done are gone; on a sound ledger no job fails |
| BilledRun.TurnIff | scripts/cleanup_watchdog_billed_dups.py:436-517 | on any tables a job's turn succeeds iff the job is over, has user, timestamp, no fan-out and no outside reference, and the counter it finds can absorb its charge |
| BilledRun.TracePreserves | scripts/cleanup_watchdog_billed_dups.py:482-503 | over any run, sound or not, every row is still there as it was or in the archive as it was |
| BilledRun.ReachableIsReady | scripts/cleanup_watchdog_billed_dups.py:159-170 | every terminal attributable job that a run of harmless steps can produce is ready for the clean-up: its period flag is true to its charge |
| BilledRun.Run | scripts/cleanup_watchdog_billed_dups.py:533-648 | main on any tables: refused iff a listed job has no timestamp; done and failed are the listed jobs, each by its own turn; exactly the copies of the jobs done are gone and no row is lost; on a sound ledger with a ready scope no job fails, and billing, ledger and provenance invariants hold |
| SafeCleanup.AnchorSurvives | scripts/cleanup_watchdog_dup_results.py:83-100 | the safe ranking never dooms a row that a claim names |
| SafeCleanup.SurvivorsStay | scripts/cleanup_watchdog_dup_results.py:286-332 | removing any of the doomed rows changes no survivor |
| SafeCleanup.LedgerStays | scripts/cleanup_watchdog_dup_results.py:286-332 | after any committed delete every claim still resolves and the ledger holds |
| SafeCleanup.MidwayRepairs | scripts/cleanup_watchdog_dup_results.py:286-332 | on any ledger, wherever the run stops: no group has lost its survivor, and every ledger check that held still holds |
| SafeCleanup.LeadsStay | scripts/cleanup_watchdog_dup_results.py:83-100 | wherever the run stops every row has a kept row of its job equal to it in all nine columns, and in a cleaned job only one |
| SafeCleanup.CheckUnmoved | scripts/cleanup_watchdog_dup_results.py:296-307 | the work done on other jobs does not change what the anchor check of this job finds |
| SafeCleanup.AcceptedIff | scripts/cleanup_watchdog_dup_results.py:256-283 | under the ledger invariants main accepts the scope iff every job is over and no billed row is to go |
| SafeCleanup.RestartFinishes | scripts/cleanup_watchdog_dup_results.py:309-332 | after a stop anywhere what is left to delete is what was not deleted, the scope is still allowed, and finishing gives the tables of an uninterrupted run |
| SafeCleanup.CalmPlan | scripts/cleanup_watchdog_dup_results.py:140-168 | under the ledger invariants the plan lists each doomed row once and re-points nothing |
| SafeCleanup.DeleteBatch | scripts/cleanup_watchdog_dup_results.py:311-324 | a batch fails exactly when a claim names it or a row of it is missing or repeated; otherwise it is deleted whole, or the process dies before the commit; else nothing changes |
| SafeCleanup.RepointOnce | scripts/cleanup_watchdog_dup_results.py:296-307 | fails exactly when afterwards a claim would name a row to delete; otherwise every claim on a re-pointed row moves to its survivor, or the process dies before the commit; else nothing changes |
| SafeCleanup.DeleteBatches | scripts/cleanup_watchdog_dup_results.py:309-332 | the database is what the first so many batches make of it; dies iff there is another to commit and no commit left |
| SafeCleanup.CleanJob | scripts/cleanup_watchdog_dup_results.py:286-332 | one job on any ledger, after any number of commits: the database is what those commits make of it, one for the re-points and one for every 500 ids; dies iff there is another to make; done means no fan-out and all doomed rows gone, failed means fan-out |
| SafeCleanup.RunJobs | scripts/cleanup_watchdog_dup_results.py:286-332 | a job's failure does not end the run; it dies iff the plan needs more commits than it lives for, and then exactly that many are made |
| SafeCleanup.CostIs | scripts/cleanup_watchdog_dup_results.py:296-324 | a job without fan-out makes one commit, and one more for every 500 rows to delete; none if there is nothing to delete |
| SafeCleanup.Run | scripts/cleanup_watchdog_dup_results.py:216-338 | on any ledger: refuses iff a job is not terminal or a billed row would be listed; else the database is what the first `budget` commits of the plan make of it, and it ends iff there are no more; then the failed jobs are exactly those whose join fans out and every other job is clean. Under the ledger invariants it ends iff the budget covers one commit per job and one per 500 rows, no job fails and exactly the doomed rows are gone |
| SafeCleanup.DieThenRunAgain | scripts/cleanup_watchdog_dup_results.py:286-332 | a run that dies after any commit and one that lives as long as a whole run takes leave what one run leaves; the second is not refused |
| Release.ReleaseClaims | scripts/release_stranded_dedup_claims.py:56-175 | releases iff the job is failed or cancelled, holds the expected number of claims and none protects another finished job's delivery; removes exactly the job's own claims |
| Release.ReleasableIff | scripts/release_stranded_dedup_claims.py:70-125 | in columns: failed or cancelled, some claims of the job's own user, as many as expected, none of a lead another done job delivered |
| Release.DeliveredStaysBacked | scripts/release_stranded_dedup_claims.py:88-109 | every non-duplicate row of a finished job that had a claim still has one |
| Release.NewOrphans | scripts/release_stranded_dedup_claims.py:143-164 | with unique claims the newly orphaned flags are exactly the user's duplicate rows whose hash was released |
| Release.OtherUsersUntouched | scripts/release_stranded_dedup_claims.py:127-131 | no other user's flags become orphaned |
| Provenance.Backfill | scripts/backfill_duplicate_provenance.py:92-115 | stamps exactly the rows some claim proves, each from one of its proofs, and reports before, preview, stamped and after |
| Provenance.BackfillPointsBack | scripts/backfill_duplicate_provenance.py:44-65 | every stamp names an older job of the same user |
| Provenance.StampIsProven | scripts/backfill_duplicate_provenance.py:44-65 | only unattributed duplicates change, and each stamp repeats a claim of the same user and hash whose job was done, finished and delivered before the row's job began |
| Provenance.StampedIff | scripts/backfill_duplicate_provenance.py:44-65 | a row is stamped iff it is a duplicate without a reason and some claim of its user and lead names a job that was done, created, finished and delivered before the row's job began |
| Provenance.CountedRows | scripts/backfill_duplicate_provenance.py:67-100 | what the before and after counts and the preview count, in columns |
| Provenance.ChainsAreFinite | scripts/backfill_duplicate_provenance.py:44-65 | chains of attribution never loop and are no longer than the number of jobs |
| Provenance.PreviewIsExactIff | scripts/backfill_duplicate_provenance.py:67-90 | remaining after equals before minus preview iff no row has two proofs |
| Provenance.UniqueClaimsPreviewExactly | scripts/backfill_duplicate_provenance.py:109-115 | claim uniqueness makes the preview equal the rows stamped |
| Provenance.SecondRunStampsNothing | scripts/backfill_duplicate_provenance.py:30-30 | a second run changes no row |
| LedgerRuns.DeliveryKeepsBilling | src/workers/tasks_helpers/finalize.py:246-251 | a delivery, billed once under the compare-and-swap on billing_applied_at, keeps the counter right whatever rows the job already had |
| LedgerRuns.StoreKeepsBilling | src/workers/tasks.py:372-378 | rows and claims stored by a run that was not billed leave the counter right, whatever status the job ends in |
| LedgerRuns.ResetKeepsBillingIff | scripts/cleanup_watchdog_billed_dups.py:37-44 | a period reset keeps the counter right iff no billable row sits on a charge at or after the new start |
| LedgerRuns.FlagIsTruthfulIff | scripts/cleanup_watchdog_billed_dups.py:159-170 | the period flag of a clean-up is true to the charge iff the job is attributable |
| LedgerRuns.SafeBatchesAreSteps | scripts/cleanup_watchdog_dup_results.py:309-332 | the batches the safe clean-up commits delete unclaimed, unbilled rows only, so they are steps of these runs |
| LedgerRuns.StepKeepsInv | scripts/cleanup_watchdog_billed_dups.py:426-530 | deliveries, uncharged stores, resets, committed and aborted clean-ups, releases and stamps each keep ledger, provenance and charges with no condition, and the counter iff the step is harmless |
| LedgerRuns.RunsStaySound | scripts/diag_verify_repair_invariants.py:18-43 | no run of these steps, in any order, damages the ledger checks or the provenance stamps |
| LedgerRuns.RunsStayRight | scripts/cleanup_watchdog_billed_dups.py:505-517 | while the steps are harmless the counter is right and the decrement guard never fires on a job whose charge is its own |
| LedgerRuns.RunsStayRightIff | scripts/cleanup_watchdog_billed_dups.py:35-48 | the counter is right in every state of a run iff no reset zeroes a charge of the new period and every committed clean-up is of an attributable job |
| LedgerRuns.DeliveredRunsAttributable | scripts/cleanup_watchdog_billed_dups.py:35-48 | in runs that store no row without charging it every job is attributable, but for one the period began inside where finished_at stands alone |
| LedgerRuns.RunsSparePriorChargesIff | scripts/cleanup_watchdog_billed_dups.py:35-48 | in any run the clean-up of a job not charged in this period leaves all counters alone iff the job is attributable |
| LedgerRuns.StoredJobBreaksARun | scripts/cleanup_watchdog_billed_dups.py:159-159 | a run from a sound start: a job stores one lead twice and fails, and its clean-up takes away another job's charge |
| Migrate.StepInv | scripts/migrate.py:159-196 | every step of every replica keeps: live holders hold the lock, open upgrades start at the committed version, committed transactional revisions took effect once |
| Migrate.MigrationSafety | scripts/migrate.py:168-196 | any replicas, interleavings, crashes: at most one live connection migrates and it holds the lock, its version update matches, transactional revisions take effect exactly once, exit 0 saw its head |
| Migrate.CanFinish | scripts/migrate.py:159-196 | from any invariant world with the lock free, a polling replica that knows the committed revision can by its own steps exit 0 with the version at its head, the lock free and every revision in between in effect exactly once more, up to date or not, with or without revisions outside a transaction |
| Migrate.ReachableCanFinish | scripts/migrate.py:159-196 | so it can from every world a deploy can reach |
| Migrate.NeverStuck | scripts/migrate.py:168-196 | until it has returned every live client has a step of its own; one whose code is older than the schema returns 1 |
| Migrate.DropFreesTheLock | scripts/migrate.py:28-31 | the lock is only ever on a live session, and dropping that session lets any poller take it |
| Migrate.CommitReachesHead | scripts/migrate.py:182-182 | the version committed by a finishing replica is its own head and never goes back |
| Migrate.ClockAdvances | scripts/migrate.py:156-156 | n sleeps that do not return early move the clock by at least n times two seconds |
| Migrate.Acquire | scripts/migrate.py:129-156 | at most 451 tries; true iff the last try got the lock, false only after the whole budget |
| Migrate.AllTriesAreUsed | scripts/migrate.py:136-156 | the bound is tight: with two-second sleeps the 450th check is still in time |
| OwnerFlags.PageCommitted | scripts/backfill_owner_flags.py:138-157 | committing a page takes exactly its computable rows out of the window and leaves the rest in place |
| OwnerFlags.CommittedWindow | scripts/backfill_owner_flags.py:155-157 | the offset advanced by the rows left NULL stands before the same rows as before, with nothing computable behind it |
| OwnerFlags.Evaluate | scripts/backfill_owner_flags.py:139-154 | the row loop: what it logs, counts and sends |
| OwnerFlags.Results.Chunk | scripts/backfill_owner_flags.py:133-161 | one chunk under any fault, a lost connection before, between or after the UPDATEs or a raising UPDATE, is one turn of the scan and keeps it between two chunks |
| OwnerFlags.Results.Backfill | scripts/backfill_owner_flags.py:123-167 | any batch size, any finite pattern of faults: the committed table is exactly the filled one, every window row is evaluated, without faults once, in order, in both modes; the printed count is the rows written plus the UPDATEs lost with a connection |
| OwnerFlags.TotalsCount | scripts/backfill_owner_flags.py:142-149 | each total counts the evaluated rows with a known flag |
| OwnerFlags.TotalsRead | scripts/backfill_owner_flags.py:142-149 | the four totals in columns |
| OwnerFlags.FilledTwice | scripts/backfill_owner_flags.py:13-17 | a second run has no computable row left |
| OwnerFlags.FilledIs | scripts/backfill_owner_flags.py:140-153 | a row with all four flags NULL gets what compute_owner_flags says of (property, mailing); every other row is left alone |
| OwnerFlags.PrintedCountIff | scripts/backfill_owner_flags.py:152-154 | the count of evaluated computable rows is the number of rows written iff no computable row was evaluated twice |
| OwnerFlags.CountsTheLog | scripts/backfill_owner_flags.py:150-154 | with no raising UPDATE the printed count is the number of computable rows evaluated |
| OwnerFlags.LostIff | scripts/backfill_owner_flags.py:158-167 | nothing is counted twice iff no turn lost its connection after sending an UPDATE |
| OwnerFlags.PrintsTooMuch | scripts/backfill_owner_flags.py:152-154 | a concrete run that writes one row and prints two |
| OwnerNames.CursorMoves | scripts/backfill_king_tax_owner_names.py:60-80 | the keyset cursor set to the n-th eligible row sees exactly the eligible rows after it |
| OwnerNames.LateWriterWins | scripts/backfill_king_tax_owner_names.py:173-190 | a row renamed since the page was read keeps its new name; an untouched row is repaired |
| OwnerNames.RealNamesStay | scripts/backfill_king_tax_owner_names.py:173-190 | after a run beside other writers a real name they gave is still there, and only a blank or placeholder they left may have become the parcel's owner |
| OwnerNames.OnlyPlaceholdersChange | scripts/backfill_king_tax_owner_names.py:125-137 | only names change, only of rows in scope with a blank or placeholder name, and only to the owner of the row's own parcel |
| OwnerNames.RepairedIff | scripts/backfill_king_tax_owner_names.py:60-80 | in columns: which rows the page query sees, and that one of them is repaired iff its name is missing, blank or the placeholder and its parcel has an owner |
| OwnerNames.WholeRunIs | scripts/backfill_king_tax_owner_names.py:103-204 | an unlimited run is that repair of every row |
| OwnerNames.PageIsFix | scripts/backfill_king_tax_owner_names.py:153-190 | with no other writer the compare-and-swap page is the one-pass repair of its rows |
| OwnerNames.RestIsAhead | scripts/backfill_king_tax_owner_names.py:118-123 | after n repaired rows the page query from the cursor sees exactly the remaining ones |
| OwnerNames.Resolve | scripts/backfill_king_tax_owner_names.py:83-100 | asks exactly for the parcels not in the cache, each once; a blocked source leaves the cache alone |
| OwnerNames.OwnerTable.DoPage | scripts/backfill_king_tax_owner_names.py:130-195 | one page: the parcels asked for, other sessions' renames meanwhile, the rows written; aborted iff there was something to ask and the breaker tripped, and then nothing is written |
| OwnerNames.OwnerTable.Run | scripts/backfill_king_tax_owner_names.py:103-204 | whatever other sessions rename during each page, every row ends as they left it or as that repaired, a whole unlimited run repairs every row they leave alone, and no parcel is asked for twice; it aborts at the first page whose lookup trips the breaker and at no other; alone, exactly the first eligible rows in id order are scanned and repaired, and an abort keeps the pages before it |
| OwnerNames.OwnerTable.AbortThenRerun | scripts/backfill_king_tax_owner_names.py:10-13 | the program run twice, aborted and then whole: without a limit it ends in the one-pass table, with one it repairs the limit and the rows the first run took out of the query |
| OwnerNames.RerunLands | scripts/backfill_king_tax_owner_names.py:10-13 | abort after k rows, then the same command: it ends where one run with a limit raised by the rows already repaired ends |
| OwnerNames.RerunWithoutLimit | scripts/backfill_king_tax_owner_names.py:10-13 | without a limit the second run ends in the uninterrupted table |
| OwnerNames.RerunSameIff | scripts/backfill_king_tax_owner_names.py:112-117 | with a limit it does so iff no extra row reached has an owner to write |
| OwnerNames.RerunWithLimitDiffers | scripts/backfill_king_tax_owner_names.py:112-117 | three rows and --limit 2 for which it does not |
| Membership.AggregateCounts | scripts/backfill_property_membership.py:56-70 | the page dictionary counts the rows of each key, and holds only keys some row carries |
| Membership.RolledUpCounts | scripts/backfill_property_membership.py:36-105 | for any page size every key ends with its old count plus one per row that carries it |
| Membership.KnownStays | scripts/backfill_property_membership.py:97-99 | a parcel or address once stored is never replaced |
| Membership.FirstRowNames | scripts/backfill_property_membership.py:65-70 | a page takes parcel and address of a key from its first row |
| Membership.ParcelDependsOnBatch | scripts/backfill_property_membership.py:65-70 | two rows for which the stored parcel depends on the page size |
| Membership.SameForEveryBatch | scripts/backfill_property_membership.py:97-99 | when the first row that carries the key decides a field, every page size stores that value |
| Membership.StoredFieldIff | scripts/backfill_property_membership.py:65-99 | parcel or address is stored alike for every page size iff one was stored before, no row of the key carries one, or its first row does |
| Membership.Tabulate | scripts/backfill_property_membership.py:56-70 | the row loop builds that dictionary |
| Membership.Store.UpsertChunk | scripts/backfill_property_membership.py:86-103 | the statement is refused iff its list names a key twice, otherwise it is the additive merge |
| Membership.Store.MergePage | scripts/backfill_property_membership.py:71-103 | chunks of 500 never name a key twice, and together merge the whole page |
| Membership.Store.Accumulate | scripts/backfill_property_membership.py:29-106 | run: the keyset scan merges every page and scans every row |
| Membership.Store.Rekey | scripts/backfill_property_keys.py:72-110 | every row ends with the new key; scanned and changed are exact; a dry run changes nothing |
| Membership.KeyedBy | scripts/backfill_property_keys.py:84-87 | the new key is compute_property_key of (parcel, address, county, state), and the page loop counts a row under its user, record type and that key |
| Membership.Store.Rebuild | scripts/backfill_property_keys.py:113-146 | the users' roll-up is the GROUP BY of their rows, other users keep theirs |
| Membership.RebuiltIs | scripts/backfill_property_keys.py:55-69 | in columns: a key is there iff some row of the user, list and stored key is, with their number and the smallest parcel and the smallest address among them; other users keep theirs |
| Membership.BuildsAgreeIff | scripts/backfill_property_keys.py:55-69 | both builds give the same keys and counts, for any page size, iff no keyed row has an empty record type |
| Membership.EmptyTypeDisagrees | scripts/backfill_property_keys.py:55-69 | one row with an empty record type that only the GROUP BY counts |
| Membership.SecondRunDoubles | scripts/backfill_property_membership.py:3-7 | running the page-by-page build again doubles every count |
| Membership.RebuildTwice | scripts/backfill_property_keys.py:13-20 | the rebuild is idempotent |
| AssumedMailing.ColumnsTell | scripts/backfill_assumed_mailing.py:110-231 | from any table, over any commands, rules, limits, answers and outages: a row is as it was, or it has a source iff its address is settled, an error iff it will be retried, and its address is the one it began with, a differing one, an equal one or NULL as its status says |
| AssumedMailing.SettledIsFinal | scripts/backfill_assumed_mailing.py:90-109 | no later command changes anything in a settled row |
| AssumedMailing.OneRunClears | scripts/backfill_assumed_mailing.py:152-156 | one run of rule S or P settles every candidate |
| AssumedMailing.HeadIs | scripts/backfill_assumed_mailing.py:345-347 | the head is a prefix of the ordered candidates |
| AssumedMailing.InHeadIff | scripts/backfill_assumed_mailing.py:83-109 | which rows a run works on: unsettled copies of the rule's own, for rule K the first of them within the limit, untried ones first |
| AssumedMailing.AppliedRow | scripts/backfill_assumed_mailing.py:192-231 | every row after a run, read off rule and answer: the address found, its source and whether it is the same; NULL where there is none; unchanged and to be retried or given up; rows outside the head untouched |
| AssumedMailing.OutcomeIff | scripts/backfill_assumed_mailing.py:345-384 | idle, unavailable, source down and applied, each exactly when, read off the rows of the head: source down for rule K iff every parcel is unanswered, missing or an error |
| AssumedMailing.LateChangeWins | scripts/backfill_assumed_mailing.py:131-150 | on a table edited since it was planned a statement changes only its own row, and only if both addresses are still as read |
| AssumedMailing.NothingReopens | scripts/backfill_assumed_mailing.py:90-109 | a run makes no row a candidate and none untried |
| AssumedMailing.LastRowMoves | scripts/backfill_assumed_mailing.py:339-435 | if neither count moved the head is the same and its last row used up one attempt below the maximum |
| AssumedMailing.Progress | scripts/backfill_assumed_mailing.py:339-435 | every stamping rule K run strictly lowers (candidates, untried, attempts the head's last row has left) |
| AssumedMailing.Leads.MakePlans | scripts/backfill_assumed_mailing.py:385-404 | the planning loop; the attempts left over are the last row's |
| AssumedMailing.Leads.WritePlans | scripts/backfill_assumed_mailing.py:416-435 | on a quiescent table each guarded statement hits its own row and no other |
| AssumedMailing.Leads.RunRule | scripts/backfill_assumed_mailing.py:339-435 | idle, unavailable, source down and applied, each exactly when, and the table after each |
| AssumedMailing.Leads.RunRules | scripts/backfill_assumed_mailing.py:338-444 | every rule's outcome, read off the table the rules before it left, the table at the end, and the exit code |
| AssumedMailing.SilentStallIff | scripts/backfill_assumed_mailing.py:338-444 | exit code 2 iff some rule found its source down; some rule stopped for its source and the run exits 0 iff rule K was unreachable with candidates waiting and no rule found its source down |
| AssumedMailing.SilentStall | scripts/backfill_assumed_mailing.py:338-444 | two leads and a run of rule K, unreachable, that leaves them as they were and exits 0 |
| AssumedMailing.Leads.RepeatKing | scripts/backfill_assumed_mailing.py:345-348 | repeating rule K ends, with no candidate left unless a run could not reach the source |
| AssumedMailing.LooksBounded | scripts/backfill_assumed_mailing.py:386-393 | with at most three attempts, or with each row's own counter in the plan, no row is looked at more often than allowed |
| AssumedMailing.BoundFails | scripts/backfill_assumed_mailing.py:404-420 | for every maximum of four or more, runs that look at one row more often than that |
| AssumedMailing.BoundIff | scripts/backfill_assumed_mailing.py:323-325 | the retry bound holds of the script over all tables, runs and answers iff the maximum is at most three |
| KingMailing.StepSettles | scripts/king_rpacct_mailing.py:75-104 | a changed address is sourced, and a sourced row never changes |
| KingMailing.WritesAreGuarded | scripts/king_rpacct_mailing.py:87-103 | a row changes only if owner, parcel and address are still as read, its job is done and it has no source; an echo also keeps its property |
| KingMailing.PassIff | scripts/king_rpacct_mailing.py:111-164 | the pass of every row in columns: cut off iff unsourced and without postal tail; an echo iff neither source nor outcome, on the property's street, with the echo tail; a fill iff missing, deferred and retriable; and the address planned |
| KingMailing.ExtractWritesIff | scripts/king_rpacct_mailing.py:75-104 | a statement writes iff the county has an address, the row was planned and is still as read; and all it then writes |
| KingMailing.TabIsASource | scripts/king_rpacct_mailing.py:93-94 | a source of one tab or line break is none to the planner and one to the statement, so that row is never written |
| KingMailing.SelectIff | scripts/king_taxbill_mailing_check.py:112-137 | why each row is looked up: left cut off or an echo by the extract, or a located code violation with neither address nor source |
| KingMailing.BillWritesIff | scripts/king_taxbill_mailing_check.py:73-104 | a statement writes iff the row was selected, a trusted page named an address or said there is none, and the row is still as read and not stamped; and all it then writes |
| KingMailing.WritesAreAnswers | scripts/king_rpacct_mailing.py:137-164 | a written address is the county's own answer, over an address that is an echo, truncated or missing |
| KingMailing.WriteOnce | scripts/king_rpacct_mailing.py:75-104 | any interleaving of both scripts with any old plans: an address changes at most once, a row with a source never changes |
| KingMailing.PreviousKept | scripts/king_taxbill_mailing_check.py:173-190 | a replaced address is always kept in mailing_repair_previous |
| KingMailing.NothingIsLost | scripts/king_rpacct_mailing.py:182-190 | over any interleaving of both scripts a row ends with the address it began with, or its one new address is a county answer and the old one is in mailing_repair_previous |
| KingMailing.PreviousStays | scripts/king_rpacct_mailing.py:182-190 | what was kept stays readable to the end of the run |
| KingMailing.NoLaterPlan | scripts/king_taxbill_mailing_check.py:112-137 | neither script plans a written row again, a stamped row is never selected again, a damaged one is never touched |
| KingMailing.OnlyItsRow | scripts/king_rpacct_mailing.py:87-90 | a statement changes the row it names and no other |
| KingMailing.TableProjects | scripts/king_rpacct_mailing.py:75-104 | every row of a table run lives through a row run, so the row laws hold of tables |
| KingMailing.InPlanAll | scripts/king_rpacct_mailing.py:137-164 | a decision is planned iff it is the decision of some row |
| KingMailing.PlanConcat | scripts/king_rpacct_mailing.py:137-164 | decisions come in the order of their rows |
| KingMailing.Plan | scripts/king_rpacct_mailing.py:137-164 | the planning loop decides each row alone, in order |
| KingMailing.KingTable.Apply | scripts/king_rpacct_mailing.py:167-201 | one guarded statement per decision with an address; written counts the statements that hit, skipped those that missed, left those without an address |
| KingMailing.KingTable.ApplyBills | scripts/king_taxbill_mailing_check.py:173-198 | one guarded statement per verdict worth writing; written counts the hits, skipped the misses |
| KingMailing.ExtractsAreSteps | scripts/king_rpacct_mailing.py:167-201 | that loop is a run of the modelled statements |
| KingMailing.BillsAreSteps | scripts/king_taxbill_mailing_check.py:173-198 | and so is the other |
| ChildNames.PlanIs | scripts/backfill_batch_child_names.py:65-86 | a config is renamed iff its shown name collides within its user, its parent batch has a usable name, and the rebuilt name differs |
| ChildNames.PlannedIff | scripts/backfill_batch_child_names.py:65-93 | in columns: the name collides within the user, the batch has a name that is not blank, and the name built from it is a different one |
| ChildNames.PlanUnique | scripts/backfill_batch_child_names.py:107-108 | the plan never names a config twice |
| ChildNames.MakePlan | scripts/backfill_batch_child_names.py:65-86 | the grouping loops build exactly that plan |
| ChildNames.Validate | scripts/backfill_batch_child_names.py:96-121 | passes iff the state after the renames has no two configs of a user under one name |
| ChildNames.StuckPairBlocksAll | scripts/backfill_batch_child_names.py:116-121 | one colliding pair outside the plan makes it fail for everybody |
| ChildNames.RefusedIff | scripts/backfill_batch_child_names.py:96-121 | read off the rows alone: a plan is refused iff some user has two configs whose names would meet, left alone, rebuilt alike, or one rebuilt onto the other |
| ChildNames.StuckPair | scripts/backfill_batch_child_names.py:116-121 | two users: the second one's plan passes alone and is refused beside the first one's pair |
| ChildNames.Configs.Apply | scripts/backfill_batch_child_names.py:124-166 | commits iff every planned row still has its name and parent; then every rename and one audit row each, else nothing |
| ChildNames.RollsBackIff | scripts/backfill_batch_child_names.py:124-166 | a run that reaches the write rolls back iff a config it renames is gone, renamed or re-parented since it was read; alone it commits |
| ChildNames.RenameSafety | scripts/backfill_batch_child_names.py:96-104 | after a commit, with unplanned rows in place, no user has two configs under one name and the next plan is empty |
| ChildNames.Configs.Run | scripts/backfill_batch_child_names.py:169-188 | the whole program against a table others may edit meanwhile: how it ends, the table and audit rows it leaves, and after a commit unique names and an empty next plan |
| PierceOwner.AgreedNext | scripts/backfill_pierce_code_violation_owner.py:144-152 | comparing with the last feature kept notices every disagreement |
| PierceOwner.AgreedIff | scripts/backfill_pierce_code_violation_owner.py:107-111 | in columns: the features of a case agree iff they have one parcel and one label, the case type and, if there is one, the address |
| PierceOwner.ReadPage | scripts/backfill_pierce_code_violation_owner.py:141-152 | one page updates the map and the ambiguous set, passing over cases not asked for |
| PierceOwner.ReadChunk | scripts/backfill_pierce_code_violation_owner.py:124-159 | reads every feature of the chunk iff the server stops within 50 pages, else hits the page guard |
| PierceOwner.FetchSourceRows | scripts/backfill_pierce_code_violation_owner.py:114-162 | asks for at most 100 cases at a time; given up iff some chunk is not read within 50 pages; else the map holds a case iff it was asked for, exists, and all its features on all pages agree on label and parcel, with its last feature |
| PierceOwner.PartySafe | scripts/backfill_pierce_code_violation_owner.py:184-204 | a name that is neither label nor blank is never touched, a blank is filled only with an accepted owner, a label always goes |
| PierceOwner.OwnerStoredIff | scripts/backfill_pierce_code_violation_owner.py:249-262 | an accepted owner of a waiting row is stored iff the row is unnamed or the owner is not spelled like the label |
| PierceOwner.OwnerLikeLabel | scripts/backfill_pierce_code_violation_owner.py:249-262 | a label row whose accepted owner is cleared |
| PierceOwner.EveryPlanOnce | scripts/backfill_pierce_code_violation_owner.py:209-217 | the chunks together hold every plan exactly once |
| PierceOwner.WriteChunks | scripts/backfill_pierce_code_violation_owner.py:209-232 | every plan is written once, each parcel looked up once, at most 20 at a time, and a plan that waits for an owner is written right after its parcel was fetched |

## Left out

- Network and county lookups, rate limits, leases and pacing: an arbitrary answer function or an abort.
- `compute_owner_flags`, `compute_property_key`, `derive_batch_child_name`, `is_tax_placeholder_party`, `_norm_mailing`, `_street`, address patterns: arbitrary pure functions; their text rules are not modelled.
- Owner-location flags recomputed next to a mailing write (`backfill_assumed_mailing.py`, the two King scripts), `--repair-flags` and `--recompute-suffixless`: a second pure function of the same row.
- Dry-run printing, evidence files, sample listings, run labels, backup files and the archive table's grants.
- The foreign-key catalogue: the model keeps "some other table refers to a doomed row, else abort".
- Isolation inside one transaction: a transaction is one atomic step, so the row locks of the billing read and lock waits and timeouts do not appear.
- Real delivery and finalisation code: a delivery step adds rows and unclaimed claims to a job not yet billed and charges one unit per non-duplicate row it then has, a store step adds them without a charge; which of the two a run takes is arbitrary. Quotas, reservations, and rows that finalisation does not count as actionable are not part of this model.
- SafeCleanup.Run: the process of choosing jobs by row and parcel counts is an arbitrary set of ids; no database error other than a failed check is modelled, short of the death of the process.
- OwnerFlags.Results.Backfill: no other writer inserts or edits rows of the window during the run.
- OwnerNames.OwnerTable.Run: other writers rename rows during the run but do not insert or delete any, or change a scope or parcel. The order of parcels within one lookup is not modelled.
- Membership.Store.Accumulate: first_seen_at and last_seen_at, and the order in which sorted items are sent, are not modelled.
- AssumedMailing.Progress: stated on a quiescent table; a row another writer changes is only left alone by the guard. `looks` is a counter of the model, not a column.
- AssumedMailing.Leads.WritePlans: other keys of enrichment_data, and what the merge does to a value that is not an object, are not modelled.
- KingMailing.WriteOnce: nothing but the two scripts writes the rows; whole-table commits every 500 statements are single statements.
- ChildNames.RenameSafety: the owner of a planned config does not change meanwhile, which the compare-and-swap does not test.
- PierceOwner.FetchSourceRows: the server answers each page from one unchanging layer and flags a short page that is not the last; a server that does not could hide features.
- PierceOwner.WriteChunks: the guarded UPDATE of `_write_plans`, the owner decision and the evidence it writes are not modelled beyond the party name.
- The other `diag_*`, `e2e_*`, `debug_*`, `live_*` and `dump_*` scripts, encryption and role scripts, `main.py`, and other backfills with the same keyset shape: they would add easier members only.
