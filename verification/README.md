# Verification of the jp-adopt core

Dafny models of the stateful components of the jp-adopt services: the Disciple Tools (DT) import, the forms
import, matching, the drip engine, outbox delivery and magic-link sign-in. Their common theme is a database
invariant, such as a unique index, a claim column or a watermark, that application code keeps while it runs
repeatedly, concurrently, or across crashes.

`dafny verify dfyconfig.toml` checks the whole project. All lemmas carry `{:induction false}`: each proof is
the one written in its body.

## Components

- **DT contacts import** (`ContactTables`, `ContactSafety`, `ContactPass`, `ContactOutcome`,
  `ContactConvergence`, `ContactImporter`): one row, a run and a series of runs of the production import, with
  the in-memory email dictionary, suppression, locally modified rows and claims of rows that are not written. A
  pass has a closed form, from which its fixpoint behaviour follows.
- **Delta runs** (`DeltaSync`, `DeltaOutcome`, `DeltaLimits`, `DeltaRunner`): the activity_log import, its
  MIN-of-MAX watermark, per-table commits and failures.
- **Dry runs** (`DryRun`, `DryRunLaws`, `DryRunSession`): snapshot, rollback and replay of the audit tables.
- **Forms import** (`StreamMerge`, `FormsImport`, `FormsLaws`, `FormsOutcome`, `FormsImporter`): the merge of
  the two submission streams, and the loop with a savepoint per row and batched commits.
- **Matching** (`MatchScoring`, `MatchRanking`, `MatchPlans`, `MatchTables`, `MatchSession`, `MatchLaws`,
  `MatchOutcome`, `MatchMoves`, `MatchHistory`): filter, score and ranking; one session with pending rows,
  flushes and savepoints beside others that may commit any legal table between an insert and the refetch;
  histories of runs.
- **Drip engine** (`DripSteps`, `DripWalk`, `DripEngine`, `DripLifecycle`, `DripOutcome`, `DripOverlap`,
  `DripOverlapLaws`, `DripOverlapExit`, `DripStore`, `TagScanner`, `BodyStyles`): one enrollment walking a step
  list that staff edit; campaigns, contacts and the outbox drain, as one step and as transactions that overlap;
  the inline styles of authored bodies.
- **Outbox delivery** (`OutboxTable`, `OutboxProtocol`): claim, POST and mark by many workers with a clock,
  crashes and stale reclaim.
- **Magic links** (`MagicLinkLimiter`, `MagicLinkClaim`, `MagicLinkMints`): the rolling-hour limit beside the
  purge job, and concurrent claims racing on a unique index.

Protocols are total state machines: a step that is not enabled does nothing, so a run is any sequence of events.
Classes hold the fields the code updates; their methods are proved against the functions about which the lemmas
speak. The modules whose names end in `Outcome` say what an operation leaves in terms of the rows and tables it
started from, without those functions.

## Where the code and its comments differ

- `run_etl` says that the writes of a table that fails are rolled back. The `finally` block releases the
  advisory lock and commits the same session, so after an exception that is not a database error the partial
  writes and the run row with one error are committed. `DeltaSync.Ending` has both cases.
- The comments import says that a re-run picks up a comment whose contact was missing. A delta run does so only
  for a comment above its watermark; see `DeltaLimits.LateContactIff` and `DeltaLimits.LateContactLosesItsRows`.
- The matcher's comments say that a savepoint would take unflushed audit rows with it. The model takes this as
  given and shows that the explicit flush makes it harmless.
- `claim_due_steps` is documented with coalesce(last_step_sent_at, enrolled_at). The query makes a first step
  due at once, whatever its delay, and never claims a contact with a NULL adopter_status.
- The drain of a do_not_engage event is described as exiting all open enrollments of the contact. The rows of
  the outbox are locked but the contact is not, so a second drain that read the contact earlier can commit a
  new enrollment before or after that exit commits; see `DripOverlapExit.ExitHoldsIff`.
- The forms importer inserts conflicts plainly into a table that has a unique index on their natural key since
  migration 0025, so a repeated conflict ends the run; see `FormsLaws.FinishesIffNoConflictRepeats`.

## Model

| member | source | states |
|---|---|---|
| `ContactTables.EmailOwners` | apps/etl/src/jp_adopt_etl/orchestrator.py:363-374 | the dictionary loaded at the start names every stored email, with the key of the row that holds it, and no other |
| `ContactTables.LoadEmailOwners` | apps/etl/src/jp_adopt_etl/orchestrator.py:363-374 | the loop that loads it, row by row in any order, builds exactly that dictionary |
| `ContactSafety.RowKeepsIndex` | apps/etl/src/jp_adopt_etl/orchestrator.py:455-585 | one row never meets the unique email index, and keeps every stored email in the dictionary under the key of its row |
| `ContactSafety.ImportKeepsIndex` | apps/etl/src/jp_adopt_etl/orchestrator.py:403-585 | at every row of every import: no prefix of a run aborts, emails stay unique and agree with the dictionary |
| `ContactSafety.RowEffect` | apps/etl/src/jp_adopt_etl/orchestrator.py:468-585 | what one row changes: only its own contact, and only when it is neither suppressed, unmapped nor locally modified, with the profile columns the post maps merged into the stored ones; the claim in the dictionary happens for frozen rows too |
| `ContactOutcome.RowIsRefreshed` | apps/etl/src/jp_adopt_etl/orchestrator.py:528-584 | one row refreshes its contact exactly when its post can be mapped, no hard delete is on record for it and nobody edited the contact: every mapped column is the post's, a known contact keeps its creation date, a new one takes date and profile from the post; no other contact changes |
| `ContactSafety.PassRespects` | apps/etl/src/jp_adopt_etl/orchestrator.py:377-400 | a pass leaves locally modified contacts with their profiles, suppressed ids and foreign contacts alone, and stores no suppressed email anywhere it was not stored |
| `ContactPass.PassClosedForm` | apps/etl/src/jp_adopt_etl/orchestrator.py:455-585 | a pass in closed form, without running the loop: each email goes to the row that stored it at the start, else to its first claimant, frozen claimants included; rows with their merged profiles, dictionary and conflicts follow from that |
| `ContactOutcome.WrittenRowsAreRefreshed` | apps/etl/src/jp_adopt_etl/orchestrator.py:528-584 | a whole pass refreshes in this way the contact of every post that goes through: one that can be mapped, without a hard delete on record, whose contact nobody edited |
| `ContactOutcome.OtherRowsAreLeft` | apps/etl/src/jp_adopt_etl/orchestrator.py:479-564 | every contact without such a post is as it was, and none appears |
| `ContactOutcome.EmailGoesToTheEntitled` | apps/etl/src/jp_adopt_etl/orchestrator.py:505-523 | a refreshed contact stores the email its post asks for if and only if it stored it when the pass began, or nobody did and no earlier post asked for it; otherwise it stores none, and the refusal is on record |
| `ContactOutcome.NewConflictsTell` | apps/etl/src/jp_adopt_etl/orchestrator.py:479-564 | each conflict that a pass adds names a post, why it was refused (unmapped status, email of another, edited contact) and the value it was refused for |
| `ContactOutcome.EveryReasonIsRecorded` | apps/etl/src/jp_adopt_etl/orchestrator.py:479-564 | and for every such reason there is a conflict |
| `ContactConvergence.OnePassIff` | apps/etl/src/jp_adopt_etl/orchestrator.py:403-585 | a second pass changes nothing if and only if the first one handed out no email late: no written row asked first for an email that another written row gave up in that pass |
| `ContactConvergence.NoNewConflicts` | apps/etl/src/jp_adopt_etl/orchestrator.py:259-296 | a second pass records no conflict the first one did not |
| `ContactConvergence.NothingLeftToRelease` | apps/etl/src/jp_adopt_etl/orchestrator.py:403-585 | after any pass no late handout is possible any more |
| `ContactConvergence.ThirdPassChangesNothing` | apps/etl/src/jp_adopt_etl/orchestrator.py:403-585 | three passes leave contacts, profiles and conflicts exactly as two do, from any starting tables |
| `ContactConvergence.TwoPassesConverge` | apps/etl/src/jp_adopt_etl/orchestrator.py:403-585 | in every series of passes all states from the second on are equal |
| `ContactConvergence.ProfileColumnsAreKept` | apps/etl/src/jp_adopt_etl/orchestrator.py:573-583 | a pass clears no stored profile column: a post that writes the contact and maps the column decides it, and a column no post maps any more keeps its value |
| `ContactOutcome.ProfileColumnsAreTheUnion` | apps/etl/src/jp_adopt_etl/orchestrator.py:573-583 | a refreshed contact has exactly the profile columns it had and the ones its post maps, the latter with the values of the post |
| `ContactConvergence.OnePassIsNotEnough` | apps/etl/src/jp_adopt_etl/orchestrator.py:363-374 | a concrete source and table for which one pass is not a fixpoint |
| `ContactImporter.Importer.ImportPost` | apps/etl/src/jp_adopt_etl/orchestrator.py:468-585 | the branches of one row in the order the code takes them: a post that goes through refreshes every mapped column of its contact, any other leaves the contacts alone; with the counters each branch moves |
| `ContactImporter.Importer.FlushContactBatch` | apps/etl/src/jp_adopt_etl/orchestrator.py:455-585 | one batch of rows, in order |
| `ContactImporter.Importer.ImportBatches` | apps/etl/src/jp_adopt_etl/orchestrator.py:425-452 | cutting the source into batches of any size is the same as importing row by row |
| `ContactImporter.Importer.ImportContacts` | apps/etl/src/jp_adopt_etl/orchestrator.py:403-452 | the whole import: the tables of a pass whatever the batch size, every contact whose post goes through refreshed, and counters that say how many rows were stored, passed over and suppressed, and how many (post, kind) pairs the starting tables flag as conflicts |
| `ContactImporter.TallyIsFlagged` | apps/etl/src/jp_adopt_etl/orchestrator.py:479-556 | the conflict counter that the loop moves row by row is the number of pairs flagged by the closed form of the pass, on record before or not |
| `ContactImporter.EveryRowIsCountedOnce` | apps/etl/src/jp_adopt_etl/orchestrator.py:427-452 | every row read is stored, passed over or suppressed, and only one of these |
| `ContactImporter.FateTells` | apps/etl/src/jp_adopt_etl/orchestrator.py:479-572 | a row is suppressed exactly when a hard delete is on record for its id or email, and stored exactly when it goes through |
| `ContactImporter.CountersTell` | apps/etl/src/jp_adopt_etl/orchestrator.py:479-572 | the counters of a pass are the numbers of such rows |
| `ContactImporter.FateIsStable` | apps/etl/src/jp_adopt_etl/orchestrator.py:479-504 | which of the three it is does not depend on the rows imported before |
| `DeltaSync.Latest` | apps/etl/src/jp_adopt_etl/dt_source.py:253-282 | the newest instant of a stream, None exactly for an empty one |
| `DeltaSync.LatestFor` | apps/etl/src/jp_adopt_etl/orchestrator.py:1136-1146 | the newest mark among error-free production rows of one table |
| `DeltaSync.WatermarkIsLeastOfLatest` | apps/etl/src/jp_adopt_etl/orchestrator.py:1114-1152 | the automatic watermark is at most the newest mark of every table, and is that of some table |
| `DeltaOutcome.WatermarkTells` | apps/etl/src/jp_adopt_etl/orchestrator.py:1114-1152 | with an error-free production row that has a mark there is a watermark: it is the mark of such a row, and every table that has one reaches it |
| `DeltaOutcome.OnlyGoodRowsMoveIt` | apps/etl/src/jp_adopt_etl/orchestrator.py:1136-1146 | a dry run, a run with errors and a run without a mark never move the watermark |
| `DeltaSync.AutoIsSafe` | apps/etl/src/jp_adopt_etl/orchestrator.py:757-779 | in a sound history everything at or below the automatic watermark has been imported |
| `DeltaSync.ReadingCompletes` | apps/etl/src/jp_adopt_etl/dt_source.py:218-237 | reading strictly above a safe watermark, cut down to whole seconds for the history stream, completes the import |
| `DeltaSync.RunProgress` | apps/etl/src/jp_adopt_etl/orchestrator.py:1208-1337 | one run with its per-table commits, ended by a database error, by another exception, or not at all: marks stay honest, nothing is lost, and a run that gets through activity_log has caught up |
| `DeltaOutcome.OneRowPerTable` | apps/etl/src/jp_adopt_etl/orchestrator.py:1208-1301 | the tables of a run that were gone through leave one run row each, in order, the one of contacts with the newest post change as its mark |
| `DeltaOutcome.ActivityRowTells` | apps/etl/src/jp_adopt_etl/orchestrator.py:757-779 | the mark of activity_log is the newest instant of one stream, and reached by each stream that has rows |
| `DeltaOutcome.BrokenRunLeaves` | apps/etl/src/jp_adopt_etl/orchestrator.py:1302-1337 | what a run that breaks off leaves: after a database error the tables before, after another exception also part of what the table had read and a run row with an error |
| `DeltaOutcome.BrokenTableMovesNothing` | apps/etl/src/jp_adopt_etl/orchestrator.py:1302-1337 | the table at which a run breaks off moves no watermark, however it broke off |
| `DeltaSync.DeltaEqualsFull` | apps/etl/src/jp_adopt_etl/orchestrator.py:1114-1152 | from a full run with both streams non-empty on, any history of growth, failures and other importers: a run that gets through activity_log leaves exactly the source ids one full scan leaves |
| `DeltaSync.NothingInventedNothingLost` | apps/etl/src/jp_adopt_etl/orchestrator.py:633-754 | at every point of such a history activity_log holds nothing that is not in the source and has lost nothing |
| `DeltaLimits.DeltaIsExactIff` | apps/etl/src/jp_adopt_etl/orchestrator.py:757-779 | delta runs are exact in every history if and only if both streams had rows at the full run |
| `DeltaLimits.EmptyStreamLosesItsFirstRow` | apps/etl/src/jp_adopt_etl/orchestrator.py:768-774 | the history that goes wrong when one of them was empty |
| `DeltaLimits.LateContactIff` | apps/etl/src/jp_adopt_etl/orchestrator.py:656-662 | a comment read before its contact was imported is picked up by the next delta run, once the contact lands, if and only if it is newer than the watermark, and by a full run always |
| `DeltaLimits.LateContactIffInHistory` | apps/etl/src/jp_adopt_etl/orchestrator.py:725-731 | the same for the field-change history, whose watermark is cut down to whole seconds |
| `DeltaLimits.AfterTheFirstRun` | apps/etl/src/jp_adopt_etl/orchestrator.py:1208-1301 | the first full run imports all that is readable and leaves as watermark the older of the newest contact change and the newest row that both streams have reached |
| `DeltaLimits.LateContactAfterTheFirstRun` | apps/etl/src/jp_adopt_etl/orchestrator.py:656-662 | so after a first full run the comment of a missing contact reaches the next delta run if and only if it is newer than that |
| `DeltaLimits.LateContactLosesItsRows` | apps/etl/src/jp_adopt_etl/orchestrator.py:656-662 | the smallest case: after a first full run with one row in each stream and no contact yet, a delta run misses both rows once the contact lands, and a full run takes them |
| `DeltaRunner.Database.InsertRow` | apps/etl/src/jp_adopt_etl/orchestrator.py:663-688 | insert unless the id is there or its contact is not, with the counters |
| `DeltaRunner.Database.ImportComments` | apps/etl/src/jp_adopt_etl/orchestrator.py:633-690 | the comment loop adds exactly the rows the watermark lets through; rows_in is their number, and the other counters balance and match the growth of the table |
| `DeltaRunner.Database.ImportActivityHistory` | apps/etl/src/jp_adopt_etl/orchestrator.py:711-754 | the same for the field-change history |
| `DeltaRunner.Database.ImportTable` | apps/etl/src/jp_adopt_etl/orchestrator.py:1215-1301 | one table of a run with the run row it commits, and for activity_log the counters of both streams: rows read, rows the table grew by, and the rest skipped |
| `DeltaRunner.Database.RunEtl` | apps/etl/src/jp_adopt_etl/orchestrator.py:1160-1345 | the table loop with its commits, up to where and how it ends |
| `DryRunLaws.RecordedRecords` | apps/etl/src/jp_adopt_etl/orchestrator.py:259-296 | recording conflicts appends exactly those whose natural key was not there, each key once |
| `DryRunLaws.TraceUpTo` | apps/etl/src/jp_adopt_etl/orchestrator.py:1208-1301 | the audit rows in the open transaction after n tables, in terms of what those tables were to record |
| `DryRunLaws.DiffFindsTheAdded` | apps/etl/src/jp_adopt_etl/orchestrator.py:999-1018 | comparing ids with the snapshot finds exactly the rows the run appended |
| `DryRunLaws.OnlyCapturedComeBack` | apps/etl/src/jp_adopt_etl/orchestrator.py:1090-1104 | deleted-in-source rows of completed tables come back under the new id of their run row, those of the table that broke off do not |
| `DryRunLaws.DryRunIsTransparent` | apps/etl/src/jp_adopt_etl/orchestrator.py:1021-1106 | a dry run that finishes or raises changes no business table and adds exactly the audit rows of the run under ids never used before; after a database error or a failed flush it changes no table at all |
| `DryRunLaws.DryRunKeepsWellFormed` | apps/etl/src/jp_adopt_etl/orchestrator.py:1090-1104 | primary, foreign and natural keys hold afterwards: every deleted-in-source row points at a run row that is there |
| `DryRunSession.Session.RecordConflicts` | apps/etl/src/jp_adopt_etl/orchestrator.py:259-296 | the insert that drops known natural keys |
| `DryRunSession.Session.ImportTable` | apps/etl/src/jp_adopt_etl/orchestrator.py:222-256 | one table inside its run row, errors counted |
| `DryRunSession.Session.ReaddRuns` | apps/etl/src/jp_adopt_etl/orchestrator.py:1081-1086 | re-adding run rows yields the map from old to new ids |
| `DryRunSession.Session.ReplayDryRunAudit` | apps/etl/src/jp_adopt_etl/orchestrator.py:1021-1106 | diff, rollback and replay as the code does them |
| `DryRunSession.Session.RunDry` | apps/etl/src/jp_adopt_etl/orchestrator.py:1193-1339 | the whole dry run over a session object |
| `StreamMerge.MergeByCreatedAt` | apps/etl/src/jp_adopt_etl/forms_source.py:111-128 | the merge by index computes the merge, on any two lists |
| `StreamMerge.MergeStreams` | apps/etl/src/jp_adopt_etl/forms_source.py:131-147 | the merge with one row of look-ahead yields the same list and exhausts both streams |
| `StreamMerge.MergeKeepsBothStreams` | apps/etl/src/jp_adopt_etl/forms_source.py:111-147 | taking either form out of the merge gives its stream back in order, sorted or not |
| `StreamMerge.MergeIsAPermutation` | apps/etl/src/jp_adopt_etl/forms_source.py:111-147 | the merge is a permutation of both inputs |
| `StreamMerge.MergeIsOrdered` | apps/etl/src/jp_adopt_etl/forms_source.py:137-147 | of sorted streams: by created_at, adoptions before facilitations at the same instant |
| `StreamMerge.MergeIsTheOrderedInterleaving` | apps/etl/src/jp_adopt_etl/forms_source.py:111-147 | the merge is the only list with these properties |
| `FormsLaws.EveryRowIsAccountedFor` | apps/etl/src/jp_adopt_etl/forms_orchestrator.py:205-277 | rows_in is the sum of the five outcome counters for every row sequence and pattern of failures |
| `FormsLaws.CountersMatchTheTables` | apps/etl/src/jp_adopt_etl/forms_orchestrator.py:218-269 | the counters equal what happened to the tables: contacts imported, conflicts met |
| `FormsOutcome.RowsAddUp` | apps/etl/src/jp_adopt_etl/forms_orchestrator.py:218-269 | what is reached after n rows is what they add up to one by one: writes and source ids of new contacts, writes of blocked rows, one conflict for each bad or failed row (with id "unknown" when it has none), nothing for contacts imported before |
| `FormsOutcome.RunCommitsTheSum` | apps/etl/src/jp_adopt_etl/forms_orchestrator.py:280-396 | a run that gets through commits exactly that, whatever its batches |
| `FormsOutcome.CountersTell` | apps/etl/src/jp_adopt_etl/forms_orchestrator.py:218-269 | each counter is the number of rows of its fate, read off the rows and the contacts imported before them |
| `FormsLaws.MarkIsTheNewestRow` | apps/etl/src/jp_adopt_etl/forms_orchestrator.py:220-224 | the mark of a run is the newest created_at of all rows read, failed and skipped ones included |
| `FormsLaws.CrashLeavesAPrefix` | apps/etl/src/jp_adopt_etl/forms_orchestrator.py:271-273 | after a crash the committed state is that of a prefix with fewer than commit_every finished writes lost, or exactly that many when a refused commit had ended the run |
| `FormsLaws.CommitsAreKept` | apps/etl/src/jp_adopt_etl/forms_orchestrator.py:271-273 | what a commit stored is still there after any later rows, accepted and refused commits included |
| `FormsLaws.NoCommitNoTrace` | apps/etl/src/jp_adopt_etl/forms_orchestrator.py:196-204 | without commits, as in a dry run, nothing is committed |
| `FormsLaws.NothingIsImportedTwice` | apps/etl/src/jp_adopt_etl/forms_orchestrator.py:214-261 | no source id is imported twice, committed or not, and none from before again |
| `FormsLaws.EverythingImportableIsImported` | apps/etl/src/jp_adopt_etl/forms_orchestrator.py:242-261 | every row that can be imported is |
| `FormsLaws.FinishesIffNoConflictRepeats` | apps/etl/src/jp_adopt_etl/forms_orchestrator.py:108-124 | a run gets through, committing all it reached, if and only if no conflict it meets repeats a natural key, its own or a recorded one |
| `FormsLaws.ReadingABadRowAgainAborts` | apps/api/alembic/versions/20260604_0025_migration_conflict_dedup.py:46-53 | so a later run that reads an unmappable row again aborts |
| `FormsImporter.Importer.ImportOne` | apps/etl/src/jp_adopt_etl/forms_orchestrator.py:127-184 | one row in its savepoint: a failure leaves its conflict and nothing else |
| `FormsImporter.Importer.ProcessRow` | apps/etl/src/jp_adopt_etl/forms_orchestrator.py:218-269 | one iteration of the loop |
| `FormsImporter.Importer.Commit` | apps/etl/src/jp_adopt_etl/forms_orchestrator.py:271-273 | accepted if and only if no two conflicts of the open transaction share a natural key; a refusal leaves nothing of the batch and all that earlier commits stored |
| `FormsImporter.Importer.ProcessRows` | apps/etl/src/jp_adopt_etl/forms_orchestrator.py:187-277 | the loop over all rows with its batch commits |
| `FormsImporter.Importer.RunFormsEtl` | apps/etl/src/jp_adopt_etl/forms_orchestrator.py:280-396 | the production run: it commits what its rows add up to, each counter is the number of rows of one fate, and the run row reports them with the mark; or it aborts and reports nothing |
| `MatchScoring.HardFilter` | apps/api/src/jp_adopt_api/domain/matching.py:200-231 | passes exactly the active, not excluded organisations with room and coverage; exclusion is the first reason given |
| `MatchScoring.HeadroomMeaning` | apps/api/src/jp_adopt_api/domain/matching.py:239-247 | the free share of the capacity, zero only without room and one only with nobody assigned |
| `MatchScoring.GeographyMeaning` | apps/api/src/jp_adopt_api/domain/matching.py:250-256 | one exactly when both name a country, it is not blank and the same; zero otherwise |
| `MatchScoring.LanguageMeaning` | apps/api/src/jp_adopt_api/domain/matching.py:259-268 | the overlap of the language sets up to case: zero iff disjoint, one iff equal and not empty |
| `MatchScoring.TotalsInUnitRange` | apps/api/src/jp_adopt_api/domain/matching_config.py:42-61 | every weighted total lies between zero and one minus the theological weight |
| `MatchScoring.RoundingMeaning` | apps/api/src/jp_adopt_api/domain/matching.py:583-588 | rounding to thousandths is monotone, stays within half a thousandth and goes to the even neighbour on a tie |
| `MatchScoring.EachComponentHasItsWeight` | apps/api/src/jp_adopt_api/domain/matching.py:132-139 | changing one component changes the total by that much times its weight |
| `MatchScoring.TotalIsTheWorth` | apps/api/src/jp_adopt_api/domain/matching.py:291-311 | the total of a candidate that passes is the free share of its capacity, the same country, the share of languages in common up to case and the people group, each times its weight |
| `MatchScoring.PassingScoresAtLeastTheAffinity` | apps/api/src/jp_adopt_api/domain/matching.py:271-280 | whoever passes the filter scores more than the weight of the affinity |
| `MatchRanking.Evaluate` | apps/api/src/jp_adopt_api/domain/matching.py:559-588 | a candidate is scored exactly when it passes the filter, by what it is worth: the free share of its capacity, the same country, the shared languages and the people group, each with its weight |
| `MatchRanking.RankedIsSorted` | apps/api/src/jp_adopt_api/domain/matching.py:398-413 | the ranked list is a permutation of the passing candidates in strict order |
| `MatchRanking.SortedIsUnique` | apps/api/src/jp_adopt_api/domain/matching.py:398-413 | there is only one way to sort them |
| `MatchRanking.LoadOrderDoesNotMatter` | apps/api/src/jp_adopt_api/domain/matching.py:314-347 | loading the organisations in another order gives the same ranked list |
| `MatchOutcome.PassingIsRanked` | apps/api/src/jp_adopt_api/domain/matching.py:557-588 | every organisation that passes has a place in the ranked list, with the score it is worth |
| `MatchOutcome.RankedPasses` | apps/api/src/jp_adopt_api/domain/matching.py:557-588 | and nobody else has |
| `MatchOutcome.RankedTellsWhy` | apps/api/src/jp_adopt_api/domain/matching.py:398-413 | whoever is ahead has the higher rounded score, or the same one and was never assigned or longer ago, or the same assignment too and the smaller id |
| `MatchOutcome.SameCountryGoesFirst` | apps/api/src/jp_adopt_api/domain/matching.py:250-256 | of two organisations that differ only in country, the one in the adopter's country scores higher by exactly the weight of the geography and is ranked ahead, unless that weight is at most a thousandth, both round to the same score and the other has the smaller id |
| `MatchRanking.FloorIsNeverFelt` | apps/api/src/jp_adopt_api/domain/matching.py:652-657 | with weights that make a mean the score floor removes nobody, so something is promoted whenever somebody passes |
| `MatchRanking.RanksAreOneToThree` | apps/api/src/jp_adopt_api/domain/matching.py:651-670 | an organisation has rank k exactly when it is the k-th of the list and k is at most three |
| `MatchRanking.RankedInRange` | apps/api/src/jp_adopt_api/domain/matching.py:132-139 | every ranked score lies in the unit interval, before rounding and after |
| `MatchRanking.RankFollowsScoreWithinAThousandth` | apps/api/src/jp_adopt_api/domain/matching.py:583-588 | nobody is ranked behind somebody it beats by more than a thousandth before rounding |
| `MatchRanking.RoundingCanPutTheLowerFirst` | apps/api/src/jp_adopt_api/domain/matching.py:583-588 | two organisations of which rounding ranks the lower-scoring one first |
| `MatchTables.InsertedKeepsOneOpen` | apps/api/src/jp_adopt_api/domain/matching.py:453-502 | what the unique index means for an insert with its conflict guard, the tables others commit being held to the index too |
| `MatchOutcome.InsertTells` | apps/api/src/jp_adopt_api/domain/matching.py:453-502 | a guarded insert goes in exactly when its id is new and it is not a second open match of the interest, and then stores everything pending; else it loses what was pending and names the open match there is |
| `MatchLaws.RunKeepsOneOpen` | apps/api/src/jp_adopt_api/models.py:744-751 | and for every point of a run: no interest ever has two open matches |
| `MatchOutcome.NeverTwoOpen` | apps/api/src/jp_adopt_api/domain/matching.py:453-502 | at no point of a run do two matches of one interest have a status of recommended, accepted, active or triage |
| `MatchLaws.AuditSurvives` | apps/api/src/jp_adopt_api/domain/matching.py:618-709 | on every branch, conflicts included, every audit row of the run is stored: the flush before the savepoint leaves it nothing to take back |
| `MatchLaws.EachPairIsAuditedOnce` | apps/api/src/jp_adopt_api/domain/matching.py:563-616 | exactly one audit row per interest with a people group and loaded organisation |
| `MatchOutcome.AuditRowTells` | apps/api/src/jp_adopt_api/domain/matching.py:557-616 | an audit row names its interest, run and organisation, the first condition the organisation failed or that it passed, and then the rounded score it is worth, and its rank if it is among the first three |
| `MatchLaws.OutcomeNamesAnOpenMatch` | apps/api/src/jp_adopt_api/domain/matching.py:478-502 | an outcome names an open match of its interest, its own or the winner's |
| `MatchLaws.ReasonTellsWhy` | apps/api/src/jp_adopt_api/domain/matching.py:520-709 | the reason reported says why an interest went where it went; it is given up only when it has no open match |
| `MatchLaws.EveryInterestIsRouted` | apps/api/src/jp_adopt_api/domain/matching.py:505-709 | after an undisturbed run every interest of the contact has exactly one open match |
| `MatchLaws.RerunOnlyAudits` | apps/api/src/jp_adopt_api/domain/matching.py:717-767 | running again, with any organisations and weights, changes no match row and only adds audit rows |
| `MatchPlans.RecommendedPassesTheFilter` | apps/api/src/jp_adopt_api/domain/matching.py:672-689 | only a loaded organisation that passes the filter is recommended |
| `MatchPlans.TriageIffNobodyPasses` | apps/api/src/jp_adopt_api/domain/matching.py:520-649 | an interest goes to triage exactly when it names no people group or nobody passes |
| `MatchPlans.RankOneIsPutForward` | apps/api/src/jp_adopt_api/domain/matching.py:662-685 | the organisation put forward is the one whose audit row has rank one |
| `MatchMoves.RepeatsIffReopened` | apps/api/src/jp_adopt_api/domain/matching.py:618-649 | in a default run during which others move matches, an interest is put forward to an organisation again if and only if its match that was open at the start is with the organisation the plan wants and none of its matches is open at the insert |
| `MatchHistory.DisturbedRunIff` | apps/api/src/jp_adopt_api/domain/matching.py:749-765 | so such a run recommends nothing twice if and only if it reopens no interest in this way |
| `MatchHistory.QuietIsAllowed` | apps/api/src/jp_adopt_api/domain/matching.py:749-765 | a run that nobody disturbs never does |
| `MatchHistory.NeverRecommendedTwice` | apps/api/src/jp_adopt_api/domain/matching.py:365-390 | over every history of default runs, with other sessions moving matches between and during runs that reopen no interest, no interest is recommended to an organisation twice |
| `MatchHistory.RecommendationsAreBounded` | apps/api/src/jp_adopt_api/domain/matching.py:749-752 | so an interest gets at most as many recommendations as organisations were ever loaded |
| `MatchHistory.ThenTriage` | apps/api/src/jp_adopt_api/domain/matching.py:618-649 | once all on offer were recommended and none is open, the next undisturbed run sends the interest to triage |
| `MatchHistory.ReturnsWhenAlone` | apps/api/src/jp_adopt_api/domain/matching.py:221-222 | an organisation whose match closed without putting it on the list, as withdrawn or completed, is recommended again when it alone is on offer |
| `MatchHistory.ReturnsOnlyIfItCan` | apps/api/src/jp_adopt_api/domain/matching.py:365-390 | and an undisturbed run brings an organisation back only in that case |
| `MatchHistory.SentBackMidRunReturns` | apps/api/src/jp_adopt_api/domain/matching.py:749-765 | an example: a match sent back while a run is under way is recommended again by that run |
| `MatchSession.Session.InsertMatchWithConflictGuard` | apps/api/src/jp_adopt_api/domain/matching.py:453-502 | savepoint, insert, rollback and refetch over the session, in every case |
| `MatchSession.Session.ScoreCandidates` | apps/api/src/jp_adopt_api/domain/matching.py:557-616 | the candidate loop: one audit row each, and the passing ones |
| `MatchSession.Session.BackfillRanks` | apps/api/src/jp_adopt_api/domain/matching.py:658-670 | the ranks written back onto the rows just added, and onto no other |
| `MatchSession.Session.ProcessInterest` | apps/api/src/jp_adopt_api/domain/matching.py:505-709 | all branches for one interest |
| `MatchSession.Session.DeriveExclusionList` | apps/api/src/jp_adopt_api/domain/matching.py:365-390 | the scan lists an organisation if and only if it sent back or declined a match of one of these interests |
| `MatchSession.Session.MatchOrRoute` | apps/api/src/jp_adopt_api/domain/matching.py:717-767 | the whole run, with the error for a missing triage organisation and nothing done for a contact without interests |
| `DripSteps.NextFrom` | apps/api/src/jp_adopt_api/domain/drips.py:388-398 | the lowest step at or above a position, None exactly when there is none |
| `DripSteps.DueIff` | apps/api/src/jp_adopt_api/domain/drips.py:388-425 | a step is due if and only if the enrollment is active, the step is the lowest at or above its position, and nothing was sent yet or the last send is at least its delay in days ago |
| `DripSteps.ExitIsIdempotent` | apps/api/src/jp_adopt_api/domain/drips.py:299-321 | exiting twice is exiting once, whatever the second reason |
| `DripSteps.EnrollmentRow.ExitEnrollment` | apps/api/src/jp_adopt_api/domain/drips.py:299-321 | an open row ends exited with this reason and time and one more log entry, its other fields kept; a closed one is left as it is |
| `DripSteps.EnrollmentRow.AdvanceEnrollment` | apps/api/src/jp_adopt_api/domain/drips.py:439-474 | moves on to the lowest step above the stored position, or completes with that reason when there is none; either way the send is stamped and nothing else changes |
| `DripWalk.SendsAreOrdered` | apps/api/src/jp_adopt_api/domain/drips.py:388-474 | under any edits between ticks positions never decrease, and one repeats only right after a claim that jumped over a deleted position |
| `DripWalk.NoThirdSend` | apps/api/src/jp_adopt_api/domain/drips.py:388-474 | no position is sent three times |
| `DripWalk.SendsAreSpaced` | apps/api/src/jp_adopt_api/domain/drips.py:415-425 | consecutive sends are at least the later step's delay apart |
| `DripWalk.SendsFollowThePlan` | apps/api/src/jp_adopt_api/domain/drips.py:456-474 | without edits or exits the sends so far and the plan that is left make up the plan of the start |
| `DripWalk.CompletesAfterEachStepOnce` | apps/api/src/jp_adopt_api/domain/drips.py:456-474 | then an enrollment that starts on a step is completed exactly when each step at or above its start was sent once, ascending |
| `DripWalk.PlanIsEachStepOnceIff` | apps/api/src/jp_adopt_api/domain/drips.py:456-474 | the plan is each step once if and only if the enrollment stands on a step or has none left: after its step was deleted the next one comes twice |
| `DripWalk.CompletesAfterAsManyDeliveries` | apps/api/src/jp_adopt_api/domain/drips.py:401-474 | progress: an open enrollment with a step left is completed exactly when as many ticks have delivered as its plan is long, and no run has more of them |
| `DripWalk.SpacedTicksComplete` | apps/api/src/jp_adopt_api/domain/drips.py:401-474 | claimable ticks with successful sends, spaced by the longest delay, complete an active enrollment after as many of them as its plan is long and not before |
| `DripWalk.WithoutStepsItStaysOpen` | apps/api/src/jp_adopt_api/domain/drips.py:388-425 | an enrollment with no step at or above its position is never claimed and never completes |
| `DripLifecycle.OneOpenEnrollmentAndNoReopening` | apps/api/src/jp_adopt_api/domain/drips.py:204-271 | over every run at most one open enrollment per campaign and contact, and closed enrollments never change |
| `DripLifecycle.NewEnrollmentPlansEveryStep` | apps/api/src/jp_adopt_api/domain/drips.py:225-248 | a new enrollment starts at the first step, due at once whatever its delay, and has every step before it once |
| `DripOutcome.EventBeginsExactly` | apps/api/src/jp_adopt_api/domain/drips.py:274-296 | an event begins one enrollment in exactly the active campaigns it triggers in which none is running, unless the contact is gone, not to be engaged or suppressed; each starts fresh at the first step, and no other enrollment changes |
| `DripOutcome.ExitTells` | apps/api/src/jp_adopt_api/domain/drips.py:299-342 | exiting a contact ends exactly its open enrollments, with this reason and time and one log entry, and touches nothing else |
| `DripOutcome.DrainTells` | apps/worker/src/jp_adopt_worker/worker_settings.py:70-134 | a drain of at most fifty rows begins an enrollment only for an event of its batch that triggers an active campaign, for a contact that is not left out, and ends one only for a do_not_engage event of the batch; every other enrollment is as it was |
| `DripOutcome.TickTells` | apps/api/src/jp_adopt_api/domain/drips.py:388-474 | a tick touches an enrollment only when its campaign is active, its contact has a status other than do_not_engage and a step is due; a send stamps it and a drop ends it |
| `DripLifecycle.BatchTakesTheOldest` | apps/worker/src/jp_adopt_worker/worker_settings.py:90-98 | a drain leaves a waiting row behind only when its batch is full of older ones |
| `DripLifecycle.RowsKeepTheirEvent` | apps/worker/src/jp_adopt_worker/worker_settings.py:99-134 | a drain marks exactly its batch and changes nothing else about an outbox row |
| `DripLifecycle.DrainedDoNotEngageIsFinal` | apps/worker/src/jp_adopt_worker/worker_settings.py:114-133 | for drains that do not overlap: once the do_not_engage event of such a contact is drained, the contact has no open enrollment, and while the status holds none is created, claimed or changed |
| `DripLifecycle.NothingIsSentUnclaimed` | apps/api/src/jp_adopt_api/domain/drips.py:408-415 | nothing is sent to a contact whose status stays NULL or do_not_engage |
| `DripLifecycle.NullStatusIsEnrolledButNeverClaimed` | apps/api/src/jp_adopt_api/domain/drips.py:219-271 | a contact with a NULL status is enrolled all the same and never claimed |
| `DripOverlap.DrainAloneIsOneStep` | apps/worker/src/jp_adopt_worker/worker_settings.py:70-134 | a drain that begins, works row by row and commits with no other one under way comes to the one-step drain of the lifecycle |
| `DripOverlapLaws.OneOpenWhateverOverlaps` | apps/worker/src/jp_adopt_worker/worker_settings.py:83-86 | however drains overlap, at most one enrollment per campaign and contact is open, in what is committed and in what any drain sees, and closed ones never change |
| `DripOverlapLaws.LeftAloneIff` | apps/worker/src/jp_adopt_worker/worker_settings.py:88-134 | a do_not_engage contact has no open enrollment, now and under every overlap while the status holds, if and only if it has none now and no drain under way holds one that none of its remaining rows takes back |
| `DripOverlapExit.WorkingTheExitClears` | apps/worker/src/jp_adopt_worker/worker_settings.py:114-119 | a drain that has just worked a do_not_engage event sees no open enrollment of the contact |
| `DripOverlapExit.ExitHoldsFromItsCommit` | apps/worker/src/jp_adopt_worker/worker_settings.py:88-134 | the law of the event under overlap: when no other drain is then to bring an open enrollment, the contact has none from the commit of the exit on, whatever overlaps before and after it, while the status holds |
| `DripOverlapExit.ExitHoldsIff` | apps/worker/src/jp_adopt_worker/worker_settings.py:88-134 | and exactly then, once the batch of the exiting drain is worked off |
| `DripOverlapLaws.OverlapEnrollsAfterTheEvent` | apps/worker/src/jp_adopt_worker/worker_settings.py:88-134 | such an overlap: a drain that read the contact before the status changed commits after the event was drained, and leaves an open enrollment |
| `DripOverlapExit.OverlapEnrollsBeforeTheCommit` | apps/worker/src/jp_adopt_worker/worker_settings.py:88-134 | another one: the first drain commits between the work and the commit of the second, and both events are drained with an enrollment open |
| `DripStore.Store.EnrollContactInCampaign` | apps/api/src/jp_adopt_api/domain/drips.py:204-271 | the checks in order, the insert the unique index may refuse, and the outcome, each with its exact condition: do_not_engage, suppressed, already enrolled (naming the open enrollment), created (naming the new one) |
| `DripStore.Store.EnrollOnEvent` | apps/api/src/jp_adopt_api/domain/drips.py:274-296 | the loop over the campaigns the event concerns, with one explained outcome for each in order, or the single outcome for no contact or no campaign; every enrollment that is new is named by an outcome, there are as many as outcomes that name one, and those there were are as before |
| `DripStore.Store.ExitEnrollmentsForContact` | apps/api/src/jp_adopt_api/domain/drips.py:324-342 | exits every open enrollment of the contact and counts them |
| `DripStore.Store.SelectBatch` | apps/worker/src/jp_adopt_worker/worker_settings.py:90-98 | the oldest unmarked rows nobody has locked |
| `DripStore.Store.DrainDripEnrollments` | apps/worker/src/jp_adopt_worker/worker_settings.py:70-134 | one drain transaction: it begins an enrollment only for an event of its batch that triggers an active campaign, ends one only for a do_not_engage event of it, and counts as processed all rows of the batch but those with a malformed contact_id |
| `BodyStyles.StylingIsConservative` | apps/api/src/jp_adopt_api/domain/drips.py:627-638 | the output splits into the same tokens as the input, and each is unchanged or only gained the brand style: deleting the insertions gives the input back |
| `BodyStyles.StylingIsIdempotent` | apps/api/src/jp_adopt_api/domain/drips.py:627-638 | styling twice is styling once |
| `BodyStyles.RaisesIffOddListItem` | apps/api/src/jp_adopt_api/domain/drips.py:621-638 | it raises exactly on texts with an unstyled list item spelt with U+0130 or U+0131 |
| `BodyStyles.OddListItemExample` | apps/api/src/jp_adopt_api/domain/drips.py:633-637 | the shortest such text |
| `TagScanner.MatchAtIsTheMatch` | apps/api/src/jp_adopt_api/domain/drips.py:621-624 | at every place the scan finds the one match of the pattern there is |
| `TagScanner.RestyledTextScans` | apps/api/src/jp_adopt_api/domain/drips.py:638-638 | changing attributes of matched tags moves no token boundary |
| `OutboxProtocol.ReachableIsSound` | apps/worker/src/jp_adopt_worker/outbox_delivery.py:51-112 | in every reachable state a processed row was posted successfully and is unclaimed |
| `OutboxProtocol.ProcessedStays` | apps/worker/src/jp_adopt_worker/outbox_delivery.py:57-76 | a processed row is never claimed again and no step clears its mark |
| `OutboxProtocol.ProcessedForever` | apps/worker/src/jp_adopt_worker/outbox_delivery.py:57-112 | over any continuation |
| `OutboxProtocol.OnlyDeleteRemoves` | apps/worker/src/jp_adopt_worker/outbox_delivery.py:51-112 | over every run, whatever fails or crashes, a row stays in the table with its creation time until it is deleted |
| `OutboxProtocol.ProcessedWasMarked` | apps/worker/src/jp_adopt_worker/outbox_delivery.py:83-112 | a row that became processed was marked, at a step of the run, by a worker that had posted it |
| `OutboxProtocol.ReleaseGivesBack` | apps/worker/src/jp_adopt_worker/outbox_delivery.py:97-104 | after a failed post the worker is free, and its row, if it is there and nobody finished it, is unclaimed, keeps its creation time and can be claimed at once; no other row changes |
| `OutboxProtocol.CrashLosesOnlyTheMark` | apps/worker/src/jp_adopt_worker/outbox_delivery.py:83-112 | a crash can hit any worker at any point, touches no row and loses at most the mark of one successful post |
| `OutboxProtocol.TimelyRunsAreExclusive` | apps/worker/src/jp_adopt_worker/outbox_delivery.py:21-112 | while deliveries last at most the stale window of five minutes, at most one live worker handles a row, and its successful posts are its mark plus the crashes that lost one plus the one in flight |
| `OutboxProtocol.OutlastingTheWindow` | apps/worker/src/jp_adopt_worker/outbox_delivery.py:21-76 | the window is tight: beyond it two workers post the same row in two steps |
| `OutboxProtocol.StrandedRowsComeBack` | apps/worker/src/jp_adopt_worker/outbox_delivery.py:57-76 | no crash strands a row: a stale window later, whatever rows are locked, a worker finds a row at least as old, and finds this one exactly when no older unprocessed row is unlocked |
| `OutboxTable.Outbox.Claim` | apps/worker/src/jp_adopt_worker/outbox_delivery.py:62-81 | the scan finds the oldest unlocked claimable row and stamps it, or there is none; no other row changes |
| `OutboxTable.Outbox.Release` | apps/worker/src/jp_adopt_worker/outbox_delivery.py:97-104 | touches no other row and no row that is finished; the row given back can be claimed at once |
| `OutboxTable.Outbox.Mark` | apps/worker/src/jp_adopt_worker/outbox_delivery.py:106-112 | touches no other row; the marked row is never claimable again, and a deleted one does not come back |
| `OutboxTable.Outbox.ProcessBatch` | apps/worker/src/jp_adopt_worker/outbox_delivery.py:51-112 | one delivery with nobody else at the table: no row leaves it and no other row changes; the claimed row is unclaimed again and keeps its creation time, and is marked exactly when the POST succeeded |
| `OutboxTable.Outbox.Drain` | apps/worker/src/jp_adopt_worker/worker_settings.py:43-62 | rows leave oldest first, each once; and why the drain stops: with a failed POST the row is there, unclaimed and unprocessed |
| `MagicLinkLimiter.AtMostSixPerHour` | apps/api/src/jp_adopt_api/auth_magic.py:115-188 | however many links an email was issued within a closed hour, they are at most six, over any trace of requests and purges; requests of different emails may overlap and no clock is shared |
| `MagicLinkLimiter.RefusedIff` | apps/api/src/jp_adopt_api/auth_magic.py:115-188 | a request is refused if and only if at least six links were issued to that very email at or after one hour before its count, whatever was purged meanwhile |
| `MagicLinkLimiter.OthersDoNotCount` | apps/api/src/jp_adopt_api/auth_magic.py:115-188 | over every well-timed trace each request of an email is answered as in the trace without the requests of all other emails |
| `MagicLinkLimiter.PurgeIsInvisible` | apps/worker/src/jp_adopt_worker/worker_settings.py:142-173 | while the database clock is at most an hour ahead of any later count, purging at any points changes no decision and nothing issued |
| `MagicLinkLimiter.PurgeInvisibleIff` | apps/worker/src/jp_adopt_worker/worker_settings.py:142-173 | and exactly then: a clock further ahead lets a seventh link through |
| `MagicLinkLimiter.RateLimitTable.CountRecentRequests` | apps/api/src/jp_adopt_api/auth_magic.py:115-125 | the scan counts as many rows as there are of this very email in the hour up to now |
| `MagicLinkLimiter.RateLimitTable.RequestMagicLink` | apps/api/src/jp_adopt_api/auth_magic.py:128-188 | admits and inserts unless six rows of this email lie in the hour before the count, and else leaves the table as it was |
| `MagicLinkLimiter.RateLimitTable.PurgeRateLimits` | apps/worker/src/jp_adopt_worker/worker_settings.py:142-180 | batched deletion removes exactly the rows older than two hours and stops on a short batch |
| `MagicLinkClaim.SingleMint` | apps/api/src/jp_adopt_api/auth_magic.py:226-262 | over every interleaving of concurrent claims, and of hard deletes, each token yields at most one JWT |
| `MagicLinkMints.EveryJwtWasEarned` | apps/api/src/jp_adopt_api/auth_magic.py:207-309 | over every interleaving each JWT is for the email its token was issued to, the token was taken while it was unclaimed and not expired, and the subject was an unbound link of that very email |
| `MagicLinkMints.WaitsOnlyForItsOwn` | apps/api/src/jp_adopt_api/auth_magic.py:226-262 | a claim waits only for another one on its own token, and an insert only for another one for its own email |
| `MagicLinkClaim.StableSubject` | apps/api/src/jp_adopt_api/auth_magic.py:263-309 | all JWTs of an email carry one subject when it does not start with two equally old unbound links, over every run that takes no link of the email away |
| `MagicLinkClaim.StableSubjectIff` | apps/api/src/jp_adopt_api/auth_magic.py:263-309 | and only then |
| `MagicLinkClaim.HardDeleteChangesSubjectIff` | apps/api/src/jp_adopt_api/routers/contacts.py:1097-1118 | after a contact is deleted for good, whatever else happens, every later sign-in of the email gets the subject it had before if and only if that was not a magic link |
| `MagicLinkMints.HardDeleteTakes` | apps/api/src/jp_adopt_api/routers/contacts.py:1097-1118 | a hard delete takes the magic link of the email and the bound link of the contact, and no other |
| `MagicLinkClaim.AuthTables.OldestLink` | apps/api/src/jp_adopt_api/auth_magic.py:263-275 | the oldest identity link of an email, or none |
| `MagicLinkClaim.AuthTables.ClaimMagicLink` | apps/api/src/jp_adopt_api/auth_magic.py:207-309 | every outcome of one claim with its exact condition; whatever does not mint leaves all tables as they were |
| `MagicLinkMints.ClaimAloneMintsIff` | apps/api/src/jp_adopt_api/auth_magic.py:207-309 | the steps of the concurrent model, taken by one claim alone, come to the same: it mints exactly when the token is known, unclaimed and not expired and the oldest link of the email, if any, is not bound to another identity; otherwise no table changes |

## Left out

- The mappers (`map_contact`, `pivot_postmeta`, `map_contact_profile`, `map_comment`, `map_submission_row`) are uninterpreted: a post or a row carries its mapped result, and mapped fields are taken to satisfy the CHECK constraints of the tables.
- Other writers during a DT import or a dry run: both are modelled alone, as the advisory lock and the single operator intend. A conflict that another session commits during a dry run would be replayed as if it were new.
- Contact and enrollment uuids: DT contacts are keyed by their source id and foreign contacts matter through their emails only. Fresh ids are numbers above all earlier ones where a component draws them.
- The other tables of a run (staff links, interests, assignments) appear only as run rows without a mark; `import_users`, `import_interests`, `import_assignment` and the threading of comments are not modelled.
- DeltaSync: instants of source rows are positive whole seconds; source rows are appended and never change. The exact condition in DeltaLimits takes no other importer to have left a mark within the first second of the epoch.
- DeltaLimits.DeltaIsExactIff: states the condition for tables that hold neither stream's first row yet and have at least one imported contact.
- DeltaRunner.Database.ImportTable: states the counters of activity_log only; those of the other tables belong to importers that are not modelled here, and the log keeps of a run row only what the watermark reads.
- DryRun: what a table writes to business tables is arbitrary and opaque; counters of a run row are one number.
- FormsImport: a failing flush of a repeated conflict is noticed at the next commit. The code may fail at an earlier row of the same batch and then count the remaining rows of that batch as conflicts before it aborts; what is committed is the same.
- MatchScoring: scores are exact rationals instead of floats, and language codes are lower-cased as ASCII. `theological_tags` are never read by the code either.
- MatchSession: ids of audit rows, the JSON kept beside a score, and log output. Contact transitions, capacity counters on accept and staff overrides are moves of the environment.
- MatchHistory: the contact's interests and the triage organisation stay the same. Matches move and close between and during runs, and appear for other contacts between runs; staff assignments by hand for the same contact are not among the events.
- DripWalk: the send-hour gate, rendering and the mail service are the outcome of a tick (kept, sent or dropped). Claim, send and advance of one enrollment are one step, as the row lock makes them.
- DripEngine: one tick concerns one enrollment; the order and the limit of a claim over many enrollments are not modelled.
- DripLifecycle.DrainedDoNotEngageIsFinal: takes a drain as one step, so it does not cover drains that overlap; DripOverlapExit.ExitHoldsFromItsCommit and DripOverlapLaws.LeftAloneIff do.
- DripOverlap: statements read what is committed (READ COMMITTED), and each row's work, from reading the contact to its inserts, is one step. Staff actions and worker ticks stay one step each.
- BodyStyles: the pattern is the one compiled from the tag names, on texts of Unicode scalar values. Jinja rendering, sanitising and the plain-text version are foreign libraries.
- OutboxProtocol: one clock for all workers. Signing and HTTP are the outcome of a POST.
- Hard deletes of contacts: modelled only in what they take from the identity links.
- MagicLinkLimiter and MagicLinkClaim: a token hash is an injective id; JWT encoding and the mail are left out. A request is one event, placed where it counts: the advisory lock keeps other requests of the email out until it commits, and a purge in between cannot take a row that was not there.
- `digest.py`, `sweep_deleted_contacts` on its own, `purge_idempotency_keys`, `_resolve_tables` and `sanitize_body_html` would add only easy members.
- Everything under `apps/web`, and the migrations and models apart from the indexes and CHECKs they declare.
