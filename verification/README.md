# TeleStream pipeline model

A Dafny model of the TeleStream telecom pipeline: the Spark micro-batch processor and its
PostgreSQL sink, the Parquet lake and the dead-letter topic beside them, the dead-letter
query, the at-rest quality suites, the subscriber producer and the dashboard packer. The
claims proved are those the repository makes for itself: replays and restarts neither lose
nor duplicate, rollups equal a recomputation from the facts, what passes in-stream passes
at rest.

`dafny verify dfyconfig.toml` checks everything.

## How it is built

| module | what it models |
|---|---|
| `Base`, `Catalog` | JSON values, timestamps, the library functions as parameters, reference data |
| `Schemas`, `Rules` | the structural check and the business rules, as loops and as what they decide |
| `Events`, `Encoding`, `Records`, `Reasons` | verdict on a raw record, validation loop, de-duplication; what an event says of its record and back; what acceptance means, how it changes with the clock, and which reason a rejection gets |
| `Towers`, `Rollups`, `Warehouse` | the SQL of the sinks on maps and lists of rows; constraint failures are `None` |
| `Batches`, `Replay`, `Granularity` | one transaction, the same transaction again, two batches as one |
| `Outcomes`, `Merging` | exactly which batches, replays and mergers the database accepts; batch boundaries of a whole run |
| `Processor` | the imperative side: database connection, batch processor, dead-letter query, each method tied to its function |
| `Protocol`, `Provenance`, `Guarantees`, `Views`, `Recovery` | the small-step machine with crashes, and what every schedule keeps |
| `Instability` | a run whose verdict changes between fetch and replay |
| `AtRest` | what the rows of every reachable warehouse say of the raw records, column by column |
| `Dlq`, `DeadLetters`, `Concurrency` | the dead-letter query, the identifiers and rows of its rejections, and its interleaving with the events query |
| `Quality` | the suites as predicates, against every reachable warehouse |
| `Dashboard`, `Producer` | shelf packing of panels; registry, generator and run loop |

A state of the machine holds the warehouse, the lake, the dead-letter topic and the number
of checkpointed batches. Its steps are: fetch and validate, append one topic to the lake,
crash in the middle of such an append (any of its events may be in the lake), run one topic's
statement, commit with the rollup refresh, deliver one dead letter (possibly twice, in any
order), checkpoint, crash. A step that is not enabled does nothing, so a theorem over every
list of steps is a theorem over every schedule; `Reachable` says that some schedule leads to
the state. A statement the database refuses ends the attempt like a crash.

Money is in cents and data volume in hundredths of a megabyte once stored; times are
microseconds. Decoding JSON, reading ISO-8601, casting to UUID or jsonb and the UUIDv5
digest (section 5.5 of RFC 9562) are parameters of the model, collected in `Env`; the clock
is an argument of every step that reads it; random draws are arguments of the producer's
methods. The batches of a run are fixed, so that a replay sees the records it saw before.

### Assumptions theorems name

- `StablePlan`: verdicts on a batch do not change after its first fetch. The future-timestamp
  rule reads the clock, so this can fail; `Records.StableIff` says exactly when it holds, and
  `Instability.OneRecordBreaksExactness` shows a run that is not exact without it.
- `EventsUnique`: events of all batches that share topic and identifier, as text or as UUID,
  are the same event, as `docs/event-schemas.md:13` promises. `NamesUnique` asks this of the
  texts within one batch only, `Sound` of one validated batch. `Guarantees.ClashSwallowsRow`
  shows what happens otherwise.
- `WholePlan`, `WholeFeed`, `AllWhole`: the records of the plan, of one validated batch, or of
  the dead-letter topic write their offsets in whole minutes (section 5.6 of RFC 3339). The
  parser itself accepts offsets with seconds. A refresh from `lo` to `hi` succeeds for every
  content of its source exactly when both of these were written so
  (`Rollups.RefreshSurvivesIff`); a batch with another offset can load once and never again
  (`Outcomes.OddOffsetLoadsOnce`).
- `SeedsMatch`: the seeded dimensions hold the catalog.

### Where the code and its documents differ

The model follows the code.

- `docs/architecture.md:186-189` says parse failures become queryable in `dlq_records`. The
  payload column is jsonb, so the record of an unparseable text cannot be stored and its
  batch is rolled back forever (`Dlq.ParseErrorsBlock`). A reason that names a long unexpected
  field does the same (`Dlq.LongNamesBlock`); `Dlq.RejectionStorableIff` is the exact
  condition. Nothing lost is therefore proved of the dead-letter topic, not of the table.
- `docs/event-schemas.md:14` says `event_type` matches the topic. The code never compares
  them, and nothing here claims that they agree.
- `docs/architecture.md:157-158` says the rollup is incremented. The code recomputes a window
  of minutes, and also archives events it later rejects as referring to an unknown subscriber.
- The suites expect positive amounts at rest. The rules accept 0.004, which is stored as 0.00
  (`Quality.TinyRechargeStoredAsZero`); `Quality.AtRestQualityIff` is the exact condition.

## Model

| member | source | states |
|---|---|---|
| Protocol.CrashRefinement | spark/streaming_job.py:163-211 | For every schedule of steps and crashes the warehouse is that of the crash-free run after the checkpointed batches or after one more, and the dead-letter topic holds at least the rejections of the former and at most those of the latter. |
| Protocol.CheckpointIsExact | spark/streaming_job.py:163-211 | A checkpoint leaves dimensions, facts, tower state, rollups and dead-letter identifiers exactly equal to those of the crash-free run. |
| Protocol.StepRefines | spark/streaming_job.py:163-211 | Each single step, enabled or not, keeps the machine in agreement with the crash-free run. |
| Protocol.FailuresAreReachable | spark/streaming_job.py:163-211 | What may go wrong is among the schedules: from every reachable state a crash in any phase, a lake append that leaves any of its events behind, a dead letter that overtakes others, and one that arrives twice. |
| Protocol.TopicOrderIsGood | spark/streaming_job.py:53-54 | The code's topic order visits subscribers first, every topic, and none twice. |
| Instability.OneRecordBreaksExactness | spark/telestream_spark/rules.py:33-40 | A concrete record, dated two hours ahead, fetched at once and replayed two hours later: its batch is checkpointed with the record both loaded and rejected, which no crash-free run leaves. |
| Instability.FlippedVerdictBreaksExactness | spark/telestream_spark/rules.py:33-40 | The same for every subscriber record that is rejected at one time and accepted at a later one, whenever the crash-free run fetches it. |
| Recovery.EveryRunCanFinish | spark/streaming_job.py:163-211 | From every reachable state some continuation checkpoints all batches, if the crash-free run can load them, and then the result is exactly the crash-free one. |
| Recovery.ProcessIsASchedule | spark/streaming_job.py:163-211 | A run of the processor without a crash, and the checkpoint after it, is a schedule of the machine with the effect Processor.BatchProcessor.Process promises: load committed, lake and topic extended in order. |
| Recovery.FailedProcessIsASchedule | spark/streaming_job.py:163-207 | So is a run in which a statement, an append or the refresh fails: without any crash nothing is committed or published, the lake keeps the appends up to the failing topic, and the batch is still to be done. |
| Recovery.AttemptCompletes | spark/streaming_job.py:163-211 | After a crash anywhere, one attempt without a further crash checkpoints the batch under way. |
| Recovery.BatchLoads | spark/streaming_job.py:172-202 | The batch under way can be loaded again from either state a crash may have left. |
| Guarantees.NothingIsLost | spark/streaming_job.py:127-211 | Under every schedule and every nondecreasing clock, each record of a checkpointed batch has its own fact row, its subscriber, or an at least as new tower row in the warehouse, or a dead letter for it is in the topic, provided identifiers name events. |
| AtRest.RecordsReachTheirRows | spark/streaming_job.py:127-211 | The same told of raw records alone: each record of each checkpointed batch is carried by a dead letter of its topic, as it came or, for an unknown subscriber, encoded again; or it is an object whose values stand in the warehouse, a fact in a row of its own that has every column from the record's field of that name. |
| AtRest.FactsSayTheirRecords | spark/telestream_spark/sinks.py:97-214 | Conversely, in every reachable state each fact row has in every column what some delivered and accepted record of its topic says: UUID, subscriber under the name its topic uses, instant in UTC, amounts to the nearest hundredth, the other columns verbatim. |
| AtRest.SubscribersSayTheirRecords | spark/telestream_spark/sinks.py:40-53 | The same of every subscriber row. |
| AtRest.TowersSayTheirRecords | spark/telestream_spark/sinks.py:56-94 | The same of the current state of every tower. |
| AtRest.FactSaysOne | spark/telestream_spark/sinks.py:97-186 | A record determines the row that says it: two such rows of one table are equal. |
| Guarantees.EveryRecordIsAccountedFor | spark/streaming_job.py:127-211 | The same where identifiers may clash between batches: for a fact, the identifier is in its table. |
| Guarantees.ClashSwallowsRow | spark/telestream_spark/sinks.py:107 | An accepted event whose key another row holds is inserted without an error and gets no row of its own. |
| Guarantees.RunsOnlyGrow | spark/telestream_spark/sinks.py:40-186 | Over any run, of any plan, no subscriber or fact row changes or disappears and no tower row moves back in time. |
| Guarantees.NothingIsDuplicated | warehouse/schema.sql:8-105 | Under every schedule and clock, with no assumption on the events, no fact table holds an identifier twice, every fact has its subscriber and date, and no two subscribers share a number. |
| Guarantees.LakeIsWriteAhead | spark/streaming_job.py:147-161 | At every moment each committed fact is the row of an event that is in the lake, whatever the identifiers and seeds. |
| Guarantees.EveryLakeRowIsSettled | docs/adr/0003-dual-storage-postgres-parquet.md:31-32 | Once all batches are checkpointed, every lake row has its own row in the warehouse or is reported with an unknown subscriber, provided identifiers name events. |
| Guarantees.LakeRowsAreResolved | docs/adr/0003-dual-storage-postgres-parquet.md:31-32 | The same where identifiers may clash between batches: for a fact, the identifier is in its table. |
| Guarantees.LakeIsFactsPlusReferential | docs/adr/0003-dual-storage-postgres-parquet.md:31-32 | Once all batches are checkpointed, the fact keys of the lake are those in the warehouse and those rejected for an unknown subscriber, no others. |
| Guarantees.StepKeeps | spark/streaming_job.py:163-211 | Every step keeps the invariant behind these: rows trace to the lake, checkpointed records are covered, lake rows are resolved or still under way. |
| Views.RollupsAreViews | spark/telestream_spark/sinks.py:243-301 | In every reachable state a rollup has a row for a minute and group (province and AIRTIME or BUNDLE; tower; tower and technology) exactly when the facts have one, and the row gives their number, sum and marked number, read off facts and subscribers directly; each table is its full GROUP BY, and the refresh of a batch about to commit cannot collide on a primary key. |
| Views.TotalsAreConserved | spark/telestream_spark/sinks.py:247-277 | Summed over a rollup table, amounts, counts, durations, dropped calls and volumes equal the sums over the facts, in every reachable state. |
| Views.CountsNeverDropInRuns | spark/telestream_spark/sinks.py:247-277 | Over a run no rollup row disappears, no count drops, and dropped calls are at most the calls of the row. |
| Rollups.RefreshMakesExact | spark/telestream_spark/sinks.py:247-286 | Over a window of whole minutes the delete and insert never collide, make the table the full GROUP BY and leave the other tables alone. |
| Rollups.RefreshSurvivesIff | spark/telestream_spark/sinks.py:289-292 | Refreshing an exact rollup succeeds for every content of its source if and only if both ends were written with whole-minute offsets. |
| Rollups.MisalignedRefreshFails | spark/telestream_spark/sinks.py:289-292 | For every misaligned end there is a source row on which the refresh dies on the primary key. |
| Rollups.AlignedWindow | spark/telestream_spark/sinks.py:289-292 | With whole-minute offsets the window is a range of whole minutes that holds both ends. |
| Rollups.TotalsConserved | spark/telestream_spark/sinks.py:247-286 | Any rollup equal to its GROUP BY conserves counts, totals and marked counts. |
| Batches.FinishMakesExact | spark/streaming_job.py:198-202 | If the rollups were exact before the batch, refreshing only from the first to the last timestamp of the batch succeeds and makes them exact again. |
| Batches.FirstOfEquals | spark/streaming_job.py:200-201 | Among equal instants written with different offsets, the first one decides the window of the refresh. |
| Batches.TopicsSettle | spark/streaming_job.py:174-199 | After a load each event of each topic is in place or its subscriber is missing from the finished dimension, because subscribers come first. |
| Batches.LoadEffectTo | spark/streaming_job.py:174-199 | Loading topics in any order only adds subscribers and facts, moves towers forward, keeps references and uniqueness, and leaves rollups and dead letters alone. |
| Replay.LoadIsIdempotent | spark/streaming_job.py:163-211 | Loading a batch onto the state it left cannot fail, changes nothing and republishes the same dead-letter identifiers. |
| Outcomes.ReplayedBatch | spark/telestream_spark/sinks.py:40-214 | Replaying any earlier batch onto any later state commits if and only if every event that has gained a subscriber since is insertable; it then changes no existing row, adds only facts whose subscriber was unknown the first time, and keeps the rollups exact. |
| Outcomes.BatchLoadsIff | spark/streaming_job.py:172-202 | Onto an exact warehouse a batch commits if and only if the lake and the statement of each topic accept its events one by one: numbers free, latest tower rows fitting, known events insertable. |
| Outcomes.InsertSucceedsIff | spark/telestream_spark/sinks.py:97-186 | A fact insert succeeds exactly when each event on its own is dropped by a join, or casts and has its row already or a known date. |
| Outcomes.MergedBatches | spark/streaming_job.py:167-199 | If two adjacent batches load, their merger loads if and only if every event of the first that waits for a subscriber of the second is insertable; it then leaves the same subscribers and tower state and a superset of the facts, and the same facts and rollups if and only if no row is added for a waiting event. |
| Outcomes.PlannedFeedIsSound | spark/streaming_job.py:127-145 | Where events are unique over a plan, every validation of each of its batches meets the assumption of these results. |
| Merging.MergedRun | spark/streaming_job.py:167-199 | For a plan of any length with any two adjacent batches merged and all later ones still to run: the merged run loads all its batches if and only if every waiting event is insertable; it then ends with the same subscribers and tower state and at least the same facts, and without orphaned events with the same facts and rollups. |
| Merging.MergedMachines | spark/streaming_job.py:163-211 | The same for the machine: whatever crashes a run of the plan and a run of the merged plan have seen, their final warehouses compare so. |
| Merging.MergedPlanSettles | spark/streaming_job.py:163-211 | The merged plan meets the same assumptions, so merging may be repeated. |
| Merging.StepAhead | spark/streaming_job.py:172-202 | A batch that loads onto a warehouse loads onto one with the same dimensions and more facts, which keeps what it has more and gains nothing else. |
| Outcomes.RefusedMerger | spark/telestream_spark/sinks.py:102 | Two batches that load apart and whose merger is refused: a message whose identifier is no UUID comes before its subscriber. |
| Outcomes.OddOffsetLoadsOnce | spark/telestream_spark/sinks.py:289-292 | A recharge whose timestamp offset is not in whole minutes loads, and its replay after a crash before the checkpoint dies on the rollup's primary key. |
| Granularity.MergedFacts | spark/telestream_spark/sinks.py:204-214 | A fact is added by merging exactly when it is the row of such a waiting event that the second batch does not deliver again. |
| Granularity.MergedDimensions | spark/telestream_spark/sinks.py:40-94 | Merging adjacent batches changes neither the subscriber dimension nor the tower state. |
| Granularity.MergedBatchMerges | spark/streaming_job.py:127-145 | With stable verdicts, validating the merged batch accepts what validating its parts accepts, in order, whatever the clock readings. |
| Granularity.InsertAbsorbs | spark/streaming_job.py:107-114 | A conflict-ignoring insert of the de-duplicated events equals inserting all of them one at a time. |
| Granularity.UpsertAbsorbs | spark/streaming_job.py:107-114 | The same for the subscriber upsert, including whether it fails. |
| Granularity.WriteAbsorbs | spark/streaming_job.py:107-114 | The same for tower updates. |
| Granularity.FactsOfLoad | spark/telestream_spark/sinks.py:97-214 | After a load a fact is there exactly when it was before or it is the row of a known, joinable event whose key was free. |
| Concurrency.EveryInterleavingIsSerial | spark/streaming_job.py:214-241 | Any interleaving of the two queries' statements, with failures and crashes, ends in the state of both serial orders. |
| Concurrency.InterleavedBatches | spark/telestream_spark/sinks.py:243-307 | One batch of each query, interleaved in any way with deletes and inserts apart, leaves exactly what each leaves alone on its own tables. |
| Concurrency.UnfinishedIsUndone | spark/streaming_job.py:228-240 | A transaction that is killed, or ends with one of its statements failed, leaves the warehouse and the other query as before its first statement. |
| Concurrency.StatementsAreFramed | spark/telestream_spark/sinks.py:243-307 | Every statement reads and writes tables of one query only, so each rollup has one writer. |
| Concurrency.SharedRollupRaces | spark/telestream_spark/sinks.py:243-245 | Two writers of one rollup: if the second DELETE began before the first commit, the second INSERT dies on the primary key if and only if the window has a source row; begun after, it succeeds. |
| Concurrency.RunEventsProgram | spark/streaming_job.py:174-202 | Sending the statements of an events batch one by one is loading the batch. |
| Concurrency.RunDlqProgram | spark/streaming_job.py:230-235 | Sending the statements of a dead-letter batch one by one is storing the batch. |
| Dlq.DlqTableIsFirstWins | spark/telestream_spark/sinks.py:217-240 | Over any run of the dead-letter query, with replays and failed batches and whatever the times, the table holds each delivered identifier once, in a row with identifier, topic, reason, payload and time of the first record that carried it, and rows never change. |
| DeadLetters.EveryRejectionHasItsRow | spark/telestream_spark/sinks.py:217-240 | Over any such run, where digests do not collide, every delivered rejection of the events query has its own row with its topic, reason and payload. |
| DeadLetters.RejectionKeptIff | spark/telestream_spark/sinks.py:217-240 | Over any such run, with no assumption on identifiers, a delivered rejection has its own row if and only if the first one delivered under its UUID was the same rejection. |
| DeadLetters.IdsAgreeIff | spark/streaming_job.py:79-81 | Two dead letters whose topic and reason have no separator share an identifier if and only if topic, reason and payload are the same, unless the digest collides on their two texts. |
| DeadLetters.RejectionIdsIff | spark/streaming_job.py:79-81 | Two rejections by validation share an identifier if and only if topic, text and reason are the same, at whatever times they are made. |
| DeadLetters.ReasonIsPlainIff | spark/streaming_job.py:130-143 | A reason is free of separators if and only if it does not name an unexpected field with one. |
| DeadLetters.RejectionsIff | spark/streaming_job.py:127-145 | The letters of validation are exactly those of the rejected records: digest, topic, reason and text of each, in UTC, its verdict's time cut to milliseconds. |
| DeadLetters.ReportsIff | spark/streaming_job.py:190-197 | The letters for unknown subscribers are exactly those of the events handed back by the insert, each encoded again. |
| DeadLetters.ReportsComeLater | spark/streaming_job.py:181-197 | On a nondecreasing clock no letter for an unknown subscriber is older than one of the validation before it. |
| DeadLetters.TopicNamesDiffer | spark/telestream_spark/schemas.py:101-109 | Topics and event types correspond one to one. |
| Dlq.DlqRollupStaysExact | spark/telestream_spark/sinks.py:279-286 | Over any such run of records with whole-minute offsets every rollup stays an exact view. |
| DeadLetters.DeadRowsAreCounts | spark/telestream_spark/sinks.py:279-286 | Over such a run the rollup has a row for a minute, topic and reason exactly when the table has a dead letter of them, and it gives their number. |
| Dlq.RejectionStorableIff | warehouse/schema.sql:111-118 | A rejection of validation fits the table if and only if its text is JSON to the warehouse and it does not name an unexpected field of more than 100 characters. |
| Dlq.ReferentialStorableIff | warehouse/schema.sql:111-118 | A rejection for an unknown subscriber fits if and only if its re-encoded event is JSON to the warehouse. |
| Dlq.LongNamesBlock | warehouse/schema.sql:115 | A batch that keeps the rejection of an event with such a long name is rolled back in every state. |
| Dlq.DlqReplayIsNoOp | spark/streaming_job.py:63-88 | Rejections published again with the same identifiers and fresh times change neither table nor rollup. |
| Dlq.DlqBatchStoredIff | spark/streaming_job.py:214-241 | A batch of topic texts is stored if and only if every dead-letter record in it has a readable time and every one kept by de-duplication has a UUID, a topic of at most 64 and a reason of at most 128 characters, and a JSON payload. |
| Dlq.RecordCountsAddUp | spark/telestream_spark/sinks.py:279-286 | The record counts of the rollup add up to the number of distinct identifiers. |
| Dlq.PublishedIsRead | spark/streaming_job.py:79-104 | Round trip: a record published by the events query is read back as the same record. |
| Dlq.ParseErrorsBlock | warehouse/schema.sql:116 | A text that parses neither for the decoder nor for the warehouse is rejected as PARSE_ERROR, and a batch that keeps its rejection is rolled back in every state and at every time. |
| Dlq.InsertDlqGrows | spark/telestream_spark/sinks.py:217-240 | The insert succeeds exactly when every record fits; then it only appends rows of those records, once per identifier, and every record's identifier is there. |
| Towers.WriteAllComposes | spark/telestream_spark/sinks.py:56-94 | Two batches in a row mean the same as their concatenation. |
| Towers.CollapsedUpsertIsWriteAll | spark/telestream_spark/sinks.py:59-94 | The collapsed rows never hit a key twice, and upserting them means the same as writing every update in order of arrival. |
| Towers.EarliestOfLatestWins | spark/telestream_spark/sinks.py:59-66 | The row a batch leaves for a tower is its latest update; the earliest arrival wins ties. |
| Towers.OrderIrrelevant | spark/telestream_spark/sinks.py:56-94 | When a tower's updates carry distinct times, the order of arrival does not matter. |
| Towers.WriteAllMovesForward | spark/telestream_spark/sinks.py:91 | No tower moves back in time and every update written is covered. |
| Towers.CoveredIsNoOp | spark/telestream_spark/sinks.py:85-91 | Updates already covered change nothing. |
| Towers.Collapse | spark/telestream_spark/sinks.py:61-66 | The collapse loop returns one row per tower, the row the register would hold. |
| Warehouse.InsertGrows | spark/telestream_spark/sinks.py:97-214 | The fact insert only appends, appends rows of its events only, gives every joinable event its row and never stores a key twice. |
| Warehouse.FactOfIff | spark/telestream_spark/sinks.py:97-186 | An event has a fact row exactly when its identifier is a UUID and a session has less than 2^31 seconds; the row is the one with its identifier, subscriber, instant, and the columns of its table, amounts rounded. |
| Warehouse.RoundedIff | warehouse/schema.sql:54 | The stored amount is the nearest hundredth, of two equally near the one away from zero, and no other; a two-decimal amount is stored exactly. |
| Warehouse.DateKnownIff | warehouse/schema.sql:173-182 | A fact's date is in the dimension exactly when its day is one of 2026 or 2027. |
| Warehouse.LandedInsertIsNoOp | spark/telestream_spark/sinks.py:107 | Events whose rows are there change nothing and cannot fail. |
| Warehouse.UpsertGrows | spark/telestream_spark/sinks.py:40-53 | The subscriber upsert never changes a row and leaves every subscriber of its events present. |
| Warehouse.CoveredUpsertIsNoOp | spark/telestream_spark/sinks.py:50 | Subscribers already present are skipped, even those whose number now differs. |
| Warehouse.KnownOrUnknown | spark/telestream_spark/sinks.py:204-207 | Every event is either insertable or unknown, by its subscriber, and none is both. |
| Warehouse.SinkKeepsWellFormed | warehouse/schema.sql:8-105 | Every statement keeps fact keys unique, references present, dates in the date dimension and numbers unique. |
| Provenance.LoadResolves | spark/streaming_job.py:174-199 | After a load every accepted event of every topic is in place or reported as referring to an unknown subscriber. |
| Provenance.AcceptedJoins | spark/telestream_spark/sinks.py:111-175 | An accepted event finds its tower and bundle in the seeded dimensions. |
| Provenance.TowerRowFitsIff | warehouse/schema.sql:121-128 | The tower table takes an accepted event exactly when its technology has at most eight characters and its number of devices fits 32 bits. |
| Provenance.SinkTraced | spark/streaming_job.py:182-196 | A statement leaves no row that is not the row of an event in the lake. |
| Quality.AtRestQualityIff | quality/suites.py:26-81 | A reachable warehouse passes every suite at any later time if and only if each stored event has an amount or volume of at least half a hundredth and a number of decimal digits. |
| Quality.TidyStreamsKeepQuality | quality/suites.py:26-81 | With two-decimal amounts and ASCII numbers every reachable warehouse passes every suite. |
| Quality.SuiteIsExpected | quality/suites.py:33-76 | With two-decimal amounts the suite of a fact table passes exactly the rows of events that keep the in-stream limits on amounts, durations and volumes, are at most a minute ahead and have their references, whether the events passed the rules or not. |
| Quality.SubscriberSuiteIff | quality/suites.py:43-50 | A subscriber row passes its suite exactly when its event would pass the rules and its number has decimal digits; one with a longer number only for a final newline. |
| Quality.TowerSuiteIff | quality/suites.py:77-80 | A tower row passes its suite exactly when its event would pass the rules on status and signal. |
| Quality.InnerJoinsDropNothing | spark/telestream_spark/sinks.py:97-214 | After the insert an accepted event with a known subscriber has exactly one row in its fact table. |
| Quality.TinyRechargeStoredAsZero | warehouse/schema.sql:54 | A recharge of 0.004 passes the rules, is stored as 0.00 and fails its suite. |
| Quality.SuperscriptNumberFails | quality/suites.py:19 | A number with a digit that is not a decimal digit passes the rule and fails the suite. |
| Quality.RoundingShows | warehouse/schema.sql:54 | A positive amount is stored as its nearest hundredth, as positive exactly from half a hundredth on, and the limits survive rounding. |
| Records.VerdictSettledIff | spark/telestream_spark/rules.py:33-40 | The verdict on a record is the same at all later times if and only if the record can never be accepted or its time is already within the skew allowance. |
| Records.StableIff | spark/telestream_spark/rules.py:33-40 | The same for all records of a batch: exactly when a replay is certain to validate alike. |
| Records.AcceptedStaysAccepted | spark/telestream_spark/rules.py:33-40 | Acceptance is monotone in the clock and gives the same event. |
| Records.RulesMeanClean | spark/telestream_spark/rules.py:52-101 | The rules on the raw fields hold exactly when the decoded event satisfies the typed statement of the rules, for all seven types. |
| Records.AcceptedIsVouched | spark/streaming_job.py:127-145 | An accepted event has its topic's type, satisfies its rules and is at most the skew allowance ahead of the clock. |
| Records.PassingRulesHold | spark/telestream_spark/rules.py:104-118 | No violation is reported exactly when the type's rules hold and the time is not in the future. |
| Reasons.VerdictIsFirstBroken | spark/telestream_spark/rules.py:52-118 | The verdict on a record that conforms to its schema, told of the typed event: rejected for its time when that is unreadable or more than thirty seconds ahead, else for the first rule of its type that it breaks, in reporting order and with the documented limits, else accepted as the event it spells. |
| Reasons.RulesTold | spark/telestream_spark/rules.py:52-118 | The violations of an event begin with the first rule it breaks, for all seven types. |
| Records.StableFeedsAgree | spark/streaming_job.py:127-145 | With stable verdicts any two validations accept the same events in the same order and reject under the same identifiers. |
| Rules.VerdictMonotone | spark/telestream_spark/rules.py:33-40 | As time passes an event can only shed the timestamp violation. |
| Rules.HitsEmptyIffAllPass | spark/telestream_spark/rules.py:104-118 | The list of violations is empty exactly when every rule passes. |
| Rules.ApplyRules | spark/telestream_spark/rules.py:104-118 | The loop reports the violated rules in order; empty exactly when all pass. |
| Schemas.SchemaViolations | spark/telestream_spark/schemas.py:72-98 | The loop reports missing, mistyped and unexpected fields in order; empty exactly when the event conforms. |
| Schemas.ViolationsEmptyIffConforms | spark/telestream_spark/schemas.py:72-98 | No violation is reported exactly when the event has the declared keys with the declared types and no others. |
| Events.AcceptedIsSafeToSink | spark/telestream_spark/sinks.py:188-214 | If both checks are empty, every field the lake and the sinks read exists with its declared type and the timestamp parses, for all seven topics. |
| Events.JudgeRecord | spark/streaming_job.py:130-144 | The body of the validation loop gives the specified verdict; what it accepts has the record's value for every declared field, number for number, the record's subscriber under the name its topic uses, and the instant its timestamp spells. |
| Events.Validate | spark/streaming_job.py:127-145 | The validation loop returns the accepted events and appends the rejections, in order of arrival; each accepted event carries the content of one of the records. |
| Events.AcceptedSays | spark/streaming_job.py:127-145 | Whatever is accepted carries its record's content, field by field, for all seven types. |
| Events.PayloadNames | spark/telestream_spark/schemas.py:16-69 | An event carries exactly the declared fields besides type and time, in declared order, each once. |
| Encoding.RecordConforms | spark/telestream_spark/schemas.py:72-98 | Every record of an event conforms to the schema of its type, whether whole amounts are written as integers or as floats. |
| Encoding.DecodedIsWritten | spark/streaming_job.py:127-145 | Round trip: decoding any record of an event gives back the event. |
| Events.LakeFitsIff | spark/streaming_job.py:147-161 | The lake takes an event exactly when each integer among its fields has 64 bits. |
| Events.ValidationAccountsForAll | spark/streaming_job.py:127-145 | Accepted and rejected records add up to all records, and each result stands right after those of the records before it. |
| Events.GroupByTopic | spark/streaming_job.py:164-167 | Grouping keeps each topic's records in order and invents no topic. |
| Events.DedupeLoop | spark/streaming_job.py:107-114 | The loop with its set of seen identifiers computes the specified list. |
| Events.DedupeKeepsFirsts | spark/streaming_job.py:107-114 | A record is kept, in its place, exactly when its identifier did not come before. |
| Events.DedupeDistinct | spark/streaming_job.py:107-114 | No identifier is kept twice. |
| Events.DedupeIds | spark/streaming_job.py:107-114 | No identifier is lost. |
| Processor.BatchProcessor.Process | spark/streaming_job.py:163-211 | One run without a crash commits and publishes exactly the specified load; on a failed statement warehouse and topic are unchanged, and the lake holds the appends up to and including the topic that failed. |
| Processor.BatchProcessor.RunTransaction | spark/streaming_job.py:172-207 | The loop over topics, refresh and commit or rollback follow the specified load in success and failure, and the lake the specified appends. |
| Processor.BatchProcessor.LoadTopics | spark/streaming_job.py:174-199 | The loop over topics follows the specified load up to the first statement that fails, and the lake the specified appends. |
| Processor.BatchProcessor.ProcessTopic | spark/streaming_job.py:175-199 | One topic: validation, de-duplication, lake append and sink give the specified step. |
| Processor.BatchProcessor.PublishAll | spark/streaming_job.py:101-104 | The records reach the topic in order after those already there. |
| Processor.Connection.UpdateTowerStatus | spark/telestream_spark/sinks.py:56-94 | Collapse and conditional upsert leave the tower state of writing all updates in order, or fail. |
| Processor.Connection.InsertFacts | spark/telestream_spark/sinks.py:197-214 | Known events are inserted and the unknown ones returned, each new row having the columns of one of the events, amounts rounded to the nearest hundredth; or the statement fails and changes nothing. |
| Processor.TopicStep | spark/streaming_job.py:174-199 | One iteration extends load and lake by its topic; a failure is the failure of the whole load and fixes what the lake keeps. |
| Processor.DlqQuery.ProcessDlqBatch | spark/streaming_job.py:214-241 | One batch of the dead-letter query commits exactly the specified state or changes nothing. |
| Processor.CollectDlqRecords | spark/streaming_job.py:216-227 | Texts that do not decode or do not conform are skipped, the rest kept in order. |
| Dashboard.Arrange | dashboards/generate_dashboards.py:63-74 | Every panel object gets, in place, the packed position and the number of its last listing. |
| Dashboard.NoTwoOverlap | dashboards/generate_dashboards.py:63-72 | No two placed panels overlap and all lie within the 24 columns. |
| Dashboard.RowsStackWithoutGaps | dashboards/generate_dashboards.py:63-72 | The first panel is at the origin; each later one continues its row without a gap, or starts a row exactly at the lowest bottom of all panels before it. |
| Dashboard.RowCountIsRows | dashboards/generate_dashboards.py:67-69 | The number of rows is the number of different tops among the placed panels. |
| Dashboard.RowsAreNeeded | dashboards/generate_dashboards.py:67-69 | With R rows, R at least 2, the panels are together wider than half of the rows, rounded down. |
| Producer.SubscriberRegistry.Add | producer/telestream_producer/registry.py:37-41 | Whatever the id, refuses exactly a number that is taken; set and list of numbers stay equal and free of repetition. |
| Producer.SubscriberRegistry.NextSubscriberId | producer/telestream_producer/registry.py:29-32 | Hands out the next id and advances it. |
| Producer.SubscriberCreatedGenerator.NewMsisdn | producer/telestream_producer/subscribers.py:12-16 | The retry loop ends with the first number drawn that is not taken, if the draws reach one. |
| Producer.NumberIsDrawn | producer/telestream_producer/subscribers.py:14 | Read as a decimal, a drawn number is 27, the drawn one of 6, 7 and 8, and the eight drawn digits. |
| Producer.SubscriberCreatedGenerator.Generate | producer/telestream_producer/subscribers.py:18-32 | Registers exactly one new, well-formed subscriber, under the next id and as drawn, and announces it with the drawn identifier and time; adding never fails. |
| Producer.SubscriberCreatedGenerator.Corrupt | producer/telestream_producer/subscribers.py:34-43 | The same with one fault put into the event only. |
| Producer.ProducerRunLoop.SeedSubscribers | producer/telestream_producer/main.py:65-71 | Appends one clean event per draw, the i-th announcing the i-th new subscriber under the i-th next id as drawn; corrupts nothing, changes nothing published before, and keeps the run invariant. |
| Producer.ProducerRunLoop.EmitOne | producer/telestream_producer/main.py:73-87 | For every roll appends the message rolled: its kind and topic, corrupted and counted as such exactly when rolled so, naming the subscriber picked or the stranger; keeps the run invariant; fails, changing nothing, exactly when it samples an empty registry. |
| Producer.AnnouncementsAreDistinct | producer/telestream_producer/registry.py:20-46 | Subscriber events of a run have rising ids, and those that keep their number have distinct numbers. |
| Producer.OneRunNeverClashes | warehouse/schema.sql:10-11 | Any accepted subscriber events of one run, repeated and reordered, load into an empty dimension without violating the unique number. |
| Producer.SubscriberEventAcceptedIff | producer/telestream_producer/subscribers.py:34-43 | A published subscriber event is accepted exactly when its fault is not a lasting one and its time has come: a corrupted number or plan never, a future date later. |

## Left out

- Kafka, Spark and database internals: the model uses only what they supply, the same batch on a replay, all-or-nothing commit, one durable topic.
- A send that never arrives: the flush is taken to return only when the records are in the topic.
- Replays of batches older than the last checkpoint are no steps of the machine; Outcomes.ReplayedBatch covers one such replay.
- JSON beyond its values: repeated keys, NaN and infinities, texts so large or deep that decoding raises something other than a decode error, raw values that are not text.
- Event times outside the range of the datetime type, and NUL characters in texts.
- Surrogate keys: rows are compared by natural keys, since sequence values burn on conflict.
- Columns of catalog data that no rule lets vary, and the is_active flag.
- Width of stored names: a text longer than its column is refused here, while the database would cut trailing blanks.
- Overflow of 64-bit and numeric sums in the rollups.
- The date partition of the lake, and its files: the lake is a list of rows, of which an append cut short may leave any part.
- Collisions of the UUIDv5 digest: theorems that tell rejections apart ask that the digest tell their texts apart.
- DeadLetters.IdsAgreeIff: not claimed of reasons that name an unexpected field with the separator in its name, whose texts could be cut in two ways.
- Latency, batch sizes, logging and metrics.
- The distribution of random draws; the retry loop of the msisdn generator is given draws that reach a free number.
- The generators of the other event types: only which subscriber they name; what they draw for the payload is not modelled (a generated data session may round to 0.00 megabytes and be rejected).
- ProducerConfig, publishers and pacing, dashboard SQL and JSON, Prometheus rules, container files and seed rendering.
- The null and set-membership plumbing of the quality suites: their row predicates only, and the expectation on an empty table counts as passed.
- Producer.AnnouncementsAreDistinct: holds within one run; a restarted producer begins again at the first id.
- Guarantees.LakeIsFactsPlusReferential: speaks of keys; an event without a fact row (identifier no UUID, session of 2^31 seconds or more) has none. Guarantees.EveryLakeRowIsSettled covers it by event.
- Guarantees.LakeRowsAreResolved: for a fact, only that some row carries the identifier; Guarantees.EveryLakeRowIsSettled is the strong form.
- Merging.MergedRun: compares warehouses, not dead letters; merging drops the rejections of the waiting events it loads.
- Guarantees.EveryRecordIsAccountedFor: for a fact, only that some row carries the identifier; Guarantees.NothingIsLost is the strong form.
