# Verified model of the PostgreSQL to DuckDB change pipeline

A Dafny model of the state machines that keep this pipeline correct across
arbitrary change streams, catalog polls and crashes, with proofs about whole
runs. `dafny verify dfyconfig.toml` checks everything.

| files | subject |
|---|---|
| `Options`, `Sequences`, `Records` | shared value types, decoded change records |
| `AssemblerSpec`, `AssemblerProofs`, `AssemblerStreams`, `AssemblerAcceptance`, `SnapshotClaims`, `EndMarker` | what a stream of BEGIN, data, messages, snapshot rows and END means, and theorems over every run |
| `Assembler` | the assembler as it runs, with counters, spilling and record retention, proved to refine that meaning |
| `DeletePolicy` | delete-policy reloads interleaved with the stream, and the commit groups they close |
| `RuntimeRoot` | the disposable runtime directory and its crash recovery |
| `CursorOrder`, `CursorMeaning`, `CursorStore` | the type-aware key order, what it is by the values, its JSON codec, and the durable backfill cursor |
| `BackfillModel`, `Backfill` | backfill runs, shadow claims, the signal outbox and the successor queue |
| `PartitionTopology`, `PartitionWatcher` | partition topology as an event log: what a run of polls means, and the watcher that computes it |
| `CatalogTracks`, `CatalogWatcher` | what each poll makes of one relation: confirmation, supersession and reports; and the watcher that does it for all |
| `CatalogPlan` | the WAL fence, the due-change planner and its circuit breaker |
| `CatalogBaseline` | the multi-run claim that the destination can be related to the source |

The shape is the same throughout. A component that updates fields is a class;
its methods state the new state against a specification that has none of the
machinery, and a driver method (`Drive`, `Apply`, `Operate`, `Campaign`,
`Watch`, `Persist`) runs any sequence of calls, with crash points, new ids, callback
answers and iteration orders as inputs, so that what it ensures holds for every
run. A raised assembly error is a failing result that ends the run. A database
transaction computes a value that is committed or dropped. A crash is a stop
between any two durable steps.

## What the proofs found

- `_verify_complete` walks END's collections greedily. For non-negative counts
  the order does not matter; a negative declared count makes it matter.
  `EndMarker` gives the exact conditions for acceptance in every and in some order.
- A comment says END's commit position is copied to events before a unit can
  spill; only rows still in memory are stamped (`StampedIffInMemory`). `last_lsn` of a spilled unit is
  that of the unspilled run under an exact condition (`LastLsnIgnoresSpilling`).
- A stored null key column reads back as a mapping, and a key with columns named
  `type` and `value` cannot be read back. Over the values modelled, `StoredOrder`
  shows the stored order differs exactly on these and on values of untagged types.
- Partition transitions that persist are emitted only if their streaks are in
  step: all first seen by accepted polls congruent modulo `confirm_polls`
  (`ConvergesIffInStep`, `PersistingPolls`). Otherwise none ever is, because a
  confirmed streak starts over while it waits for the others; `NeverConverges`
  gives the input. Safety is unaffected.
- Provisioning the runtime root is recoverable at every crash point but one:
  between the two steps that undo a published root after an exception. `Provision`
  states it exactly, and `Strand` shows that every later command then refuses.
- A clean refuses an active root that holds a symbolic link (`LinkBlocksClean`).
- A backfill request over tables the active signal already carries is refused
  (`IntentChanged`) unless it lists exactly the tables of that signal's intent, in
  the same order: a part of them or another order is refused (`CarriedRequest`;
  `PartOrOrderRefused` shows both in one run).
- A run that started on a valid baseline promotes it without asking whether
  tables gained rows without an identity meanwhile (`PromotesUnasked`); `Confirm`
  and `UnconfirmedThroughout` state the exact condition.
- A backfill request whose id was spent, that is dispatched before without some of
  the tables now asked for, is answered queued, and those tables are kept nowhere
  (`SpentRequest`). In every other case a queued request waits on or is dispatched with them (`Operate`).
- Minus infinity sorts above every finite float in the cursor order (`OrderMeans`).
- A chunk that closed because it was full does not claim its table even where the
  next record shows that the table had ended (`ChunksClaim`).
- A commit group that the snapshot completion machine holds back when a new delete
  policy takes effect stays open under the new policy. It then holds no
  transaction, so no group mixes two policies (`OnePolicyPerTransaction`).

## Model

| member | source | states |
|---|---|---|
| `AssemblerStreams.RunConserves` | src/cdc_flight/assembler.py:334-401 | for every accepted stream from any tidy state: the records of the emitted units, then of the open unit, then the deferred queue, are the input with each incremental READ that arrived inside a transaction moved to just after that END, in arrival order |
| `AssemblerStreams.ResequencedPermutes` | src/cdc_flight/assembler.py:373-378 | that reordering neither loses nor duplicates a record |
| `AssemblerStreams.StreamingKeepsOrder` | src/cdc_flight/assembler.py:334-371 | without snapshot records it is the identity |
| `AssemblerStreams.NothingLostOrDuplicated` | src/cdc_flight/assembler.py:334-401 | from a fresh assembler, units, open unit and deferred queue hold exactly the input as a multiset |
| `AssemblerStreams.NothingOvertakes` | src/cdc_flight/assembler.py:357-378 | while a transaction is open the only unit that can come out is that transaction, by its own END, first; what follows it are chunks of released reads |
| `AssemblerStreams.UncoveredIsSuffix` | src/cdc_flight/assembler.py:498-540 | in a streaming-only run the records no unit covers yet are a suffix of the input |
| `AssemblerStreams.OneCut` | src/cdc_flight/assembler.py:883-907 | cutting a streaming-only stream at any point, discarding, and feeding a new assembler from the first uncovered record gives the same units and the same end |
| `AssemblerStreams.ReplaySafe` | src/cdc_flight/assembler.py:883-907 | the same for any number of cuts in a row |
| `AssemblerProofs.RunAppend` | src/cdc_flight/assembler.py:334-371 | feeding two streams in turn is feeding their concatenation |
| `AssemblerProofs.EveryUnitWhole` | src/cdc_flight/assembler.py:498-614 | every emitted transaction is whole: declared count, dense ordinals 1..N without repeats, tallies both ways up to the message allowance, one transaction id, and its events are the counted records it covers in order |
| `AssemblerProofs.EventIdentitiesUnique` | src/cdc_flight/assembler.py:451-496 | no two events of a unit share an ordinal, in any run |
| `AssemblerStreams.SnapshotOrdinals` | src/cdc_flight/assembler.py:753-756 | over any run, limits and deferrals, the k-th snapshot record of a table carries ordinal k, and the emitted and open snapshot events are the covered snapshot records in order |
| `AssemblerStreams.ChunksBounded` | src/cdc_flight/assembler.py:733-778 | every emitted chunk is of one relation and one mode, and holds between one and the configured number of events |
| `SnapshotClaims.ChunksClaim` | src/cdc_flight/assembler.py:721-807 | over every accepted run, from the records around each chunk: it closed at its first row that is marked last or reaches the event or byte limit, or because the next record covered is no row of its relation and mode; and it claims its table iff its final row is marked last, or it was not full and the next record is no row of its relation. The open chunk has met none of these |
| `AssemblerAcceptance.AcceptedIffWellFormed` | src/cdc_flight/assembler.py:334-684 | a stream is accepted iff each record may follow those before it: BEGIN only between transactions, counted records with this transaction's id and a new positive ordinal, END of this transaction with exactly its count, ordinals and collections, plain messages and boundaries only between transactions, snapshot rows inside one only if incremental and enabled, anything else always |
| `EndMarker.AcceptsIffTotalFits` | src/cdc_flight/assembler.py:592-614 | for non-negative declared counts the greedy allowance accepts exactly when every collection matches its observed count or was unseen, and the unseen counts fit the messages |
| `EndMarker.OrderIrrelevant` | src/cdc_flight/assembler.py:592-614 | so the per-table check does not depend on the order of the collections |
| `EndMarker.NegativeCountsDependOnOrder` | src/cdc_flight/assembler.py:592-614 | with a negative declared count it does: two orders of one marker, one accepted, one refused |
| `EndMarker.AcceptedInEveryOrder` | src/cdc_flight/assembler.py:592-614 | for any counts: accepted in every order iff the collections match and the positive charges alone fit the allowance |
| `EndMarker.AcceptedInSomeOrder` | src/cdc_flight/assembler.py:592-614 | accepted in some order iff the collections match and the net charges fit |
| `EndMarker.TallyCounts` | src/cdc_flight/assembler.py:451-496 | a table's count is the number of its row events |
| `EndMarker.MessagesCount` | src/cdc_flight/assembler.py:451-496 | the allowance is the number of counted events that are no rows |
| `EndMarker.DeliveredCounts` | src/cdc_flight/assembler.py:451-496 | the delivery count is the number of rows and snapshot reads not ignored |
| `EndMarker.RefusalsReported` | src/cdc_flight/assembler.py:451-496 | a unit reports exactly the refusals its records carry |
| `EndMarker.CommitPosition` | src/cdc_flight/assembler.py:498-540 | the commit position is END's own, or, where END has none, the greatest of the events |
| `Assembler.VerifyComplete` | src/cdc_flight/assembler.py:542-614 | the counters kept on arrival reach the verdict, and the same reason, that the list of events does |
| `Assembler.AllowanceCovers` | src/cdc_flight/assembler.py:595-606 | the greedy walk accepts iff every declared entry agrees with the events |
| `Assembler.EveryTableDeclared` | src/cdc_flight/assembler.py:607-614 | accepts iff every observed table was declared |
| `Assembler.OpenTxn.Cover` | src/cdc_flight/assembler.py:809-817 | covers one more record and keeps totals, proof and buffer in step with the history |
| `Assembler.OpenTxn.Count` | src/cdc_flight/assembler.py:451-496 | counts and covers one event, and keeps every counter in step |
| `Assembler.OpenChunk.Add` | src/cdc_flight/assembler.py:753-769 | adds one numbered snapshot row, and keeps every counter in step |
| `Assembler.TransactionAssembler.MaybeSpill` | src/cdc_flight/assembler.py:819-860 | staging past the threshold, taken or not by the callback, keeps the events the unit holds and touches no closed unit's rows; nothing is staged below the thresholds, and where the callback takes what it is handed what stays in memory is below both |
| `Assembler.TransactionAssembler.CloseOpenChunk` | src/cdc_flight/assembler.py:780-807 | the closed chunk is the specified unit: only a `last` record claims the whole snapshot, an incremental chunk never claims its table |
| `Assembler.TransactionAssembler.FeedBegin` | src/cdc_flight/assembler.py:404-418 | refines the specification, refusals included |
| `Assembler.TransactionAssembler.Admit` | src/cdc_flight/assembler.py:451-496 | refines the specification: implicit open, id and ordinal refusals, counting |
| `Assembler.TransactionAssembler.FeedEnd` | src/cdc_flight/assembler.py:498-540 | refines the specification: orphan END, foreign END, the completeness rule, the whole unit |
| `Assembler.TransactionAssembler.FeedControl` | src/cdc_flight/assembler.py:616-684 | refines the specification: transactional and plain messages, heartbeats inside and outside a transaction |
| `Assembler.TransactionAssembler.FeedSnapshot` | src/cdc_flight/assembler.py:721-778 | refines the specification: relation and mode changes, numbering, closing |
| `Assembler.TransactionAssembler.FlushDeferred` | src/cdc_flight/assembler.py:373-378 | releases the deferred reads in arrival order, as specified |
| `Assembler.TransactionAssembler.Feed` | src/cdc_flight/assembler.py:334-371 | one record of any kind refines the specification, keeps at most one unit open, and keeps what is in memory of it below the spill thresholds |
| `Assembler.TransactionAssembler.FeedSnapshotBoundary` | src/cdc_flight/assembler.py:380-401 | refines the specification, refusals included |
| `Assembler.TransactionAssembler.DiscardOpenUnit` | src/cdc_flight/assembler.py:883-907 | drops the open unit and the deferred reads, and returns exactly the number of events counted and reads deferred |
| `Assembler.Drive` | src/cdc_flight/assembler.py:334-401 | a whole stream on a new assembler, for any thresholds and any behaviour of the spill callback: accepted or refused with the specified reason, each unit together with the rows staged under its own number is the specified unit, and the numbers increase |
| `Assembler.SpillingKeepsMeaning` | src/cdc_flight/assembler.py:819-880 | two runs that differ only in spilling hand over the same units |
| `Assembler.LastLsnIgnoresSpilling` | src/cdc_flight/assembler.py:498-540 | the last LSN of a unit is the same wherever the spill falls iff END carries no position or one no event exceeds |
| `Assembler.UnitLastLsn` | src/cdc_flight/assembler.py:498-540 | it is computed from the commit position and the events still in memory |
| `Assembler.StampedIffInMemory` | src/cdc_flight/assembler.py:498-540 | all rows of a unit carry its commit position iff nothing of it was staged |
| `Assembler.KeepsLastRecord` | src/cdc_flight/assembler.py:809-817 | a unit keeps for acknowledgement every record it covers, or only the last one |
| `DeletePolicy.OnePolicyPerTransaction` | src/cdc_flight/applier.py:1334-1361 | for every interleaving of requests, records, snapshot boundaries and soft triggers: all events of an emitted transaction carry one delete-policy epoch and digest, implicit opens included, and all transactions of a committed group carry the same one, also where a group was held back at the boundary |
| `DeletePolicy.GroupsInOrder` | src/cdc_flight/unit_admission.py:62-103 | the committed groups and the open one are the emitted units in order, none lost or repeated; in a run that stopped, up to there |
| `DeletePolicy.PolicyTakesEffect` | src/cdc_flight/applier.py:1334-1361 | for every run: a request waits while the open transaction goes on, and the first record delivered between transactions is covered under the requested policy, which is then in force with nothing waiting |
| `DeletePolicy.TerminalWaits` | src/cdc_flight/commit_protocol.py:123-143 | a group that carries the terminal snapshot offset is committed only when the completion machine is ready; a soft trigger commits every other group |
| `DeletePolicy.Apply` | src/cdc_flight/applier.py:883-956 | a whole run over the real assembler, whatever is spilled: its groups, its open group and its stop are those of the specification, and each group is of one policy and one phase |
| `DeletePolicy.Applier.RequestDeletePolicy` | src/cdc_flight/applier.py:1334-1348 | a request waits, and one for the policy in force withdraws what waited |
| `DeletePolicy.Applier.ActivateAtBoundary` | src/cdc_flight/applier.py:1350-1361 | takes effect only while no transaction is open, and commits what was buffered under the policy before |
| `DeletePolicy.Applier.HandleRecord` | src/cdc_flight/applier.py:883-910 | one record refines the specification over the real assembler: same groups, same stop, same state |
| `DeletePolicy.Applier.HandleBoundary` | src/cdc_flight/applier.py:825-856 | the same for the terminal snapshot notification |
| `DeletePolicy.Applier.AddUnits` | src/cdc_flight/unit_admission.py:62-103 | admits units as specified: a unit of the other phase first commits the group, and a group held back stops the run |
| `DeletePolicy.Applier.CommitGroup` | src/cdc_flight/commit_protocol.py:123-143 | commits the whole group unless it is empty or carries a terminal boundary that is not ready |
| `RuntimeRoot.ValidateTree` | scripts/runtime_state_fs.py:175-207 | accepts iff no symbolic link is anywhere in the tree |
| `RuntimeRoot.DeleteTree` | scripts/runtime_state_fs.py:210-244 | finishes empty, or stops with a link-free rest; refuses only a link; dies only if told to |
| `RuntimeRoot.Runtime.Provision` | scripts/runtime_state_cli.py:108-168 | every crash and every exception leaves a classified disk, except, exactly, dying inside the rollback of a root already published |
| `RuntimeRoot.Runtime.Withdraw` | scripts/runtime_state_cli.py:378-389 | removes a private root, or stops where the next command can go on |
| `RuntimeRoot.Runtime.FinishRecorded` | scripts/runtime_state_cli.py:212-237 | from a completion record to nothing, or a stop the next clean finishes; the directory is empty when it is removed |
| `RuntimeRoot.Runtime.Quarantine` | scripts/runtime_state_cli.py:256-264 | marks a link-free payload, and refuses, changing nothing, iff it holds a link |
| `RuntimeRoot.Runtime.DeletePayload` | scripts/runtime_state_cli.py:268-271 | the record is written only over an empty payload, with the root's own identity |
| `RuntimeRoot.Runtime.CleanRoot` | scripts/runtime_state_cli.py:248-271 | refuses, changing nothing, iff the payload holds a link; otherwise ends absent or dies |
| `RuntimeRoot.Runtime.CleanFrom` | scripts/runtime_state_cli.py:476-481 | an uninterrupted clean ends absent unless the active root holds a link |
| `RuntimeRoot.Runtime.Execute` | scripts/runtime_state_cli.py:437-491 | any command from any disk, dying anywhere: what each kind of command leaves and returns in each phase; the disk ends unclassified iff it met the one fatal crash point, and then every command refuses; prepare and run never touch a doomed root |
| `RuntimeRoot.DiskTells` | scripts/runtime_state_cli.py:308-375 | the same by what lies on the disk: a root with the quarantine marker or a completion record is refused to prepare and run; a launch leaves one public root with its sentinel and no marker or record; a clean leaves nothing; foreign or mismatching markers are refused to everything |
| `RuntimeRoot.NoReactivation` | scripts/runtime_state_cli.py:459-470 | over any history, between a quarantined root and a usable one there was a moment it was absent |
| `RuntimeRoot.Campaign` | scripts/runtime_state_cli.py:308-375 | for any sequence of commands and crashes, every command in turn does what `Execute` states from the disk the one before left, and everything written, in order, follows the lifecycle: six phases, no link in a quarantined payload, a completion record only over an empty payload of the same identity |
| `RuntimeRoot.CleanUp` | scripts/runtime_state_cli.py:248-271 | after any history one uninterrupted clean leaves nothing iff the disk is classified and not active with a link in it; otherwise it refuses and changes nothing |
| `RuntimeRoot.LinkBlocksClean` | scripts/runtime_state_cli.py:248-264 | such a history: prepare, then a run whose child leaves a link |
| `RuntimeRoot.Strand` | scripts/runtime_state_cli.py:108-168 | a history that meets the fatal point: after it every command refuses, for ever |
| `CursorOrder.CmpTotal` | src/cdc_flight/backfill.py:207-253 | order keys compare equal only if equal, and antisymmetrically, at any nesting; `OrderMeans` says which way |
| `CursorOrder.CmpTransitive` | src/cdc_flight/backfill.py:207-253 | the order is transitive at any nesting |
| `CursorOrder.NeverMixed` | src/cdc_flight/backfill.py:207-253 | comparing two delivered values never meets elements of different types |
| `CursorMeaning.CodesFirst` | src/cdc_flight/backfill.py:207-253 | text and bytes: the first differing code decides, and a proper prefix comes first |
| `CursorMeaning.OrderMeans` | src/cdc_flight/backfill.py:207-253 | the order of any two values, told from the values at any nesting: types by a fixed ranking with whole numbers and decimals together; numbers by size; false before true; finite floats by size, then minus infinity, infinity and NaN; intervals by days, seconds, microseconds; lists by the first differing element; mappings by the first differing member in name order |
| `CursorMeaning.NamesInOrder` | src/cdc_flight/backfill.py:256-263 | members and columns are taken in name order |
| `CursorMeaning.KeyMeans` | src/cdc_flight/backfill.py:256-263 | two keys of a table: the first differing column decides |
| `CursorMeaning.IntegersCompare` | src/cdc_flight/backfill.py:207-263 | integer keys compare by size, so 2 comes before 10 |
| `CursorOrder.SortMembers` | src/cdc_flight/backfill.py:167-173 | sorting a mapping by name permutes it |
| `CursorOrder.SortMaps` | src/cdc_flight/backfill.py:167-173 | and commutes with changing the values |
| `CursorOrder.NullReadsAsMapping` | src/cdc_flight/backfill.py:121-130 | the null tag has no value member, so a stored null reads back as a mapping |
| `CursorOrder.FaithfulIffPlain` | src/cdc_flight/backfill.py:265-331 | a value read back from its JSON orders like the delivered value iff it holds, at any depth, no null and no value of an untagged type |
| `CursorOrder.StoredOrder` | src/cdc_flight/backfill.py:334-346 | a stored primary key orders like the delivered one iff every column is plain and it has not both a column `type` and a column `value` |
| `CursorStore.MaxCursor` | src/cdc_flight/backfill.py:349-360 | the greatest candidate, or a refusal iff some candidate is unreadable; over integer keys see `GreatestInteger` |
| `CursorStore.Gather` | src/cdc_flight/backfill.py:2199-2239 | for each run, the greatest delivered key of any kind, the number of keys, and the number of units the run had rows in |
| `CursorStore.SummaryLeads` | src/cdc_flight/backfill.py:2199-2239 | for keys that can be stored, the delivered maximum is the maximum in stored order |
| `CursorStore.Repository.UpdateProgress` | src/cdc_flight/backfill.py:1032-1095 | on any row: both fields become the greatest of what was there and what is presented and the counts grow; nothing changes iff the run is finished and that is not allowed, or something is unreadable |
| `CursorStore.LastAtMostMaximum` | src/cdc_flight/backfill.py:1060-1071 | whatever the row held, `last` ends at most `maximum` |
| `CursorStore.Repository.CommitProgress` | src/cdc_flight/backfill.py:2196-2254 | for any keys, one transaction that fails, changing nothing, iff some gathered maximum or stored cursor cannot be read; otherwise no cursor moves back, each row count is the number of keys presented, each chunk count grows by the units the run had rows in, and a cursor is the greatest key ever presented to its run if all of them can be stored |
| `CursorStore.StorableTakes` | src/cdc_flight/backfill.py:2196-2254 | over keys that can be stored it never fails |
| `CursorStore.LeaderUnique` | src/cdc_flight/backfill.py:1054-1071 | the cursor does not depend on the order, batching or repetition of the keys |
| `CursorStore.LeaderIsGreatest` | src/cdc_flight/backfill.py:1054-1071 | no key presented is above the stored one, column by column |
| `CursorStore.GreatestInteger` | src/cdc_flight/backfill.py:349-360 | over integer keys the choice is the numerically greatest |
| `CursorStore.GatheredInteger` | src/cdc_flight/backfill.py:2199-2239 | over integer keys a commit gathers the numerically greatest |
| `CursorStore.IntegerCursor` | src/cdc_flight/backfill.py:1032-1095 | over integer keys both fields of a row hold the numerically greatest key ever presented |
| `BackfillModel.EnsureLoadingKeeps` | src/cdc_flight/backfill.py:2123-2139 | a run put to work owns its shadow, and every invariant is kept |
| `BackfillModel.EnsureLoadingOutcome` | src/cdc_flight/backfill.py:2123-2139 | it fails iff the run needs a shadow another owner holds |
| `BackfillModel.ObserveKeeps` | src/cdc_flight/backfill.py:2102-2194 | any notification keeps: one active run per table, claims and working runs agree, no run rests in preparing |
| `BackfillModel.ObserveOutcome` | src/cdc_flight/backfill.py:2102-2194 | where each notification leaves its run and claim, and exactly when it fails |
| `BackfillModel.SwapKeeps` | src/cdc_flight/backfill.py:2256-2280 | a swap completes an owning run and frees its shadow, and leaves any other run alone |
| `BackfillModel.FullSwapKeeps` | src/cdc_flight/backfill.py:2059-2100 | a full swap keeps every invariant, also when it starts the run itself |
| `BackfillModel.PrepareKeeps` | src/cdc_flight/backfill.py:2044-2057 | preparing claims on the way into loading and keeps every invariant |
| `BackfillModel.ExternalKeeps` | src/cdc_flight/backfill.py:1386-1435 | other owners taking or returning a claim keep every invariant |
| `BackfillCoordination.Dedupe` | src/cdc_flight/backfill.py:1872 | each table once, and the same tables |
| `BackfillCoordination.DedupeMentions` | src/cdc_flight/backfill.py:1872 | in the order of first mention |
| `BackfillCoordination.RequestOneKeeps` | src/cdc_flight/backfill.py:942-1004 | a request finds or starts the one active run of its table, and changes no other run's state or signal |
| `BackfillCoordination.AdmitAll` | src/cdc_flight/backfill.py:1957-1977 | the exact database a signal leaves: a correlated active run for every table, new ones where none was, and no other run touched; or the first id already taken |
| `BackfillCoordination.RecordKeeps` | src/cdc_flight/backfill.py:1233-1259 | an intent is recorded once and never rewritten |
| `BackfillCoordination.EnqueueKeeps` | src/cdc_flight/backfill.py:1306-1345 | a queued request only gains tables, a dispatched one never changes |
| `BackfillCoordination.EnqueueJoins` | src/cdc_flight/backfill.py:1306-1345 | the request is stored; unless it was dispatched before, it waits for its old tables and the new ones, each once, in first-mention order; no other request changes |
| `BackfillCoordination.PromiseKept` | src/cdc_flight/backfill.py:1306-1356 | a queued request is later still waiting for its tables, or dispatched by an intent that names them, iff its id was not spent on a dispatch without them |
| `BackfillCoordination.SpentRequest` | src/cdc_flight/backfill.py:1321-1324 | such an id: asked again behind the active signal, it is answered queued and its new table is kept nowhere |
| `BackfillCoordination.DispatchedKeeps` | src/cdc_flight/backfill.py:1347-1356 | dispatching leaves nothing waiting, and every request covered by the signal that dispatched it |
| `BackfillCoordination.Coordinator.RequestTables` | src/cdc_flight/backfill.py:1854-1982 | the outcome is exactly: nothing for no tables; refused while several signals are active; queued iff it must wait; refused iff a new run id is taken; refused iff the chosen signal's intent names other tables, another order or another kind; else admitted. A queued request is stored as `EnqueueJoins` says, what is admitted is exact, and a refusal changes nothing |
| `BackfillCoordination.QueuedIff` | src/cdc_flight/backfill.py:1872-1956 | when it must wait: an active run under a signal, and the request asks for another signal or names a table with no such run; or an active run of one of its tables that is not incremental |
| `BackfillCoordination.CarriedRequest` | src/cdc_flight/backfill.py:1233-1259 | a request over tables the active signal carries is admitted iff its list is that of the intent, order included; otherwise it is refused |
| `BackfillCoordination.PartOrOrderRefused` | src/cdc_flight/backfill.py:1233-1259 | such requests in one run: admitted, then refused for a part of the tables, then refused for another order |
| `BackfillCoordination.Coordinator.DispatchQueued` | src/cdc_flight/backfill.py:1984-2024 | acts iff every run is complete or blocked and something waits; then one intent names exactly the awaited tables, each has an active run under the signal, new where there was none, and every waiting request is settled by it; new ids are never refused; otherwise nothing changes |
| `BackfillCoordination.Coordinator.Publish` | src/cdc_flight/backfill.py:1718-1729 | source row first, acknowledgement second; a crash between them keeps the outbox agreement |
| `BackfillCoordination.Coordinator.Reconcile` | src/cdc_flight/backfill.py:1731-1769 | terminates; when it returns nothing is pending, every intent has its one source row with the same tables, and, if dispatching, nothing waits while idle; with new ids it never fails |
| `BackfillCoordination.Coordinator.Rearm` | src/cdc_flight/backfill.py:1771-1823 | every active member of an interrupted signal, and no other run, moves to a new signal whose unpublished intent names exactly the tables that moved, in one transaction; with new signal ids it never fails |
| `BackfillCoordination.RearmableTells` | src/cdc_flight/backfill.py:1783-1800 | which runs move: active incremental ones under a published signal with a loading incremental run that has a cursor |
| `BackfillCoordination.Coordinator.RequestRun` | src/cdc_flight/backfill.py:1834-1852 | the active run of the table, taken over by a full refresh iff it is not loading yet, or a new run in the asked mode; refused, changing nothing, iff a new run is needed and its id is taken |
| `BackfillCoordination.Coordinator.Prepare` | src/cdc_flight/backfill.py:2044-2057 | commits what preparing computes, or rolls back |
| `BackfillCoordination.Coordinator.ObserveNotification` | src/cdc_flight/backfill.py:2102-2194 | commits what the notification computes for the one active run of its table, or rolls back |
| `BackfillCoordination.Coordinator.CompleteSwap` | src/cdc_flight/backfill.py:2256-2280 | the owning run is complete and the shadow free; for a run that owns nothing, or no run, nothing changes |
| `BackfillCoordination.Coordinator.CompleteFullSwap` | src/cdc_flight/backfill.py:2059-2100 | commits exactly the full swap of the one active run, or rolls back iff that fails; with no active run nothing changes |
| `BackfillCoordination.Coordinator.ClaimExternally` | src/cdc_flight/backfill.py:1386-1435 | commits iff the shadow is free or already this owner's; then it is held or freed as asked, and no other claim and no run changes |
| `BackfillCoordination.Operate` | src/cdc_flight/backfill.py:1518-2280 | any sequence of calls, crashes and id choices, at every moment: claims and runs agree and the outbox agrees with the source; between any two moments no intent, request or source row is lost or rewritten; every request is answered as its database decides; and one answered queued is at every later moment waiting for its tables or dispatched by an intent that names them, exactly unless its id had been spent |
| `PartitionWatcher.Watcher.Read` | src/cdc_flight/catalog_lifecycle.py:562-616 | an observation counts iff it is usable, has no duplicate edge, is backed by the relations seen, and contradicts no known edge's parent or child generation |
| `PartitionTopology.EvidenceTells` | src/cdc_flight/catalog_lifecycle.py:562-616 | what counts as evidence, written out |
| `PartitionWatcher.Watcher.Candidates` | src/cdc_flight/catalog_lifecycle.py:632-673 | exactly the differences from the snapshot, each once, removals told apart by the child |
| `PartitionWatcher.Watcher.Confirm` | src/cdc_flight/catalog_lifecycle.py:478-504 | one more poll of a streak; confirmed iff enough polls in a row, and then the streak starts over |
| `PartitionWatcher.Watcher.Supersede` | src/cdc_flight/catalog_lifecycle.py:675-693 | a streak or queued transition stays iff the observation does not contradict it |
| `PartitionWatcher.Watcher.ConfirmAll` | src/cdc_flight/catalog_lifecycle.py:695-708 | all candidates are ready iff each completes its streak on this poll; a queued transition is never a candidate again |
| `PartitionWatcher.Watcher.ComparePartitions` | src/cdc_flight/catalog_lifecycle.py:550-724 | a rejected observation changes nothing; an accepted one emits all differences or none, exactly when every difference has been shown by a multiple of `confirm_polls` accepted observations in a row, and then the snapshot is what was observed |
| `PartitionWatcher.Watch` | src/cdc_flight/catalog_lifecycle.py:550-724 | over any run of polls, settlements and forgets: each action emits exactly what the acceptable polls so far, in order and each once, make due; every event had held in the last `confirm_polls` of them; and replaying the events from any moment on gives the stable edges |
| `PartitionTopology.DifferencesReplay` | src/cdc_flight/catalog_lifecycle.py:632-673 | applying the differences in any order gives the observed edges, and none of them is a no-op |
| `PartitionTopology.StepReplays` | src/cdc_flight/catalog_lifecycle.py:550-724 | what one action emits turns the stable edges before it into those after it |
| `PartitionTopology.EventsReplay` | src/cdc_flight/catalog_lifecycle.py:550-724 | event sourcing between any two moments of any run |
| `PartitionTopology.EventsConfirmed` | src/cdc_flight/catalog_lifecycle.py:695-708 | every event of any run had held in the last `confirm_polls` accepted observations |
| `PartitionTopology.ConvergesIffInStep` | src/cdc_flight/catalog_lifecycle.py:478-504 | progress: differences that persist become stable within `confirm_polls` observations if their streaks are in step, and never otherwise, for any number of polls and any differences |
| `PartitionTopology.InStepByFirstSeen` | src/cdc_flight/catalog_lifecycle.py:478-504 | in step means: first seen by accepted observations congruent modulo `confirm_polls` |
| `PartitionTopology.PersistingPolls` | src/cdc_flight/catalog_lifecycle.py:478-504 | the same for whole runs that go on observing one acceptable topology |
| `PartitionTopology.NeverConverges` | src/cdc_flight/catalog_lifecycle.py:478-504 | an input: two attachments first seen one poll apart, for any `confirm_polls` above one |
| `CatalogWatcher.Watcher.Supersede` | src/cdc_flight/catalog_lifecycle.py:776-790 | that kind goes from the relation's queue and streak, and no other relation changes |
| `CatalogWatcher.Watcher.Confirm` | src/cdc_flight/catalog_change_queue.py:123-178 | one more vote of a streak, or a new one; confirmed iff enough, with the position of this poll |
| `CatalogWatcher.Watcher.VisitAbsent` | src/cdc_flight/catalog_lifecycle.py:212-334 | a missing relation becomes what `Absence` says, and no other relation changes |
| `CatalogWatcher.Watcher.NotePresent` | src/cdc_flight/catalog_lifecycle.py:179-211 | presence cancels drops, renews or cancels a recreate, and ends a streak about an unchanged relation; no other relation changes |
| `CatalogWatcher.Watcher.FirstSight` | src/cdc_flight/catalog_lifecycle.py:251-315 | the exact case split for a relation without history: reconciled, re-admitted, recorded, reported or left alone |
| `CatalogWatcher.Watcher.Compare` | src/cdc_flight/catalog_lifecycle.py:335-400 | exactly what a relation with history becomes and queues: recreate, new, schema or publication change, or nothing |
| `CatalogWatcher.Watcher.VisitPresent` | src/cdc_flight/catalog_lifecycle.py:166-400 | a relation that is there becomes what `Presence` says, queued change included, and no other relation changes |
| `CatalogWatcher.Watcher.Poll` | src/cdc_flight/catalog_lifecycle.py:125-411 | every relation becomes, and gets queued, what the pure step of that relation says, for every name at once |
| `CatalogWatcher.Watcher.Settle` | src/cdc_flight/catalog_change_queue.py:69-102 | removes exactly the settled changes, and adopts the relation of the last settled schema change unless the snapshot was advanced already |
| `CatalogWatcher.Watcher.Forget` | src/cdc_flight/catalog_lifecycle.py:938-959 | nothing about the relation stays, nothing about others changes |
| `CatalogWatcher.Watcher.ReplaceRecreate` | src/cdc_flight/catalog_change_queue.py:32-66 | a queued recreate gives way to exactly one for the newest generation, with the position of the one it replaces |
| `CatalogWatcher.Watch` | src/cdc_flight/catalog_lifecycle.py:125-411 | a whole run from an empty queue: at every moment the queue holds for each relation what its own track says, and each action queues what that says; so each queued drop follows the last `confirm_polls` polls that could see the relation, all of which found it absent, no relation has two drops or recreates queued, and the drops reported are exactly the new ones |
| `CatalogTracks.FollowSound` | src/cdc_flight/catalog_lifecycle.py:125-411 | over every run of one relation: a queued drop follows the last `confirm_polls` visible polls, all absent; at most one drop or recreate is queued; recreates carry a generation and a known relation |
| `CatalogTracks.VisitTells` | src/cdc_flight/catalog_lifecycle.py:166-400 | the votes for a drop, recreate or schema change after one poll, and whether the poll queues it, from what it found, what is queued in the way and what it contradicts |
| `CatalogTracks.QueuedIffAgreed` | src/cdc_flight/catalog_change_queue.py:123-178 | over every run: a poll queues such a change iff the visible polls of the run have voted for exactly that identity, or those columns, `confirm_polls` times, counting this one; or, at once, for a relation that was gone and came back |
| `CatalogTracks.AgreementQueues` | src/cdc_flight/catalog_change_queue.py:123-178 | progress: polls that go on showing the same unhindered finding queue it at exactly the poll that completes the votes |
| `CatalogTracks.AddedTells` | src/cdc_flight/catalog_lifecycle.py:335-400 | a poll adds at most one change of a relation, of the generation seen, at the position of that poll |
| `CatalogTracks.ReportTells` | src/cdc_flight/catalog_lifecycle.py:251-400 | exactly when `new`, `unpublished` and `republished` are reported |
| `CatalogTracks.LearnTells` | src/cdc_flight/catalog_lifecycle.py:251-400 | exactly what becomes known, and when a gone relation is replicated again |
| `CatalogTracks.QueueTells` | src/cdc_flight/catalog_lifecycle.py:179-211 | exactly what stays queued: with the relation seen no drop, a recreate only of the lifecycle seen and renewed, all else |
| `CatalogTracks.LifecycleTells` | src/cdc_flight/catalog_generation.py:95-111 | what ends a lifecycle: another oid, another row type where both are known, any other token where one is not; a rewrite of the file does not |
| `CatalogTracks.LooksTells` | src/cdc_flight/catalog_lifecycle.py:130-178 | which relations a poll looks at |
| `CatalogTracks.ActTells` | src/cdc_flight/catalog_change_queue.py:32-102 | what settling, forgetting, replacing and replicating leave of a relation |
| `CatalogTracks.AdoptedTells` | src/cdc_flight/catalog_change_queue.py:83-90 | the relation of the last settled schema change becomes known, and without one nothing does |
| `CatalogPlan.Coordinator.TakeDue` | src/cdc_flight/catalog_lifecycle.py:823-863 | exactly the live changes whose fence is open become due, in order; the rest wait |
| `CatalogPlan.Coordinator.Filter` | src/cdc_flight/catalog_apply.py:191-288 | each due change meets the fate its kind and its table's state decide; `PlanTells` writes that fate out |
| `CatalogPlan.Coordinator.Break` | src/cdc_flight/catalog_apply.py:341-388 | all eligible destruction or, past the limit, none |
| `CatalogPlan.Coordinator.MakePlan` | src/cdc_flight/catalog_apply.py:176-526 | the plan accounts for the whole queue; with drops ignored it is empty and nothing moves |
| `CatalogPlan.PlanTells` | src/cdc_flight/catalog_apply.py:176-288 | everything about one change from its kind, stage and position and its table's state: when it is an event, an action or a refusal, and the stage it ends in; a refusing table and an owed image hold it back |
| `CatalogPlan.BreakerTells` | src/cdc_flight/catalog_apply.py:341-388 | refused is exactly every replicated drop the plan would take, iff mass drops are off, the limit counts and they are more; else nothing |
| `CatalogPlan.FenceHolds` | src/cdc_flight/catalog_lifecycle.py:823-863 | with no grace, every fenced action and every partition event was detected at or before the durable position |
| `CatalogPlan.DueOnce` | src/cdc_flight/catalog_apply.py:176-288 | every due change is exactly one of: action, event, refusal, live deferral, or a supersession, and superseded iff the destination had settled it |
| `CatalogPlan.ClosedFenceWaits` | src/cdc_flight/catalog_lifecycle.py:843-846 | a change behind a closed fence waits and is in no list |
| `CatalogPlan.BreakerBounds` | src/cdc_flight/catalog_apply.py:345-388 | with mass drops off and a limit that counts, at most the limit is destroyed, and past it nothing is and all of it is refused |
| `CatalogPlan.OnlyDestructionRefused` | src/cdc_flight/catalog_apply.py:341-366 | only replicated drops are ever refused, and only past the limit |
| `CatalogBaseline.UnrelatableSplits` | src/cdc_flight/catalog_baseline.py:144-250 | the tables that need marking and those not rebuilt yet are together, without overlap, those that block a confirmation |
| `CatalogBaseline.Destination.MarkUnconfirmed` | src/cdc_flight/catalog_baseline.py:365-486 | writes exactly the steps of the mark up to where it dies; after the first the claim is never valid; it is invalidated iff something cannot be related, and every such table is then owed or reported unmarked |
| `CatalogBaseline.MarkTells` | src/cdc_flight/catalog_baseline.py:365-486 | the mark from the durable facts: queued for a rebuild are exactly the tables with rows, no identity, not queued yet and not refusing, in a watching run on a claim not valid; invalidated iff there are any, refusing or not |
| `CatalogBaseline.Destination.Confirm` | src/cdc_flight/catalog_baseline.py:489-587 | valid iff the catalog was read, no table owes a snapshot, and, for a run that started untrusted, no table holds rows without an identity |
| `CatalogBaseline.PromotionTells` | src/cdc_flight/catalog_baseline.py:489-587 | a run that lives ends valid iff the catalog was read, no table awaits or is in a rebuild, and, unless it started valid, no table holds rows without an identity |
| `CatalogBaseline.Destination.RunOnce` | src/cdc_flight/catalog_baseline.py:365-587 | a run, dying anywhere, writes exactly the first so many of its steps |
| `CatalogBaseline.UnconfirmedThroughout` | src/cdc_flight/catalog_baseline.py:365-587 | no step of any run but the last has the claim valid, and the last has it iff the catalog was read and nothing blocks |
| `CatalogBaseline.DeathLeavesUnconfirmed` | src/cdc_flight/catalog_baseline.py:365-587 | a run that dies after its mark leaves the claim unconfirmed; one that ends with it valid earned it |
| `CatalogBaseline.PromotesUnasked` | src/cdc_flight/catalog_baseline.py:489-587 | a run that started valid and ends valid over a table that holds rows without an identity |
| `CatalogBaseline.Destination.Forget` | src/cdc_flight/catalog_baseline.py:590-606 | the claim goes with the catalog it was about |
| `CatalogBaseline.ForgetTells` | src/cdc_flight/catalog_baseline.py:590-606 | every recorded identity and the claim go, and nothing else |
| `CatalogBaseline.Persist` | src/cdc_flight/catalog_baseline.py:489-587 | any sequence of runs and resets, dying anywhere, writes exactly the specified trace, along declared edges |
| `CatalogBaseline.BlocksForever` | src/cdc_flight/catalog_baseline.py:489-587 | a table unrelatable when a run starts untrusted keeps the claim from ever being valid, in that run and every later one, across crashes and resets, for as long as it stays so |

## Left out

- Acknowledgement handles: which records a unit retains is modelled, clearing `raw` on the others is not.
- The spill callback's destination writes; it stages all of what it is handed or nothing.
- The fold of a group into tables, acknowledgement and slot verdicts: beyond what goes into a group, `commit_protocol`, `planner`, `table_work`, `recovery` and `reconcile` are not part of this model.
- Apply: whether the snapshot completion machine lets a terminal group commit is an input; its refusal of streaming units, the discarding of units during a re-snapshot, table-scoped refusals and failed commits, which end or shrink a group, are not modelled.
- Payloads and source offsets of records: a record carries what the assembler reads.
- HandleRecord: does not model the rewriting of stale READs, descriptor lookup or policy sanitizing in the same loop; the record it feeds is any record.
- Other instances' entries in the runtime parent, creation of that parent, file descriptors, binding checks and `fsync`: the lock is held and single-file operations are atomic and durable.
- The text of JSON numbers, decimals, floats, bytes, dates and UUIDs: a rendered scalar reads back as itself; payloads the encoder never writes, such as numbers in strings, are refused by `Decode`.
- CmpTotal: a `Decimal` NaN, which the encoder and the order key accept and whose comparison raises, and a `Decimal` infinity have no value in the model.
- StoredOrder: a nested mapping whose keys collide once written as text has no value in the model.
- CommitProgress: the source LSN of a row is not modelled, and a delivery names its run, which the source looks up by table.
- Trigger reasons, request ids of runs, refresh policies, due-policy polling and source-health admission in the backfill scheduler: bookkeeping around the same admissions.
- RequestTables: reads the active runs and admits in one step; admission validation of table names is not modelled.
- Column diffs: two column lists differ or not, and a schema change is the pair of them.
- Visit: the old relation and old identity a change carries follow the code, but no theorem says more about them than what a drop makes known.
- The dirty list and what a plan persists about relations, alerts, policy alerts and their deduplication.
- Persisting the partition snapshot, and the publication facts of an edge.
- Grace periods appear in a plan as the set of changes whose grace has run out; the fence theorem is for none.
- Destination.Engine: stands for everything a run commits between mark and promotion, so it lets tables change in any way.
- Catalog polling over live source queries, TOAST admission, test labs and benchmarks, SQL text, threads, timers and logging.
