# Schema migrations that survive crashes, and the constraints they install

The repository upgrades databases whose DDL commits outside any transaction. A migrating process can
die between any two `ALTER TABLE`s, live writers keep inserting rows, and the next run reflects what it
finds and either converges or refuses. This project models those migrations and proves what they keep.

**The engine.** `Relational` is a database of tables: a column set, NOT NULL columns, enforced CHECK and
UNIQUE constraints, indexes and rows that map columns to nullable fields. CHECKs are evaluated in the
three-valued logic of `ThreeValued` (truth tables: section 8.12 of ISO/IEC 9075:1992; a CHECK is
satisfied when it is not FALSE: section 4.10.2). One `ALTER TABLE` is one atomic step that commits
exactly when every row fits the result. `MySql.Server` runs such statements against arbitrary
constraint-respecting writers and crashes, counts the deaths of the migrating process (a script method
ends by a crash exactly when there was one), and records the events, so that a lemma can speak of whole
runs: any number of attempts in either direction, each cut short anywhere.

**The migrations.** Each protocol module has the schemas a run can meet, the statement issued from each,
the proof that such schemas are never left and nothing is lost, and the script itself as methods whose
outcomes say which refusals are unreachable: `TerminalArbitration`, `TerminalArbitrationRuns`,
`TerminalArbitrationScript` and `TerminalArbitrationAttempts` (any sequence of attempts), `OutboxMigration`,
`DestroyLifecycle`, `BaseRefMigration` with `BaseRefDowngrade`, and `TaskMigrationsTable`. A statement that
is rejected, or a refusal of the script, names the row in its way column by column, so without such a row re-runs in one direction converge from any
crash remainder of that direction.

**The CHECK reader.** Before a migration trusts a constraint it compares the AND/OR shape of its text.
`CheckNormal` is the normalisation, `CheckText` the scanner with both paren-strippers and the splitter as
loops, `CheckShape` the shape and its meaning, `CheckPrint` printing and the round trip, `CheckReaders` the
comparison of the two implementations, and `CheckDressing` what becomes of text that normalisation changes.
Normalisation is not idempotent, so the meaning of a shape is said of text that normalisation leaves
unchanged, and carried over to every text that differs from one in capitals, back-quotes, white space and
introducers. Equal shapes do not mean equal literals, since the readers take the blanks out of atoms.

**Row state machines.** `TerminationReceipts`, `OutboxRows`, `MigrationOperations`, `PlanReceipts`,
`WorkerDispatch` and `DeliveryStages` take the installed CHECK texts clause by clause and say exactly
which rows they admit, and where they admit one only because a comparison with NULL is UNKNOWN.
`HexText` covers the recognisers built from nested REPLACE.

**Data steps.** `TaskIds` (id high-water marks on SQLite), `DuplicateHeads`, and the back-fills of
`PlanReceipts` and `WorkerDispatch`. **Two transactional cores.** `CodexLogin` and `RuntimeLifecycle`.

Things the model found in the code, each with the lemma that gives the input or the contract that gives
the condition:

- The downgrade of terminal arbitration drops audit values of invocations that are not agent requests
  (input: `TerminalArbitrationRuns.AuditLossWitness`; exactly when: `TerminalArbitrationRuns.AuditLossIsExact`).
- The outbox downgrade likewise drops the exact identities of such invocations
  (input: `OutboxMigration.ExactLossWitness`; exactly when: `OutboxMigration.ExactLossIsExact`).
- An outbox upgrade after an unfinished downgrade leaves the capability gate in place
  (input: `OutboxMigration.LeftGateWitness`; exactly when: `OutboxMigration.Upgrade`).
- A completed outbox row may lack its turn generation and its transport (`OutboxRows.GapWitness`), and a
  failed one its terminal status (`OutboxRows.ResultGapWitness`).
- A dispatch receipt may be settled without a reason (`WorkerDispatch.UnprovenWitness`).
- An id deleted before the delivery-loop upgrade without any mention left is issued again
  (`TaskIds.ForgottenIdComesBack`; exactly which ids: `TaskIds.IssuableIffAboveMentioned`).
- The frontend-review downgrade passes, and drops the evidence of cycles that have left the stage
  (input: `DeliveryStages.EvidenceLossWitness`; exactly when: `DeliveryStages.EvidenceLossIsExact`).
- A login interrupted between the rename and the assignment of the backup path ends without auth.json and
  with the credential in a backup nothing names; and a child that outlives the login may overwrite what
  was restored. Without these two, an unsuccessful login whose restoring step takes place ends as it began
  (`CodexLogin.Home.Login`).
- A committed login ends with whatever the child left in auth.json: nothing checks the file again after
  the smoke test (`CodexLogin.Home.Login`).

## Model

| member | source | states |
|---|---|---|
| `Relational.AlterCommits` | alembic/versions/4b8d2f6a1c90_add_terminal_arbitration_identity.py:1462-1469 | One ALTER TABLE on a table whose constraints hold commits exactly when its rows meet what it adds, a new column reading as NULL; otherwise it changes nothing. |
| `Relational.AlterKeepsRows` | alembic/versions/4b8d2f6a1c90_add_terminal_arbitration_identity.py:1462-1469 | An ALTER keeps every row, and every value outside the columns it drops. |
| `Relational.WiderKeyHolds` | alembic/versions/2b8d4f6a1c90_freeze_pr_review_base_ref.py:22-29 | A UNIQUE key on a superset of columns cannot collide while the narrower one holds, NULLs included. |
| `Relational.IdentityOrder` | alembic/versions/4b8d2f6a1c90_add_terminal_arbitration_identity.py:21-43 | A row the v2 identity CHECK passes is passed by v1, and a row the downgrade gate passes is passed by every version, with "passes" including UNKNOWN. |
| `Relational.IdentityV1Means` | alembic/versions/4b8d2f6a1c90_add_terminal_arbitration_identity.py:21-29 | The v1 identity, literal by literal: TRUE of every other source, and of an agent request exactly when it is advisory, resumes its Task, names no user and has its four ids and counters; when it is FALSE is said likewise. |
| `Relational.IdentityV2Means` | alembic/versions/4b8d2f6a1c90_add_terminal_arbitration_identity.py:31-43 | The v2 identity adds to v1 exactly a reason, a protocol version from 1 and an output hash; the shadow says the same. |
| `Relational.IdentityV3Means` | alembic/versions/7c1e4a9d2f60_add_capability_resume_outbox.py:40-60 | The v3 identity adds to v2 exactly an incarnation of 32 characters, a hash of 64, and the lower bounds of five numbers. |
| `Relational.ProvenanceMeans` | alembic/versions/4b8d2f6a1c90_add_terminal_arbitration_identity.py:45-55 | The scope CHECK passes NULL and four scopes; the transport CHECK passes NULL, and four transports beside a source scope. |
| `Relational.GatesMean` | alembic/versions/4b8d2f6a1c90_add_terminal_arbitration_identity.py:1713-1781 | What each gate passes, column by column. |
| `Relational.CollideMeans` | alembic/versions/2b8d4f6a1c90_freeze_pr_review_base_ref.py:22-29 | Which columns each UNIQUE key compares, with NULL never equal. |
| `MySql.Server.Apply` | alembic/versions/4b8d2f6a1c90_add_terminal_arbitration_identity.py:1462-1469 | An ALTER commits exactly when the rows as they stand meet what it adds, CREATE and DROP always; a committed statement takes its full effect and a rejected one none. |
| `MySql.Server.Execute` | alembic/versions/4b8d2f6a1c90_add_terminal_arbitration_identity.py:1462-1469 | One statement of a migration with writers before and after it and a possible, counted crash on either side; every event it adds starts from a database of the schema the caller saw. |
| `MySql.RunInvariant` | alembic/versions/4b8d2f6a1c90_add_terminal_arbitration_identity.py:2073-2124 | What every single event keeps, a run of any length keeps: writers and crashes anywhere, any number of attempts. |
| `TerminalArbitration.DowngradeStep` | alembic/versions/4b8d2f6a1c90_add_terminal_arbitration_identity.py:1713-1928 | From every schema a run can meet, the next statement of a downgrade is accepted by the server and leads to such a schema again. |
| `TerminalArbitration.UpgradeStep` | alembic/versions/4b8d2f6a1c90_add_terminal_arbitration_identity.py:1548-1703 | The same for every statement an upgrade may issue. |
| `TerminalArbitration.GatedRow` | alembic/versions/4b8d2f6a1c90_add_terminal_arbitration_identity.py:1164-1199 | A row behind an enforced gate has nothing set in the columns the gate guards; behind the receipt gate there is no row. |
| `TerminalArbitration.DowngradeDropsGated` | alembic/versions/4b8d2f6a1c90_add_terminal_arbitration_identity.py:1784-1928 | Columns and the receipt table fall only in the statement that names them, behind their gate, and each Task and Log gate falls only with its columns. |
| `TerminalArbitration.DowngradeLosesNothing` | alembic/versions/4b8d2f6a1c90_add_terminal_arbitration_identity.py:1713-1928 | No downgrade statement removes a row, a Task or LogEntry provenance value, a termination receipt or a field of an agent request. |
| `TerminalArbitration.UpgradeLosesNothing` | alembic/versions/4b8d2f6a1c90_add_terminal_arbitration_identity.py:1548-1703 | No upgrade statement removes a row or a value. |
| `TerminalArbitrationRuns.RunLosesNothing` | alembic/versions/4b8d2f6a1c90_add_terminal_arbitration_identity.py:2073-2124 | Over every interleaving of writers, crashes and re-runs in both directions each state keeps a schema of the migration with all its constraints, and no statement loses anything. |
| `TerminalArbitrationRuns.AgentRowsIdentified` | alembic/versions/4b8d2f6a1c90_add_terminal_arbitration_identity.py:1472-1518 | In every reachable state an agent request has the v1 identity, and the v2 audit as soon as the audit columns exist, as TRUE and not merely UNKNOWN. |
| `TerminalArbitrationRuns.GatedDowngradeCommits` | alembic/versions/4b8d2f6a1c90_add_terminal_arbitration_identity.py:1742-1928 | Once the gates are in, no row a writer can produce makes a later downgrade statement fail. |
| `TerminalArbitrationRuns.SettledUpgradeCommits` | alembic/versions/4b8d2f6a1c90_add_terminal_arbitration_identity.py:1580-1703 | Once phase one has committed, no row a writer can produce makes the rest of the upgrade fail. |
| `TerminalArbitrationRuns.PreflightDecidesPhaseOne` | alembic/versions/4b8d2f6a1c90_add_terminal_arbitration_identity.py:308-339 | On the old schema phase one commits exactly when neither preflight query finds a row. |
| `TerminalArbitrationRuns.DowngradeProgress` | alembic/versions/4b8d2f6a1c90_add_terminal_arbitration_identity.py:1784-1928 | Every committed downgrade statement brings the run exactly one step nearer the legacy schema. |
| `TerminalArbitrationRuns.DowngradeEnds` | alembic/versions/4b8d2f6a1c90_add_terminal_arbitration_identity.py:1892-1928 | A downgrade owes at most eleven statements and has none left exactly on the legacy schema. |
| `TerminalArbitrationRuns.DowngradeRunPays` | alembic/versions/4b8d2f6a1c90_add_terminal_arbitration_identity.py:2073-2124 | Over a downgrade-only run, however often cut short, the committed statements are exactly the distance covered: at most eleven, and all of them only on the legacy schema. |
| `TerminalArbitrationRuns.GatedRunStaysGated` | alembic/versions/4b8d2f6a1c90_add_terminal_arbitration_identity.py:1742-1928 | Once all gates are in, writers, crashes and re-runs of the downgrade never lose them. |
| `TerminalArbitrationRuns.UpgradeRunPays` | alembic/versions/4b8d2f6a1c90_add_terminal_arbitration_identity.py:1548-1703 | Over an upgrade-only run no more statements commit than the distance covered. |
| `TerminalArbitrationRuns.SettledRunStaysSettled` | alembic/versions/4b8d2f6a1c90_add_terminal_arbitration_identity.py:1580-1703 | Writers, crashes and re-runs of the upgrade never undo phase one. |
| `TerminalArbitrationScript.RejectedDowngradeFindsRow` | alembic/versions/4b8d2f6a1c90_add_terminal_arbitration_identity.py:384-444 | Whatever gates an earlier attempt left, a downgrade statement is rejected only while an agent request, a Task or LogEntry provenance value or a termination receipt stands: without one every gate installs. |
| `TerminalArbitrationScript.RejectedUpgradeFindsRow` | alembic/versions/4b8d2f6a1c90_add_terminal_arbitration_identity.py:308-339 | From every schema an upgrade statement is rejected only while phase one is owed and an agent request without the audit identity stands, or two invocations of one Task share an output log. |
| `TerminalArbitrationRuns.UpgradeProgress` | alembic/versions/4b8d2f6a1c90_add_terminal_arbitration_identity.py:1548-1703 | Every committed upgrade statement brings the run nearer its end. |
| `TerminalArbitrationRuns.UpgradeNext` | alembic/versions/4b8d2f6a1c90_add_terminal_arbitration_identity.py:1548-1703 | Short of the current schema an upgrade always has a statement to issue, unless a downgrade has fenced the receipt table. |
| `TerminalArbitrationRuns.UpgradeEnds` | alembic/versions/4b8d2f6a1c90_add_terminal_arbitration_identity.py:1548-1703 | An upgrade has nothing left to issue exactly on the current schema or before a fenced receipt table. |
| `TerminalArbitrationRuns.AuditLossIsExact` | alembic/versions/4b8d2f6a1c90_add_terminal_arbitration_identity.py:1824-1842 | Removing the audit columns costs nothing exactly when no row has one set: what a non-agent row carries there is dropped. |
| `TerminalArbitrationRuns.AuditLossWitness` | alembic/versions/4b8d2f6a1c90_add_terminal_arbitration_identity.py:1824-1842 | Behind every gate a person's request, lawful under the CHECKs the table came with, carries a reason; the next statement drops the audit columns, it commits, and the reason is gone. |
| `TerminalArbitrationScript.InstallReceiptGate` | alembic/versions/4b8d2f6a1c90_add_terminal_arbitration_identity.py:1164-1184 | Installs or finds the receipt gate; on a gated database it changes nothing. |
| `TerminalArbitrationScript.EnsureInvocationsGate` | alembic/versions/4b8d2f6a1c90_add_terminal_arbitration_identity.py:1713-1739 | Installs or finds the agent-request gate; its refusals cannot fire. |
| `TerminalArbitrationScript.InstallAuxiliaryGates` | alembic/versions/4b8d2f6a1c90_add_terminal_arbitration_identity.py:1742-1781 | Installs the Task and LogEntry gates that the columns present call for. |
| `TerminalArbitrationScript.DropReceipts` | alembic/versions/4b8d2f6a1c90_add_terminal_arbitration_identity.py:1187-1199 | Drops the receipt table behind its gate; no rejection is possible. |
| `TerminalArbitrationScript.DowngradeInvocations` | alembic/versions/4b8d2f6a1c90_add_terminal_arbitration_identity.py:1784-1842 | Brings the invocations back to v1 without audit columns, from any partial state, with no refusal reachable. |
| `TerminalArbitrationScript.DowngradeAuxiliary` | alembic/versions/4b8d2f6a1c90_add_terminal_arbitration_identity.py:1845-1889 | Drops the gated provenance columns, each with its gate in one ALTER. |
| `TerminalArbitrationScript.FinishDowngrade` | alembic/versions/4b8d2f6a1c90_add_terminal_arbitration_identity.py:1892-1928 | Releases the last gate onto exactly the legacy schema. |
| `TerminalArbitrationScript.GatedPassesPreflight` | alembic/versions/4b8d2f6a1c90_add_terminal_arbitration_identity.py:384-444 | Behind the gates no query of the downgrade preflight can find a row. |
| `TerminalArbitrationScript.PreflightFindsConflicts` | alembic/versions/4b8d2f6a1c90_add_terminal_arbitration_identity.py:384-444 | The downgrade preflight passes exactly when there is no audited agent request, no Task or LogEntry provenance value and no receipt, whatever else the rows hold. |
| `TerminalArbitrationScript.Downgrade` | alembic/versions/4b8d2f6a1c90_add_terminal_arbitration_identity.py:2073-2124 | An attempt from any reachable schema ends on the legacy schema, named column by column, by a crash, or because one of four rows stands: an invocation whose source is 'agent_request', a Task with a turn source, a LogEntry with a scope or transport, or a receipt. The preflight refuses exactly when such a row was there at the start. The gates stay once all are in; it commits exactly the distance it covers; no "incomplete" or "cannot release" refusal is reachable. |
| `TerminalArbitrationScript.UpgradeInvocations` | alembic/versions/4b8d2f6a1c90_add_terminal_arbitration_identity.py:1548-1646 | From any reachable schema to v2 with its key, no shadow and no gate; rejection only while phase one is owed. |
| `TerminalArbitrationScript.UpgradeAuxiliary` | alembic/versions/4b8d2f6a1c90_add_terminal_arbitration_identity.py:1649-1703 | Adds the provenance columns and CHECKs before it releases the gates a downgrade left. |
| `TerminalArbitrationScript.EnsureReceipts` | alembic/versions/4b8d2f6a1c90_add_terminal_arbitration_identity.py:1133-1153 | Creates the receipt table or the indexes it lacks, in either order. |
| `TerminalArbitrationScript.SchemaGuarded` | alembic/versions/4b8d2f6a1c90_add_terminal_arbitration_identity.py:1472-1518 | Every reachable schema has an enforced identity guard. |
| `TerminalArbitrationScript.SettledPassesPreflight` | alembic/versions/4b8d2f6a1c90_add_terminal_arbitration_identity.py:308-339 | After phase one no query of the upgrade preflight can find a row. |
| `TerminalArbitrationScript.UpgradePreflightFindsConflicts` | alembic/versions/4b8d2f6a1c90_add_terminal_arbitration_identity.py:308-339 | The upgrade preflight passes exactly when no agent request stands without the audit columns and identity, and no two invocations of one Task share an output log. |
| `TerminalArbitrationScript.Upgrade` | alembic/versions/4b8d2f6a1c90_add_terminal_arbitration_identity.py:1999-2025 | An attempt from any reachable schema ends on the current schema, named column by column, by a crash, before a fenced receipt table, or, phase one being owed, because such an agent request or such a pair stands; the preflight refuses exactly when one was there at the start; phase one stays done, and from then on every unfenced attempt gets through or dies. |
| `TerminalArbitrationAttempts.Attempt` | alembic/versions/4b8d2f6a1c90_add_terminal_arbitration_identity.py:1999-2124 | Over any sequence of attempts in both directions, with writers before, in and between them, no event loses anything, and a refused attempt met a row that its queries look for, named by its columns; downgrades alone commit the distance covered, at most eleven statements, one that comes through leaves the legacy schema for good, and from gated start none is refused. |
| `OutboxMigration.RunLosesNothing` | alembic/versions/7c1e4a9d2f60_add_capability_resume_outbox.py:1012-1100 | Over every interleaving no outbox row is dropped, no invocation goes, and no field of an agent request is lost. |
| `OutboxMigration.RequestsDecideV3` | alembic/versions/7c1e4a9d2f60_add_capability_resume_outbox.py:1021-1028 | On the old identity the v3 ALTER commits exactly when there is no agent request. |
| `OutboxMigration.QueriesDecideGates` | alembic/versions/7c1e4a9d2f60_add_capability_resume_outbox.py:1058-1074 | Each downgrade gate installs exactly when its emptiness query finds nothing. |
| `OutboxMigration.RejectedDowngradeFindsRow` | alembic/versions/7c1e4a9d2f60_add_capability_resume_outbox.py:1046-1100 | Whatever gates an earlier attempt left, a downgrade statement is rejected only while an emptiness query finds a row. |
| `OutboxMigration.RejectedUpgradeFindsRow` | alembic/versions/7c1e4a9d2f60_add_capability_resume_outbox.py:1012-1043 | An upgrade statement is rejected only on the old identity with an agent request there. |
| `OutboxMigration.QueriesFindRows` | alembic/versions/7c1e4a9d2f60_add_capability_resume_outbox.py:377-457 | The emptiness queries find something exactly when the outbox has a row or an invocation has the source agent_request. |
| `OutboxMigration.FencedIsSafe` | alembic/versions/7c1e4a9d2f60_add_capability_resume_outbox.py:1079-1081 | Behind both gates neither emptiness query can find a row. |
| `OutboxMigration.FencedCommits` | alembic/versions/7c1e4a9d2f60_add_capability_resume_outbox.py:1081-1093 | Behind both gates no statement can be rejected. |
| `OutboxMigration.FencedRunStaysFenced` | alembic/versions/7c1e4a9d2f60_add_capability_resume_outbox.py:1046-1100 | Once both gates are in, writers, crashes and re-runs of the downgrade never lose them short of the old identity. |
| `OutboxMigration.LaterUpgradeCommits` | alembic/versions/7c1e4a9d2f60_add_capability_resume_outbox.py:1035-1043 | After the identity swap nothing can make the rest of the upgrade fail. |
| `OutboxMigration.NewRunStaysNew` | alembic/versions/7c1e4a9d2f60_add_capability_resume_outbox.py:1012-1043 | Once the v3 identity is in, writers, crashes and re-runs of the upgrade never undo it. |
| `OutboxMigration.TerminalLogsAreUnique` | alembic/versions/7c1e4a9d2f60_add_capability_resume_outbox.py:1021-1033 | Off the old identity no two invocations of a Task name the same terminal log, in every reachable state. |
| `OutboxMigration.AgentRowsExact` | alembic/versions/7c1e4a9d2f60_add_capability_resume_outbox.py:40-60 | Off the old identity every agent request has the v3 identity as TRUE and not merely UNKNOWN. |
| `OutboxMigration.Downgrade` | alembic/versions/7c1e4a9d2f60_add_capability_resume_outbox.py:1046-1100 | An attempt from any reachable schema ends on the old one, named column by column, by a crash, or because an outbox row or an agent request stands before both gates are in; the emptiness check refuses exactly when one was there. Both gates stay once in; the "retains partial state" and "incomplete" refusals are unreachable. |
| `OutboxMigration.Upgrade` | alembic/versions/7c1e4a9d2f60_add_capability_resume_outbox.py:1012-1043 | An attempt ends complete, named column by column, by a crash, on a row gate, or on an agent request under the old identity, which the check refuses exactly when it is there; the v3 identity stays, so absent such a request re-runs converge; a capability gate a downgrade left is still there afterwards exactly when it was there before. |
| `OutboxMigration.LeftGateWitness` | alembic/versions/7c1e4a9d2f60_add_capability_resume_outbox.py:1012-1100 | A downgrade that dies after its first statement leaves a database with the capability gate in force on which no upgrade issues anything. |
| `OutboxMigration.ExactLossIsExact` | alembic/versions/7c1e4a9d2f60_add_capability_resume_outbox.py:1083-1093 | Going back to v2 keeps every value exactly when no row has an exact identity. |
| `OutboxMigration.ExactLossWitness` | alembic/versions/7c1e4a9d2f60_add_capability_resume_outbox.py:1083-1093 | Behind both gates a person's request, lawful under the CHECKs the table came with, has an incarnation; the last statement commits and drops it. |
| `DestroyLifecycle.GateAdmitsUnblocked` | alembic/versions/b4e1c7d9f203_add_worker_destroy_lifecycle_nonce.py:36-41 | The writer gate admits a row exactly when its status is set and the blocker query does not select it. |
| `DestroyLifecycle.BlockersAre` | alembic/versions/b4e1c7d9f203_add_worker_destroy_lifecycle_nonce.py:363-387 | The blocker query finds something exactly when a worker has a nonce or a receipt, or is being destroyed by status or bootstrap step. |
| `DestroyLifecycle.PreflightDecidesGate` | alembic/versions/b4e1c7d9f203_add_worker_destroy_lifecycle_nonce.py:363-387 | With NOT NULL status the gate can be installed exactly when the query finds nothing. |
| `DestroyLifecycle.GateMeetsUnblocked` | alembic/versions/b4e1c7d9f203_add_worker_destroy_lifecycle_nonce.py:363-387 | The rows meet the gate exactly when the query finds nothing and every worker has a status. |
| `DestroyLifecycle.RunLosesNothing` | alembic/versions/b4e1c7d9f203_add_worker_destroy_lifecycle_nonce.py:403-483 | Over every interleaving no worker, destroy nonce or receipt is lost between a check and the drop. |
| `DestroyLifecycle.GatedHasNoBlocker` | alembic/versions/b4e1c7d9f203_add_worker_destroy_lifecycle_nonce.py:447-483 | Behind the gate the second query finds nothing. |
| `DestroyLifecycle.Upgrade` | alembic/versions/b4e1c7d9f203_add_worker_destroy_lifecycle_nonce.py:425-444 | From every partial column set the upgrade ends with both columns and no gate, or by a crash; it refuses exactly where a gate is in. |
| `DestroyLifecycle.Downgrade` | alembic/versions/b4e1c7d9f203_add_worker_destroy_lifecycle_nonce.py:447-483 | From the columns, from a gate a crash left, or from nothing. It refuses half of the columns; with both it refuses exactly when a worker has a nonce or a receipt, or is being destroyed by status or bootstrap step. A rejection finds such a worker or one without a status, never behind the gate; the closing refusals are unreachable. |
| `BaseRefMigration.Step` | alembic/versions/2b8d4f6a1c90_freeze_pr_review_base_ref.py:97-343 | From every reachable schema the next upgrade statement is accepted and keeps some subject key and some queue key enforced. |
| `BaseRefMigration.Progress` | alembic/versions/2b8d4f6a1c90_freeze_pr_review_base_ref.py:346-352 | Every committed schema statement brings the upgrade nearer the frozen schema. |
| `BaseRefMigration.RowsDecide` | alembic/versions/2b8d4f6a1c90_freeze_pr_review_base_ref.py:238-343 | A statement fails only for a NULL base ref when the column is frozen, or for queue rows that collide under the new queue key; the wider subject key never fails. |
| `BaseRefMigration.BackfillCommits` | alembic/versions/2b8d4f6a1c90_freeze_pr_review_base_ref.py:123-136 | The back-fill commits on every table. |
| `BaseRefMigration.BackfillDecidesFreeze` | alembic/versions/2b8d4f6a1c90_freeze_pr_review_base_ref.py:123-205 | After the back-fill the column can be frozen exactly when no NULL review lacks a default branch. |
| `BaseRefMigration.BackfillFills` | alembic/versions/2b8d4f6a1c90_freeze_pr_review_base_ref.py:123-136 | The back-fill writes the default branch of the repository that the repo_id names where there was none, and nothing else. |
| `BaseRefMigration.NoBadBranchIs` | alembic/versions/2b8d4f6a1c90_freeze_pr_review_base_ref.py:139-180 | The check passes exactly when every base ref is text of 1 to 200 characters without NUL, line feed or carriage return. |
| `BaseRefMigration.RunKeepsBaseRefs` | alembic/versions/2b8d4f6a1c90_freeze_pr_review_base_ref.py:346-352 | Over every interleaving no row goes and a base ref already written is never changed. |
| `BaseRefMigration.SubjectsStayUnique` | alembic/versions/2b8d4f6a1c90_freeze_pr_review_base_ref.py:208-273 | In every reachable state no two reviews share repository, number, base ref, base and head, said of the five values themselves. |
| `BaseRefMigration.EnsureColumn` | alembic/versions/2b8d4f6a1c90_freeze_pr_review_base_ref.py:97-120 | Ends with the column present or by a crash. |
| `BaseRefMigration.FreezeColumn` | alembic/versions/2b8d4f6a1c90_freeze_pr_review_base_ref.py:123-205 | Unless it dies the back-fill runs: a review without a base ref gets the default branch of the repository its repo_id names, and stays NULL only without one. Whatever freezes the column or fails to has first seen a state in which every base ref is one line of 1 to 200 characters; otherwise it stops there. A rejection means a NULL that a writer put in later. |
| `BaseRefMigration.SwapSubjectKey` | alembic/versions/2b8d4f6a1c90_freeze_pr_review_base_ref.py:238-273 | Adds the wider key before it drops the narrow one; neither can fail. |
| `BaseRefMigration.SwapQueueKey` | alembic/versions/2b8d4f6a1c90_freeze_pr_review_base_ref.py:308-343 | Swaps the queue key, or stops at queue rows that collide under the new one. |
| `BaseRefMigration.CollisionIs` | alembic/versions/2b8d4f6a1c90_freeze_pr_review_base_ref.py:308-343 | The new queue key fails exactly when two queue rows have the same run and the same review, neither NULL. |
| `BaseRefMigration.Upgrade` | alembic/versions/2b8d4f6a1c90_freeze_pr_review_base_ref.py:346-352 | An attempt from any reachable schema ends frozen or by a crash, or, the back-fill done, on a review without a good branch, or, every branch having been good, on a review left without one or queue rows that collide under the new key; without such rows re-runs converge. |
| `BaseRefDowngrade.MissingColumnIsLegacy` | alembic/versions/2b8d4f6a1c90_freeze_pr_review_base_ref.py:451-463 | Without the column exactly the legacy keys stand, so the replay branch never refuses for its keys. |
| `BaseRefDowngrade.SubjectChangeStep` | alembic/versions/2b8d4f6a1c90_freeze_pr_review_base_ref.py:399-421 | With no review left the subject keys can be swapped back and the column dropped without a rejection. |
| `BaseRefDowngrade.Downgrade` | alembic/versions/2b8d4f6a1c90_freeze_pr_review_base_ref.py:466-491 | The fenced downgrade from any reachable schema dies, restores the legacy columns and keys, stops at a nullable column or at reviews, each exactly when they are there, or at two queue rows with the same run and trigger head; it changes no row. |
| `TaskMigrationsTable.GatedIsEmpty` | alembic/versions/a3d9b5f7c1e4_add_task_migration_operations.py:28-29 | The gate contradicts the primary key: a fenced table is empty and stays empty. |
| `TaskMigrationsTable.EmptinessDecidesGate` | alembic/versions/a3d9b5f7c1e4_add_task_migration_operations.py:485-495 | The gate can be installed exactly on an empty table. |
| `TaskMigrationsTable.RunLosesNothing` | alembic/versions/a3d9b5f7c1e4_add_task_migration_operations.py:517-550 | Over every interleaving no statement discards an operation. |
| `TaskMigrationsTable.Upgrade` | alembic/versions/a3d9b5f7c1e4_add_task_migration_operations.py:498-514 | Ends with the ungated canonical table or by a crash; it refuses exactly where a gate is in. |
| `TaskMigrationsTable.Downgrade` | alembic/versions/a3d9b5f7c1e4_add_task_migration_operations.py:517-550 | Takes up a gate a crash left and cannot be refused behind it; it refuses exactly when an operation is recorded, and ends without the table. |
| `CheckNormal.UnchangedIffNormal` | alembic/versions/4b8d2f6a1c90_add_terminal_arbitration_identity.py:491-494 | Normalisation leaves a text unchanged exactly when it has no back-quote, capital, literal tag or untidy blank. |
| `CheckDressing.NormalMeans` | alembic/versions/4b8d2f6a1c90_add_terminal_arbitration_identity.py:491-494 | Such a text, character by character: single inner blanks for white space, no back-quote, no capital, and no underscore, small letters or digits and white space before a quote. |
| `CheckDressing.CaseVanishes` | alembic/versions/4b8d2f6a1c90_add_terminal_arbitration_identity.py:491-494 | A text in which any letters are replaced by their capitals normalises as before, so every re-casing of an unchanged text comes back to it. |
| `CheckDressing.BackquoteVanishes` | alembic/versions/4b8d2f6a1c90_add_terminal_arbitration_identity.py:491-494 | A back-quote inserted anywhere makes no difference. |
| `CheckDressing.RunLengthVanishes` | alembic/versions/4b8d2f6a1c90_add_terminal_arbitration_identity.py:491-494 | A run of white space may be replaced by any other, wherever it stands. |
| `CheckDressing.EndsVanish` | alembic/versions/4b8d2f6a1c90_add_terminal_arbitration_identity.py:491-494 | White space at the ends makes no difference. |
| `CheckDressing.IntroducerVanishes` | alembic/versions/4b8d2f6a1c90_add_terminal_arbitration_identity.py:491-494 | A character-set introducer inserted before a quote that has none makes no difference. |
| `CheckDressing.DressedPrintReads` | alembic/versions/4b8d2f6a1c90_add_terminal_arbitration_identity.py:547-565 | A printed tree is read back from every text that normalises to its print. |
| `CheckDressing.CompactIsDense` | alembic/versions/4b8d2f6a1c90_add_terminal_arbitration_identity.py:560-565 | An atom keeps its characters other than white space, in order. |
| `CheckDressing.KeywordIsDropped` | alembic/versions/7c1e4a9d2f60_add_capability_resume_outbox.py:561-572 | The word check in front of an unchanged text makes no difference to the outbox reader. |
| `CheckNormal.NormalSubstring` | alembic/versions/4b8d2f6a1c90_add_terminal_arbitration_identity.py:547-556 | A trimmed part of an unchanged text is unchanged, so normalising the parts again does nothing. |
| `CheckNormal.NormalizeShortens` | alembic/versions/4b8d2f6a1c90_add_terminal_arbitration_identity.py:491-494 | Normalising never lengthens a text, which is why the recursion ends. |
| `CheckReaders.NormalisationsAgree` | alembic/versions/7c1e4a9d2f60_add_capability_resume_outbox.py:505-508 | The two migrations normalise every text alike, though they trim and lower in another order. |
| `CheckReaders.NormalizeIsNotIdempotent` | alembic/versions/4b8d2f6a1c90_add_terminal_arbitration_identity.py:493 | A concrete literal that every pass shortens once more. |
| `CheckText.ClosesAtEnd` | alembic/versions/4b8d2f6a1c90_add_terminal_arbitration_identity.py:499-516 | The first scan stops at the first close to depth 0 and holds exactly when the outer pair encloses the text. |
| `CheckText.Balances` | alembic/versions/7c1e4a9d2f60_add_capability_resume_outbox.py:513-529 | The second scan, which stops elsewhere, decides the same. |
| `CheckText.StripBalancedOuterParentheses` | alembic/versions/4b8d2f6a1c90_add_terminal_arbitration_identity.py:497-517 | Removes exactly the enclosing pairs, and the blanks inside them. |
| `CheckText.StripOuterParentheses` | alembic/versions/7c1e4a9d2f60_add_capability_resume_outbox.py:511-531 | The other implementation removes exactly the same on every string. |
| `CheckText.SplitTopLevel` | alembic/versions/4b8d2f6a1c90_add_terminal_arbitration_identity.py:520-544 | Cuts at the leftmost non-overlapping operators outside quotes and parentheses and trims the pieces. |
| `CheckText.CutIsUnique` | alembic/versions/4b8d2f6a1c90_add_terminal_arbitration_identity.py:520-544 | The pieces are the one list that rebuilds the text when joined with the operator and hides no further place to cut. |
| `CheckText.ScanCounts` | alembic/versions/4b8d2f6a1c90_add_terminal_arbitration_identity.py:503-518 | The quote flag is the parity of the quotes before, and the depth the opening less the closing parentheses outside quotes. |
| `CheckShape.CutsAreOperators` | alembic/versions/4b8d2f6a1c90_add_terminal_arbitration_identity.py:547-556 | A cut falls exactly at " or " or " and " outside literals and with all parentheses before it closed. |
| `CheckShape.ReadingsAgree` | alembic/versions/4b8d2f6a1c90_add_terminal_arbitration_identity.py:547-560 | On unchanged text every reading of the grammar, whatever the order of its binary cuts, means what the shape evaluates to, under any three-valued valuation of the compacted atoms. |
| `CheckShape.EveryTextReads` | alembic/versions/4b8d2f6a1c90_add_terminal_arbitration_identity.py:547-560 | Every unchanged text has such a reading. |
| `CheckShape.CutDividesPieces` | alembic/versions/4b8d2f6a1c90_add_terminal_arbitration_identity.py:520-544 | A cut at any operator that no earlier one overlaps divides the pieces in two. |
| `CheckShape.EnclosedHasNoTop` | alembic/versions/4b8d2f6a1c90_add_terminal_arbitration_identity.py:547-556 | An enclosed text has no operator at the top level, so it does not matter that the parentheses go first. |
| `CheckShape.ShapeOfOpen` | alembic/versions/4b8d2f6a1c90_add_terminal_arbitration_identity.py:547-560 | OR is cut before AND, and only a text with neither is an atom. |
| `CheckPrint.ShapeOfPrint` | alembic/versions/4b8d2f6a1c90_add_terminal_arbitration_identity.py:547-560 | Printing any AND/OR tree and taking the shape gives the tree back, less the blanks inside its atoms; an atom may hold blanks, quotes and parentheses but no operator word of its own at the top level. |
| `CheckPrint.ConjunctionIsClear` | alembic/versions/4b8d2f6a1c90_add_terminal_arbitration_identity.py:520-544 | A printed conjunction hides no OR, not even across the seam of a neighbouring operator. |
| `CheckReaders.ReadersAgree` | alembic/versions/7c1e4a9d2f60_add_capability_resume_outbox.py:561-572 | Where the word "check" does not occur the keyword-dropping reader takes the same shape. |
| `TerminationReceipts.NoCheckIsUnknown` | alembic/versions/4b8d2f6a1c90_add_terminal_arbitration_identity.py:87-213 | With NOT NULL columns set no CHECK on a termination receipt is ever UNKNOWN. |
| `TerminationReceipts.AdmittedIffLawful` | alembic/versions/4b8d2f6a1c90_add_terminal_arbitration_identity.py:87-213 | The CHECKs admit exactly the receipts of a table of eleven side/status stages, with what each needs, in timeline order. |
| `TerminationReceipts.SettledReceipt` | alembic/versions/4b8d2f6a1c90_add_terminal_arbitration_identity.py:101-213 | A settled receipt is the manager's, digested, and passed acceptance, completion, intent and acknowledgement in that order, all recorded. |
| `TerminationReceipts.OneOpenReceiptPerTask` | alembic/versions/4b8d2f6a1c90_add_terminal_arbitration_identity.py:737-741 | At most one receipt of a Task is open. |
| `OutboxRows.UnknownIff` | alembic/versions/7c1e4a9d2f60_add_capability_resume_outbox.py:63-204 | Of the thirteen outbox CHECKs three can be UNKNOWN, each exactly on the rows described. |
| `OutboxRows.AdmittedIffLawful` | alembic/versions/7c1e4a9d2f60_add_capability_resume_outbox.py:63-204 | The thirteen CHECKs admit exactly the rows of one shape per status, and besides them the rows an undecided comparison lets through. |
| `OutboxRows.ResultUnknownIff` | alembic/versions/7c1e4a9d2f60_add_capability_resume_outbox.py:91-109 | The result CHECK is undecided exactly on a coherent result without a terminal status. |
| `OutboxRows.ClaimUnknownIff` | alembic/versions/7c1e4a9d2f60_add_capability_resume_outbox.py:126-144 | The claim CHECK is undecided exactly on a claim without a turn generation. |
| `OutboxRows.TransportUnknownIff` | alembic/versions/7c1e4a9d2f60_add_capability_resume_outbox.py:170-185 | The transport CHECK is undecided exactly on a launch without a transport. |
| `OutboxRows.ResumableRow` | alembic/versions/7c1e4a9d2f60_add_capability_resume_outbox.py:116-125 | A resumable row carries its payload and a tight result. |
| `OutboxRows.LaunchedRow` | alembic/versions/7c1e4a9d2f60_add_capability_resume_outbox.py:126-204 | A launched row has its claim and launch in order; generation and transport are right or missing. |
| `OutboxRows.GapWitness` | alembic/versions/7c1e4a9d2f60_add_capability_resume_outbox.py:126-185 | A completed row that every CHECK admits with neither generation nor transport. |
| `OutboxRows.ResultGapWitness` | alembic/versions/7c1e4a9d2f60_add_capability_resume_outbox.py:91-109 | A failed row with a result but no terminal status that all thirteen CHECKs admit. |
| `OutboxRows.OneActiveRow` | alembic/versions/7c1e4a9d2f60_add_capability_resume_outbox.py:81-90 | At most one active row per Task and per invocation. |
| `MigrationOperations.NoCheckIsUnknown` | alembic/versions/a3d9b5f7c1e4_add_task_migration_operations.py:60-100 | No CHECK of the operations table is ever UNKNOWN. |
| `MigrationOperations.AdmittedIffLawful` | alembic/versions/a3d9b5f7c1e4_add_task_migration_operations.py:60-100 | The nine CHECKs admit exactly the lawful operations: hex ids, route and phase of the side, slot of the phase. |
| `MigrationOperations.TableMeans` | alembic/versions/a3d9b5f7c1e4_add_task_migration_operations.py:60-110 | A table can hold exactly lawful operations with distinct ids, active Tasks and sequence numbers per Task. |
| `MigrationOperations.OneMigrationInFlight` | alembic/versions/a3d9b5f7c1e4_add_task_migration_operations.py:464-472 | Over any history of writes a Task has at most one migration in flight. |
| `DeliveryStages.LegacyIffWidenedAndLeft` | alembic/versions/a7d4e9c2f610_add_delivery_frontend_review_stage.py:35-44 | The legacy CHECKs hold exactly where the widened ones hold and nothing is in frontend_review. |
| `DeliveryStages.LegacyMeans` | alembic/versions/a7d4e9c2f610_add_delivery_frontend_review_stage.py:35-44 | What the legacy CHECKs admit, status by status, with the active run exactly on the open ones. |
| `DeliveryStages.WidenedAdmitsStage` | alembic/versions/a7d4e9c2f610_add_delivery_frontend_review_stage.py:35-44 | The widened CHECKs admit that, and frontend_review with its active run, and nothing else. |
| `DeliveryStages.KeysMean` | alembic/versions/9e5b2a7c4d10_add_delivery_loop_state.py:417-447 | What the three UNIQUE keys of a cycle compare, with NULL never equal. |
| `DeliveryStages.Tables.Upgrade` | alembic/versions/a7d4e9c2f610_add_delivery_frontend_review_stage.py:47-83 | Widening keeps every row and cannot fail on one. |
| `DeliveryStages.Tables.Downgrade` | alembic/versions/a7d4e9c2f610_add_delivery_frontend_review_stage.py:86-133 | Narrowing is refused exactly while something is in the stage; otherwise only the stage evidence goes. |
| `DeliveryStages.EvidenceLossIsExact` | alembic/versions/a7d4e9c2f610_add_delivery_frontend_review_stage.py:47-133 | A downgrade that is not refused, followed by the upgrade, gives back every row exactly when no cycle has evidence of the stage. |
| `DeliveryStages.EvidenceLossWitness` | alembic/versions/a7d4e9c2f610_add_delivery_frontend_review_stage.py:86-113 | A cycle that has left the stage keeps a run and a verdict; no query looks at them and the downgrade drops them. |
| `DeliveryStages.OneActiveCycleEver` | alembic/versions/9e5b2a7c4d10_add_delivery_loop_state.py:417-447 | Over any history of writes, widenings and narrowings a run never has two active cycles. |
| `TaskIds.Database.Upgrade` | alembic/versions/9e5b2a7c4d10_add_delivery_loop_state.py:707-711 | No grant names a Task id above the Task mark, nor does a live Task or a received share; the share mark bounds the received ids and those live Tasks were shared from; a positive mark is one of these ids, so that afterwards exactly the ids above all of them can be issued. The marks are taken before the purge. |
| `TaskIds.Database.Rearbitrate` | alembic/versions/4b8d2f6a1c90_add_terminal_arbitration_identity.py:1938-1948 | The id mark survives the rebuild of the Task table. |
| `TaskIds.IssuedAscends` | alembic/versions/4b8d2f6a1c90_add_terminal_arbitration_identity.py:447-488 | Every id issued, over any history of inserts, deletes and rebuilds, is above the mark and above every id issued before it. |
| `TaskIds.IssuedIffAboveMark` | alembic/versions/9e5b2a7c4d10_add_delivery_loop_state.py:60-79 | Some history issues an id exactly when it is above the mark. |
| `TaskIds.NeverIssuedTwice` | alembic/versions/4b8d2f6a1c90_add_terminal_arbitration_identity.py:447-488 | No history issues the same id twice. |
| `TaskIds.IssuableIffAboveMentioned` | alembic/versions/9e5b2a7c4d10_add_delivery_loop_state.py:20-38 | After the upgrade an id can be issued exactly when it is above every id mentioned before. |
| `TaskIds.IssuableTasks` | alembic/versions/9e5b2a7c4d10_add_delivery_loop_state.py:20-38 | The same for Tasks, with the mentioned ids named one by one: live Tasks, the Tasks of the grants, and the local Tasks of received shares. |
| `TaskIds.IssuableShares` | alembic/versions/9e5b2a7c4d10_add_delivery_loop_state.py:41-57 | The same for received shares: their ids and those live Tasks were shared from. |
| `TaskIds.ForgottenIdComesBack` | alembic/versions/9e5b2a7c4d10_add_delivery_loop_state.py:20-38 | An id deleted without a trace before the upgrade, above everything left, does come back. |
| `TaskIds.KeptGrant` | alembic/versions/9e5b2a7c4d10_add_delivery_loop_state.py:82-98 | A grant survives exactly when its Task is live and not known to be newer than it. |
| `HexText.HexCheckIff` | alembic/versions/a3d9b5f7c1e4_add_task_migration_operations.py:53-57 | The nested-REPLACE CHECK is TRUE exactly on lower-case hex of its length and UNKNOWN only on NULL. |
| `HexText.BootIdCheckIff` | alembic/versions/8d2f5b7a1c90_add_plan_runtime_receipts.py:28-36 | The boot-id CHECK is TRUE exactly on lower-case 8-4-4-4-12 text. |
| `HexText.StrippedIsOthers` | alembic/versions/a6e4c2d9f810_add_worker_plan_dispatch_receipts.py:20-26 | The nested replacements leave exactly the characters that are no hex digit, in order. |
| `PlanReceipts.CleanedIffStatus` | alembic/versions/8d2f5b7a1c90_add_plan_runtime_receipts.py:72-91 | No receipt CHECK is ever UNKNOWN, and the downgrade guard passes exactly the admitted receipts whose status is cleaned. |
| `PlanReceipts.AdmittedIffLawful` | alembic/versions/8d2f5b7a1c90_add_plan_runtime_receipts.py:39-91 | The receipt CHECKs admit exactly the receipts of five stages, with process and Codex identity as the provider and stage call for. |
| `PlanReceipts.AggregatesIffGapless` | alembic/versions/8d2f5b7a1c90_add_plan_runtime_receipts.py:346-353 | MIN = 1 and COUNT = MAX over distinct attempts hold exactly when they are 1..n. |
| `PlanReceipts.CountIsAttempts` | alembic/versions/8d2f5b7a1c90_add_plan_runtime_receipts.py:227-231 | UNIQUE (step, attempt) makes COUNT the number of distinct attempts. |
| `PlanReceipts.CountIs` | alembic/versions/8d2f5b7a1c90_add_plan_runtime_receipts.py:346-353 | The attempts of a Step have no gap exactly when, for some n, each of 1 to n and nothing else is the attempt of one of its receipts. |
| `PlanReceipts.MalformedIffGap` | alembic/versions/8d2f5b7a1c90_add_plan_runtime_receipts.py:346-353 | The HAVING clause selects a step exactly when its attempts have a gap. |
| `PlanReceipts.CancellationIff` | alembic/versions/8d2f5b7a1c90_add_plan_runtime_receipts.py:92-98 | The cancellation CHECK is never UNKNOWN and ties a target generation to the run it cancels. |
| `PlanReceipts.UnsafeRunIff` | alembic/versions/8d2f5b7a1c90_add_plan_runtime_receipts.py:120-136 | The first query finds a Worker run exactly when it is not over or no longer belongs to the Worker of its plan, NULLs included. |
| `PlanReceipts.UnsafeStepIff` | alembic/versions/8d2f5b7a1c90_add_plan_runtime_receipts.py:143-160 | The second query finds a Step exactly when it is not over or its Worker fields are not those of its run. |
| `PlanReceipts.FilledIsCleaned` | alembic/versions/8d2f5b7a1c90_add_plan_runtime_receipts.py:287-305 | A back-filled receipt meets every CHECK and the cleaned shape. |
| `PlanReceipts.FilledRecords` | alembic/versions/8d2f5b7a1c90_add_plan_runtime_receipts.py:271-310 | Every field of a back-filled receipt, said of the Step it is made from. |
| `PlanReceipts.Tables.BackFill` | alembic/versions/8d2f5b7a1c90_add_plan_runtime_receipts.py:271-310 | The batches of a thousand insert exactly one receipt per local step, and no INSERT fails. |
| `PlanReceipts.Tables.Upgrade` | alembic/versions/8d2f5b7a1c90_add_plan_runtime_receipts.py:108-322 | Refused exactly when a run is cancelling or a Worker run or a Step is not over, all said of the fields; otherwise back-filled field by field, with runs and steps as they were. |
| `PlanReceipts.Tables.Downgrade` | alembic/versions/8d2f5b7a1c90_add_plan_runtime_receipts.py:325-397 | Refused exactly when a receipt is not cleaned or is unlike its Step or run, the attempts of a Step are not 1..n, a local Step has no receipt, or a run has a target generation, all said of the fields; otherwise receipts and targets go and nothing else. |
| `PlanReceipts.UncleanIff` | alembic/versions/8d2f5b7a1c90_add_plan_runtime_receipts.py:325-384 | On rows the constraints hold of, the five queries find something exactly when some row is not accounted for. |
| `PlanReceipts.FilledIsClean` | alembic/versions/8d2f5b7a1c90_add_plan_runtime_receipts.py:325-384 | Whatever the upgrade accepts and fills gives the five queries of the downgrade nothing. |
| `PlanReceipts.Tables.UpAndDown` | alembic/versions/8d2f5b7a1c90_add_plan_runtime_receipts.py:108-397 | Up and down again: what the upgrade accepts the downgrade accepts, and plans, runs, steps, receipts and targets are as they were. |
| `WorkerDispatch.SettledIffProven` | alembic/versions/a6e4c2d9f810_add_worker_plan_dispatch_receipts.py:30-47 | The settled shape is TRUE exactly on receipts with the evidence their reason calls for. |
| `WorkerDispatch.StateUnknownIff` | alembic/versions/a6e4c2d9f810_add_worker_plan_dispatch_receipts.py:48-56 | The state CHECK is UNKNOWN exactly on the receipts described. |
| `WorkerDispatch.AdmittedIff` | alembic/versions/a6e4c2d9f810_add_worker_plan_dispatch_receipts.py:48-56 | What the table can hold: prepared, launched, proven and undecided receipts. |
| `WorkerDispatch.UnprovenWitness` | alembic/versions/a6e4c2d9f810_add_worker_plan_dispatch_receipts.py:48-56 | A settled receipt without a reason gets in, and the downgrade refuses it. |
| `WorkerDispatch.UnsafeStepIff` | alembic/versions/a6e4c2d9f810_add_worker_plan_dispatch_receipts.py:75-88 | The Step query finds exactly the mismatched Steps of Worker runs, save that a run without a plan leaves the plan comparison UNKNOWN. |
| `WorkerDispatch.Tables.BackFill` | alembic/versions/a6e4c2d9f810_add_worker_plan_dispatch_receipts.py:196-236 | Every batch is taken; one proven receipt per Worker run. |
| `WorkerDispatch.FilledRecords` | alembic/versions/a6e4c2d9f810_add_worker_plan_dispatch_receipts.py:196-236 | Every field of a back-filled receipt, said of the run it is made from; the remote status is the one its ended status calls for. |
| `WorkerDispatch.Tables.Upgrade` | alembic/versions/a6e4c2d9f810_add_worker_plan_dispatch_receipts.py:59-236 | Refused exactly when a Worker run is not over, a Step of one does not match it, or a runtime receipt belongs to one, all said of the fields; otherwise one receipt per Worker run, settled for the status the run ended with. |
| `WorkerDispatch.RefusedIff` | alembic/versions/a6e4c2d9f810_add_worker_plan_dispatch_receipts.py:59-102 | The three queries find something exactly when some row is not over or does not match. |
| `WorkerDispatch.Tables.Downgrade` | alembic/versions/a6e4c2d9f810_add_worker_plan_dispatch_receipts.py:239-258 | Refused exactly when some receipt is not proven, UNKNOWN counting as not. |
| `WorkerDispatch.Tables.UpAndDown` | alembic/versions/a6e4c2d9f810_add_worker_plan_dispatch_receipts.py:59-258 | Up and down again: what the upgrade accepts the downgrade accepts, and every table is as it was. |
| `DuplicateHeads.Table.ClearDuplicateHeads` | alembic/versions/5f7a9c2e4d61_add_pr_review_base_sha_snapshot.py:104-141 | The nested loops compute the specification for the duplicate groups in any order. |
| `DuplicateHeads.HeadsAreUnique` | alembic/versions/5f7a9c2e4d61_add_pr_review_base_sha_snapshot.py:98-151 | Afterwards no two reviews of a repository and pull request have the same head. |
| `DuplicateHeads.OnlyOlderHeadsGo` | alembic/versions/5f7a9c2e4d61_add_pr_review_base_sha_snapshot.py:119-141 | No review goes; a head goes exactly where a newer review has it, and every other column, and every other head, is as before. |
| `DuplicateHeads.NewestKeepsHead` | alembic/versions/5f7a9c2e4d61_add_pr_review_base_sha_snapshot.py:113-123 | The highest id of every group keeps its head. |
| `CodexLogin.Home.Body` | scripts/codex_login.py:738-844 | While the body runs the old credential is in one of the two files at every step, an interrupt between the rename and the assignment of the backup path included; it succeeds only when, with the old credential moved aside, auth.json was there at some step, and gives up only for a reason it found. |
| `CodexLogin.Home.Obtain` | scripts/codex_login.py:747-832 | The body goes on to the smoke test only with auth.json there. |
| `CodexLogin.Home.Resolve` | scripts/codex_login.py:853-868 | Commits to the new credential or restores the old one under any exception, before or after it has taken effect, and never loses the old one short of the commit. |
| `CodexLogin.Home.Settle` | scripts/codex_login.py:846-868 | The finally clause commits, or puts the old state back if its rename or unlink takes place and no child outlives it; an orphaned backup it leaves alone. |
| `CodexLogin.Home.Login` | scripts/codex_login.py:703-872 | The old credential survives every step until the login commits or a child that outlives it writes again. A committed login saw auth.json present after the old one was moved aside, and its login child is gone. Without an outliving child the login ends committed with no backup, or orphaned, or, if the restoring rename or unlink takes place, exactly as it began. It raises exactly when something in it did, reports an error only for a reason it found, and otherwise is logged in. |
| `RuntimeLifecycle.Runtime.StartLocked` | backend/main.py:216-247 | A start that returns means both run; a rolled-back one that both are stopped; and the calls made, in order, are those of its ending. |
| `RuntimeLifecycle.Runtime.StopLocked` | backend/main.py:264-288 | A stop that returns means both are stopped; one not reported unrestorable leaves the resume producer running; the calls made are those of its ending. |
| `RuntimeLifecycle.Runtime.RestoreAfterStopFailure` | backend/main.py:195-213 | It always raises, and raises the stop error only with the producer running. |
| `RuntimeLifecycle.Runtime.Start` | backend/main.py:250-261 | A cancelled start has completed; a failure of the transition outranks the cancellation; and the calls made are those of the ending, so that no refusal is reported without the call that refused. |
| `RuntimeLifecycle.Runtime.Stop` | backend/main.py:291-302 | The same for a stop. |
| `RuntimeLifecycle.Serve` | backend/main.py:168 | Any sequence of serialised transitions, cancelled or not, keeps every promise, whatever state the one before left, and the calls on record are theirs, one transition after another. |

## Left out

- PostgreSQL, MariaDB and offline SQL of the migrations: reflection is taken to return the true schema; only the online MySQL path is modelled, and SQLite for ids, delivery tables and the base-ref downgrade.
- Comparisons of reflected column types, lengths, engines and primary keys: a table that differs from the managed shapes is not part of the schemas here.
- Constraints, columns and tables the migrations do not manage, and foreign keys with their cascades.
- Collation, padding, byte lengths and sized integer types: text is a sequence of characters, numbers are unbounded.
- White space and letter case outside ASCII in the CHECK reader (U+001C to U+001F are in it), where Python's `str` methods know more.
- The shape readers of the destroy-lifecycle and task-migration files, which repeat the outbox one.
- CHECKs of the receipt, outbox and operation tables inside the `Relational` engine: they are evaluated in their own modules, and the engine carries only the gates and identities the protocols turn on.
- RuntimeLifecycle.Serve: the lock is modelled as serialisation only, not fairness or the scheduling of tasks.
- TaskIds.Database.Upgrade: ids are positive and given by the table; inserts with an explicit id are not modelled, nor is the downgrade of that migration, which restores no mark.
- TaskIds.Database.Rearbitrate: an empty rebuild leaves no sequence row or a zero; a NULL sequence value is not modelled.
- PlanReceipts.FilledIsCleaned: the truncated digest of the step id is a parameter, taken to be 32 hex digits and injective.
- PlanReceipts.Tables.Upgrade: the upgrade and the downgrade are one transaction each, as on SQLite and PostgreSQL; their single statements on MySQL are not modelled.
- WorkerDispatch.Tables.Upgrade: the upgrade and the downgrade are one transaction each, as on SQLite and PostgreSQL; their single statements on MySQL are not modelled.
- DeliveryStages.Tables.Upgrade: each revision is one transaction, as on SQLite and PostgreSQL; the single statements on MySQL are not modelled.
- BaseRefDowngrade.Downgrade: the writer fence is taken to hold for the whole attempt; on MySQL the source refuses this downgrade.
- CodexLogin.Home.Login: a rename or unlink either happens or does not, no process but the login's own children touches the two files, of what an outliving child does only one further write is recorded, and polling, the browser and mail are arbitrary child steps.
- The single-column migrations, merges, and the downgrade of the delivery-loop tables: plain DDL that would only add easy members.
- Dispatcher, pools, relay and delivery controller: their source is not part of this model.
