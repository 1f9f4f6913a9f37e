/** alembic/versions/4b8d2f6a1c90_add_terminal_arbitration_identity.py, the online MySQL path:
    the schemas a run can meet, and the one statement it issues from each. */
module TerminalArbitration {
  import opened ThreeValued
  import opened Relational

  const PROVENANCE: set<Column> := {TurnScope, ActualTransport}
  const RECEIPT_INDEXES: set<IndexName> := {ReceiptTaskCreated, ReceiptDue, ReceiptWorkerStatus}

  const EMPTY_RECEIPTS := Table(
    {OperationId, TaskId, ActiveTaskId}, {OperationId, TaskId}, {}, {ActiveTaskKey}, {}, map[])

  // ---- The schemas of a run ----

  predicate InvocationsSchema(t: Table) {
    && {TaskId} + V1_COLUMNS <= t.columns
    && {TaskId, Source, Purpose, ResumePolicy} <= t.required <= t.columns - AUDIT
    && (AUDIT <= t.columns || AUDIT !! t.columns)
    && t.checks <= {CanonicalV1, CanonicalV2, ShadowV2, AgentGate}
    && (CanonicalV1 in t.checks <==> CanonicalV2 !in t.checks)
    && t.keys == (if AUDIT <= t.columns then {OutputLogKey} else {})
    && (HasV2Check(t) ==> AUDIT <= t.columns)
    && (AUDIT <= t.columns ==> HasV2Check(t) || AgentGate in t.checks)
  }

  predicate HasV2Check(t: Table) { CanonicalV2 in t.checks || ShadowV2 in t.checks }

  predicate TasksSchema(t: Table) {
    && t.required <= t.columns - {TurnSourceLogId}
    && t.keys == {} && t.checks <= {TaskGate}
    && (TaskGate in t.checks ==> TurnSourceLogId in t.columns)
  }

  predicate LogsSchema(t: Table) {
    && t.required <= t.columns - PROVENANCE && t.keys == {}
    && if PROVENANCE <= t.columns then {ScopeCheck, TransportCheck} <= t.checks <= {ScopeCheck, TransportCheck, LogGate}
       else PROVENANCE !! t.columns && t.checks == {}
  }

  predicate ReceiptsSchema(t: Table) {
    && t.columns == EMPTY_RECEIPTS.columns && t.required == EMPTY_RECEIPTS.required
    && t.keys == EMPTY_RECEIPTS.keys && t.indexes <= RECEIPT_INDEXES && t.checks <= {ReceiptGate}
  }

  predicate TableSchema(n: TableName, t: Table) {
    match n
    case Invocations => InvocationsSchema(t)
    case Tasks => TasksSchema(t)
    case LogEntries => LogsSchema(t)
    case _ => ReceiptsSchema(t)
  }

  /** Every schema that crashed and repeated runs, in either direction, can leave behind. */
  predicate Schema(db: Db) {
    && {Invocations, Tasks, LogEntries} <= db.Keys <= {Invocations, Tasks, LogEntries, TerminationReceipts}
    && forall n | n in db :: TableSchema(n, db[n])
  }

  predicate Legacy(db: Db)
    requires Schema(db)
  {
    && db[Invocations].checks == {CanonicalV1} && AUDIT !! db[Invocations].columns
    && TurnSourceLogId !in db[Tasks].columns && db[Tasks].checks == {}
    && PROVENANCE !! db[LogEntries].columns && db[LogEntries].checks == {}
    && TerminationReceipts !in db
  }

  predicate Current(db: Db)
    requires Schema(db)
  {
    && db[Invocations].checks == {CanonicalV2} && AUDIT <= db[Invocations].columns
    && db[Invocations].keys == {OutputLogKey}
    && TurnSourceLogId in db[Tasks].columns && db[Tasks].checks == {}
    && PROVENANCE <= db[LogEntries].columns && db[LogEntries].checks == {ScopeCheck, TransportCheck}
    && TerminationReceipts in db && db[TerminationReceipts].checks == {}
    && db[TerminationReceipts].indexes == RECEIPT_INDEXES
  }

  // ---- The statements ----

  const RemoveAudit := NoChange.(dropKeys := {OutputLogKey}, dropColumns := AUDIT)
  const AddTurnSource := NoChange.(addColumns := {TurnSourceLogId})
  const RemoveTurnSource := NoChange.(dropChecks := {TaskGate}, dropColumns := {TurnSourceLogId})
  const AddProvenance := NoChange.(addColumns := PROVENANCE, addChecks := {ScopeCheck, TransportCheck})
  const RemoveProvenance :=
    NoChange.(dropChecks := {TransportCheck, ScopeCheck, LogGate}, dropColumns := PROVENANCE)

  function Install(k: Check): Change { NoChange.(addChecks := {k}) }

  function Release(k: Check): Change { NoChange.(dropChecks := {k}) }

  function Swap(from: Check, to: Check): Change { NoChange.(dropChecks := {from}, addChecks := {to}) }

  /** Whatever phase one still lacks, in a single ALTER. */
  function PhaseOne(t: Table): Change {
    NoChange.(
      addColumns := AUDIT - t.columns,
      addKeys := {OutputLogKey} - t.keys,
      addChecks := if HasV2Check(t) then {} else {ShadowV2})
  }

  predicate PhaseOneOwed(t: Table) { !(AUDIT <= t.columns) || OutputLogKey !in t.keys || !HasV2Check(t) }

  predicate HasV2AuditSchema(t: Table) { AUDIT * t.columns != {} || HasV2Check(t) }

  /** The statement a downgrade issues from a schema: the first obligation not met yet. */
  function NextDowngrade(db: Db): (s: Nullable<Statement>)
    requires Schema(db)
  {
    var cap, tasks, logs := db[Invocations], db[Tasks], db[LogEntries];
    if TerminationReceipts in db && ReceiptGate !in db[TerminationReceipts].checks then
      Is(Alter(TerminationReceipts, Install(ReceiptGate)))
    else if HasV2AuditSchema(cap) && AgentGate !in cap.checks then Is(Alter(Invocations, Install(AgentGate)))
    else if TurnSourceLogId in tasks.columns && TaskGate !in tasks.checks then Is(Alter(Tasks, Install(TaskGate)))
    else if PROVENANCE <= logs.columns && LogGate !in logs.checks then Is(Alter(LogEntries, Install(LogGate)))
    else if TerminationReceipts in db then Is(Drop(TerminationReceipts))
    else if CanonicalV2 in cap.checks then Is(Alter(Invocations, Swap(CanonicalV2, CanonicalV1)))
    else if ShadowV2 in cap.checks then Is(Alter(Invocations, Release(ShadowV2)))
    else if HasV2AuditSchema(cap) then Is(Alter(Invocations, RemoveAudit))
    else if PROVENANCE <= logs.columns then Is(Alter(LogEntries, RemoveProvenance))
    else if TurnSourceLogId in tasks.columns then Is(Alter(Tasks, RemoveTurnSource))
    else if AgentGate in cap.checks then Is(Alter(Invocations, Release(AgentGate)))
    else Null
  }

  /** The statements an upgrade may issue from a schema. Which missing index comes first differs
      between a first run and a replay, so any of them is allowed. */
  predicate UpgradeIssues(db: Db, s: Statement)
    requires Schema(db)
  {
    var cap, tasks, logs := db[Invocations], db[Tasks], db[LogEntries];
    && (TerminationReceipts in db ==> ReceiptGate !in db[TerminationReceipts].checks)
    && if PhaseOneOwed(cap) then s == Alter(Invocations, PhaseOne(cap))
       else if CanonicalV1 in cap.checks then s == Alter(Invocations, Swap(CanonicalV1, CanonicalV2))
       else if ShadowV2 in cap.checks then s == Alter(Invocations, Release(ShadowV2))
       else if AgentGate in cap.checks then s == Alter(Invocations, Release(AgentGate))
       else if TurnSourceLogId !in tasks.columns then s == Alter(Tasks, AddTurnSource)
       else if !(PROVENANCE <= logs.columns) then s == Alter(LogEntries, AddProvenance)
       else if LogGate in logs.checks then s == Alter(LogEntries, Release(LogGate))
       else if TaskGate in tasks.checks then s == Alter(Tasks, Release(TaskGate))
       else if TerminationReceipts !in db then s == Create(TerminationReceipts, EMPTY_RECEIPTS)
       else s.Alter? && s.table == TerminationReceipts && exists i ::
         i in RECEIPT_INDEXES - db[TerminationReceipts].indexes && s.change == NoChange.(addIndexes := {i})
  }

  predicate DowngradeIssues(db: Db, s: Statement)
    requires Schema(db)
  {
    NextDowngrade(db) == Is(s)
  }

  // ---- What every statement keeps ----

  lemma AlteredSchema(db: Db, n: TableName, ch: Change)
    requires Schema(db) && n in db && Accepts(db[n], ch) && TableSchema(n, Altered(db[n], ch))
    ensures Applicable(db, Alter(n, ch)) && Schema(Effect(db, Alter(n, ch)))
  {
  }

  lemma GateStep(t: Table, ch: Change)
    requires InvocationsSchema(t)
    requires
      || (AgentGate !in t.checks && ch == Install(AgentGate))
      || (AgentGate in t.checks && (HasV2Check(t) || AUDIT !! t.columns) && ch == Release(AgentGate))
    ensures Accepts(t, ch) && InvocationsSchema(Altered(t, ch))
  {
    hide Accepts, InvocationsSchema, HasV2Check, Altered;
    if AgentGate in t.checks { GateFalls(t); } else { GateRises(t); }
  }

  lemma GateRises(t: Table)
    requires InvocationsSchema(t) && AgentGate !in t.checks
    ensures Accepts(t, Install(AgentGate)) && InvocationsSchema(Altered(t, Install(AgentGate)))
  {
  }

  lemma GateFalls(t: Table)
    requires InvocationsSchema(t) && AgentGate in t.checks && (HasV2Check(t) || AUDIT !! t.columns)
    ensures Accepts(t, Release(AgentGate)) && InvocationsSchema(Altered(t, Release(AgentGate)))
  {
  }

  lemma SwapStep(t: Table, from: Check, to: Check)
    requires InvocationsSchema(t) && from in t.checks
    requires (from == CanonicalV2 && to == CanonicalV1 && AgentGate in t.checks)
             || (from == CanonicalV1 && to == CanonicalV2 && ShadowV2 in t.checks)
    ensures Accepts(t, Swap(from, to)) && InvocationsSchema(Altered(t, Swap(from, to)))
  {
  }

  lemma UnshadowStep(t: Table)
    requires InvocationsSchema(t) && ShadowV2 in t.checks && (CanonicalV2 in t.checks || AgentGate in t.checks)
    ensures Accepts(t, Release(ShadowV2)) && InvocationsSchema(Altered(t, Release(ShadowV2)))
  {
  }

  lemma StripStep(t: Table)
    requires InvocationsSchema(t) && !HasV2Check(t) && AUDIT <= t.columns
    ensures Accepts(t, RemoveAudit) && InvocationsSchema(Altered(t, RemoveAudit))
  {
  }

  lemma PhaseOneStep(t: Table)
    requires InvocationsSchema(t) && PhaseOneOwed(t)
    ensures Accepts(t, PhaseOne(t)) && InvocationsSchema(Altered(t, PhaseOne(t)))
    ensures !PhaseOneOwed(Altered(t, PhaseOne(t)))
  {
  }

  lemma TasksStep(t: Table, ch: Change)
    requires TasksSchema(t)
    requires
      || (TaskGate !in t.checks && TurnSourceLogId in t.columns && ch == Install(TaskGate))
      || (TaskGate in t.checks && ch in {Release(TaskGate), RemoveTurnSource})
      || (TurnSourceLogId !in t.columns && ch == AddTurnSource)
    ensures Accepts(t, ch) && TasksSchema(Altered(t, ch))
  {
  }

  lemma LogsStep(t: Table, ch: Change)
    requires LogsSchema(t)
    requires
      || (LogGate !in t.checks && PROVENANCE <= t.columns && ch == Install(LogGate))
      || (LogGate in t.checks && ch in {Release(LogGate), RemoveProvenance})
      || (!(PROVENANCE <= t.columns) && ch == AddProvenance)
    ensures Accepts(t, ch) && LogsSchema(Altered(t, ch))
  {
  }

  lemma ReceiptsStep(t: Table, ch: Change)
    requires ReceiptsSchema(t)
    requires
      || (ReceiptGate !in t.checks && ch == Install(ReceiptGate))
      || (exists i :: i in RECEIPT_INDEXES - t.indexes && ch == NoChange.(addIndexes := {i}))
    ensures Accepts(t, ch) && ReceiptsSchema(Altered(t, ch))
  {
  }

  lemma DowngradeStep(db: Db, s: Statement)
    requires Schema(db) && DowngradeIssues(db, s)
    ensures Applicable(db, s) && Schema(Effect(db, s))
  {
    if s.Alter? {
      if s.table == Invocations {
        var cap := db[Invocations];
        if AgentGate !in cap.checks { GateStep(cap, s.change); }
        else if CanonicalV2 in cap.checks { SwapStep(cap, CanonicalV2, CanonicalV1); }
        else if ShadowV2 in cap.checks { UnshadowStep(cap); }
        else if HasV2AuditSchema(cap) { StripStep(cap); }
        else { GateStep(cap, s.change); }
      } else if s.table == Tasks { TasksStep(db[Tasks], s.change); }
      else if s.table == LogEntries { LogsStep(db[LogEntries], s.change); }
      else { ReceiptsStep(db[s.table], s.change); }
      AlteredSchema(db, s.table, s.change);
    }
  }

  lemma UpgradeStep(db: Db, s: Statement)
    requires Schema(db) && UpgradeIssues(db, s)
    ensures Applicable(db, s) && Schema(Effect(db, s))
  {
    if s.Alter? {
      if s.table == Invocations {
        var cap := db[Invocations];
        if PhaseOneOwed(cap) { PhaseOneStep(cap); }
        else if CanonicalV1 in cap.checks { SwapStep(cap, CanonicalV1, CanonicalV2); }
        else if ShadowV2 in cap.checks { UnshadowStep(cap); }
        else { GateStep(cap, s.change); }
      } else if s.table == Tasks { TasksStep(db[Tasks], s.change); }
      else if s.table == LogEntries { LogsStep(db[LogEntries], s.change); }
      else { ReceiptsStep(db[s.table], s.change); }
      AlteredSchema(db, s.table, s.change);
    }
  }

  // ---- Nothing is lost ----

  predicate IsAgentRequest(r: Row) { Selects(TextIs(At(r, Source), "agent_request")) }

  /** The only values a downgrade may drop: audit columns of invocations that are no agent requests. */
  function Expendable(n: TableName, r: Row): set<Column> {
    if n == Invocations && !IsAgentRequest(r) then AUDIT else {}
  }

  ghost predicate TableKept(n: TableName, t: Table, u: Table) {
    && t.rows.Keys == u.rows.Keys
    && forall i | i in t.rows :: RowKeeps(t.rows[i], u.rows[i], Expendable(n, t.rows[i]))
  }

  /** A table disappears only when empty, no row of another table goes, and no value but the
      expendable ones. */
  ghost predicate LosesNothing(a: Db, b: Db) {
    forall n | n in a :: if n in b then TableKept(n, a[n], b[n]) else a[n].rows == map[]
  }

  lemma AlterLosesNothing(db: Db, n: TableName, ch: Change)
    requires ValidDb(db) && n in db && Accepts(db[n], ch)
    requires forall i, c | i in db[n].rows && c in ch.dropColumns ::
               c in Expendable(n, db[n].rows[i]) || At(db[n].rows[i], c).Null?
    ensures LosesNothing(db, Effect(db, Alter(n, ch)))
  {
    hide Valid, Accepts, Altered, Expendable, Evaluate, At;
    AlteredKeys(db[n], ch);
    forall i | i in db[n].rows
      ensures RowKeeps(db[n].rows[i], Altered(db[n], ch).rows[i], Expendable(n, db[n].rows[i]))
    {
      AlterKeepsRows(db[n], ch, i);
    }
  }

  lemma AlteredKeys(t: Table, ch: Change)
    ensures Altered(t, ch).rows.Keys == t.rows.Keys
  {
  }

  /** An enforced gate leaves nothing to lose in the columns its ALTER drops. */
  lemma GatedRow(n: TableName, t: Table, r: Row, c: Column)
    requires TableSchema(n, t) && Fits(t, r)
    ensures n == Tasks && TaskGate in t.checks && c == TurnSourceLogId ==> At(r, c).Null?
    ensures n == LogEntries && LogGate in t.checks && c in PROVENANCE ==> At(r, c).Null?
    ensures n == Invocations && AgentGate in t.checks && c in AUDIT ==> c in Expendable(n, r)
    ensures n == TerminationReceipts ==> ReceiptGate !in t.checks
  {
    assert forall k | k in t.checks :: Admits(Evaluate(k, r));
    if n == TerminationReceipts { assert At(r, OperationId).Is?; }
  }

  /** Each gate falls only in the statement that drops what it guards. */
  lemma DowngradeDropsGated(db: Db, s: Statement)
    requires Schema(db) && DowngradeIssues(db, s)
    ensures s.Drop? ==> s.table in db && s.table == TerminationReceipts && ReceiptGate in db[s.table].checks
    ensures s.Alter? && s.change.dropColumns != {} ==>
              || (s.table == Tasks && TaskGate in db[Tasks].checks && s.change == RemoveTurnSource)
              || (s.table == LogEntries && LogGate in db[LogEntries].checks && s.change == RemoveProvenance)
              || (s.table == Invocations && AgentGate in db[Invocations].checks && s.change == RemoveAudit)
    ensures s.Alter? && s.change.dropColumns == {} ==>
              {TaskGate, LogGate, ReceiptGate} !! s.change.dropChecks
  {
  }

  lemma DowngradeLosesNothing(db: Db, s: Statement)
    requires Schema(db) && ValidDb(db) && DowngradeIssues(db, s) && Applicable(db, s)
    ensures LosesNothing(db, Effect(db, s))
  {
    DowngradeDropsGated(db, s);
    hide NextDowngrade, DowngradeIssues, TableSchema, Evaluate, Altered, Accepts;
    var n, t := s.table, db[s.table];
    match s
    case Alter(_, ch) =>
      forall i, c | i in t.rows && c in ch.dropColumns
        ensures c in Expendable(n, t.rows[i]) || At(t.rows[i], c).Null?
      {
        GatedRow(n, t, t.rows[i], c);
      }
      AlterLosesNothing(db, n, ch);
    case Drop(_) =>
      if i :| i in t.rows {
        GatedRow(n, t, t.rows[i], OperationId);
      }
  }

  lemma UpgradeLosesNothing(db: Db, s: Statement)
    requires Schema(db) && ValidDb(db) && UpgradeIssues(db, s) && Applicable(db, s)
    ensures LosesNothing(db, Effect(db, s))
  {
    if s.Alter? { AlterLosesNothing(db, s.table, s.change); }
  }
}
