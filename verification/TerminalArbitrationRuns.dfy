/** Whole runs of the terminal-arbitration migration: any number of attempts in either direction,
    each cut short anywhere, with writers in between. */
module TerminalArbitrationRuns {
  import opened ThreeValued
  import opened Relational
  import opened MySql
  import opened TerminalArbitration

  ghost predicate DowngradeEvent(e: Event) {
    e.Ran? ==> Schema(e.before) && DowngradeIssues(e.before, e.statement)
  }

  ghost predicate UpgradeEvent(e: Event) {
    e.Ran? ==> Schema(e.before) && UpgradeIssues(e.before, e.statement)
  }

  lemma SchemaShared(a: Db, b: Db)
    requires SameSchemas(a, b) && Schema(a)
    ensures Schema(b)
    ensures NextDowngrade(b) == NextDowngrade(a)
    ensures forall s :: UpgradeIssues(a, s) ==> UpgradeIssues(b, s)
  {
    hide TableSchema;
    forall n | n in a ensures TableSchema(n, b[n]) { TableShared(n, a[n], b[n]); }
    assert forall n | n in a :: SameSchema(a[n], b[n]);
  }

  lemma TableShared(n: TableName, t: Table, u: Table)
    requires SameSchema(t, u) && TableSchema(n, t)
    ensures TableSchema(n, u)
  {
  }

  ghost predicate SafeEvent(e: Event) {
    && Schema(e.before) && Schema(e.after) && ValidDb(e.before) && ValidDb(e.after)
    && (e.Ran? ==> LosesNothing(e.before, e.after))
  }

  lemma EventIsSafe(e: Event)
    requires Happened(e) && Schema(e.before) && ValidDb(e.before)
    requires DowngradeEvent(e) || UpgradeEvent(e)
    ensures SafeEvent(e) && Schema(e.after) && ValidDb(e.after)
  {
    match e
    case Wrote(a, b) => SchemaShared(a, b);
    case Ran(a, s, b) =>
      if DowngradeEvent(e) {
        DowngradeStep(a, s);
        DowngradeLosesNothing(a, s);
      } else {
        UpgradeStep(a, s);
        UpgradeLosesNothing(a, s);
      }
  }

  /** From any schema of the migration, whatever is interleaved or cut short: each state keeps the
      migration's schema and every enforced constraint, and no statement destroys a row, a Task or
      LogEntry provenance value, a termination receipt or a field of an agent request. */
  lemma RunLosesNothing(from: Db, events: seq<Event>, to: Db)
    requires Leads(from, events, to) && Schema(from) && ValidDb(from)
    requires forall k | 0 <= k < |events| :: DowngradeEvent(events[k]) || UpgradeEvent(events[k])
    ensures Schema(to) && ValidDb(to)
    ensures forall k | 0 <= k < |events| :: SafeEvent(events[k])
  {
    hide Happened, Leads, SafeEvent, DowngradeEvent, UpgradeEvent, Schema, ValidDb;
    forall e: Event | Happened(e) && Schema(e.before) && ValidDb(e.before) && (DowngradeEvent(e) || UpgradeEvent(e))
      ensures SafeEvent(e) && Schema(e.after) && ValidDb(e.after)
    {
      EventIsSafe(e);
    }
    RunInvariant(db => Schema(db) && ValidDb(db), e => DowngradeEvent(e) || UpgradeEvent(e), e => SafeEvent(e), from, events, to);
  }

  lemma IdentifiedRow(t: Table, r: Row)
    requires InvocationsSchema(t) && Fits(t, r) && IsAgentRequest(r)
    ensures AgentRequestV1(r) == True
    ensures AUDIT <= t.columns ==> AgentAudit(r) == True
  {
    assert forall k | k in t.checks :: Admits(Evaluate(k, r));
    assert At(r, Purpose).Is? && At(r, ResumePolicy).Is?;
    assert AgentGate !in t.checks;
  }

  /** In every state a run can reach, each agent request carries the identity the old CHECK asked for,
      and the full v2 identity as soon as the audit columns exist. */
  lemma AgentRowsIdentified(db: Db, i: nat)
    requires Schema(db) && ValidDb(db) && i in db[Invocations].rows && IsAgentRequest(db[Invocations].rows[i])
    ensures AgentRequestV1(db[Invocations].rows[i]) == True
    ensures AUDIT <= db[Invocations].columns ==> AgentAudit(db[Invocations].rows[i]) == True
  {
    hide InvocationsSchema, Evaluate, AgentRequestV1, AgentAudit, IsAgentRequest;
    assert Fits(db[Invocations], db[Invocations].rows[i]);
    IdentifiedRow(db[Invocations], db[Invocations].rows[i]);
  }

  // ---- What can fail ----

  predicate ReceiptsGated(db: Db) { TerminationReceipts in db ==> ReceiptGate in db[TerminationReceipts].checks }

  predicate InvocationsGated(db: Db)
    requires Schema(db)
  {
    HasV2AuditSchema(db[Invocations]) ==> AgentGate in db[Invocations].checks
  }

  predicate Gated(db: Db)
    requires Schema(db)
  {
    && ReceiptsGated(db) && InvocationsGated(db)
    && (TurnSourceLogId in db[Tasks].columns ==> TaskGate in db[Tasks].checks)
    && (PROVENANCE <= db[LogEntries].columns ==> LogGate in db[LogEntries].checks)
  }

  lemma AlterCommitsDb(db: Db, n: TableName, ch: Change)
    requires ValidDb(db) && Applicable(db, Alter(n, ch))
    ensures Commits(db, Alter(n, ch)) <==> RowsMeet(db[n], ch)
  {
    hide Valid, RowsMeet, Accepts, Altered;
    AlterCommits(db[n], ch);
    assert forall m | m in db :: Valid(db[m]);
    assert Effect(db, Alter(n, ch))[n] == Altered(db[n], ch);
  }

  /** Once the four gates are in, no row any writer can produce makes a later statement fail. */
  lemma GatedDowngradeCommits(db: Db, s: Statement)
    requires Schema(db) && ValidDb(db) && Gated(db) && DowngradeIssues(db, s) && Applicable(db, s)
    ensures Commits(db, s)
  {
    if s.Alter? {
      assert s.change.addChecks <= {CanonicalV1} && s.change.addKeys == {} && s.change.require == {};
      assert s.change.addChecks != {} ==> s.table == Invocations && CanonicalV2 in db[Invocations].checks;
      hide NextDowngrade, DowngradeIssues, Gated, TableSchema, Accepts, Altered, Evaluate;
      var t := db[s.table];
      forall i, k | i in t.rows && k in s.change.addChecks
        ensures Admits(Evaluate(k, t.rows[i]))
      {
        assert Fits(t, t.rows[i]);
        IdentityOrder(t.rows[i]);
      }
      AlterCommitsDb(db, s.table, s.change);
    } else {
      assert Effect(db, s).Keys <= db.Keys;
    }
  }

  lemma SettledRowAdmits(n: TableName, t: Table, r: Row, k: Check)
    requires TableSchema(n, t) && Fits(t, r)
    requires k == CanonicalV2 ==> ShadowV2 in t.checks
    requires k in {ScopeCheck, TransportCheck} ==> PROVENANCE !! t.columns
    requires k in {CanonicalV2, ScopeCheck, TransportCheck}
    ensures Admits(Evaluate(k, r))
  {
    if k == CanonicalV2 { assert Admits(Evaluate(ShadowV2, r)); }
  }

  lemma SettledUpgradeAdds(db: Db, s: Statement)
    requires Schema(db) && !PhaseOneOwed(db[Invocations]) && UpgradeIssues(db, s) && s.Alter?
    ensures s.change.addKeys == {} && s.change.require == {}
    ensures forall k | k in s.change.addChecks ::
              k in {CanonicalV2, ScopeCheck, TransportCheck} && (k == CanonicalV2 ==> ShadowV2 in db[s.table].checks)
              && (k in {ScopeCheck, TransportCheck} ==> PROVENANCE !! db[s.table].columns)
  {
  }

  /** Once phase one has committed, no row any writer can produce makes the rest of the upgrade fail. */
  lemma SettledUpgradeCommits(db: Db, s: Statement)
    requires Schema(db) && ValidDb(db) && !PhaseOneOwed(db[Invocations])
    requires UpgradeIssues(db, s) && Applicable(db, s)
    ensures Commits(db, s)
  {
    hide UpgradeIssues, TableSchema, Accepts, Altered, Evaluate, PhaseOneOwed, RowsMeet;
    UpgradeAltersOrCreates(db, s);
    if s.Create? {
      CreateCommits(db, s);
    } else {
      var t := db[s.table];
      SettledUpgradeAdds(db, s);
      forall i, k | i in t.rows && k in s.change.addChecks
        ensures Admits(Evaluate(k, t.rows[i]))
      {
        SettledRowAdmits(s.table, t, t.rows[i], k);
      }
      OnlyChecksToMeet(t, s.change);
      AlterCommitsDb(db, s.table, s.change);
    }
  }

  lemma OnlyChecksToMeet(t: Table, ch: Change)
    requires ch.addKeys == {} && ch.require == {}
    requires forall i, k | i in t.rows && k in ch.addChecks :: Admits(Evaluate(k, t.rows[i]))
    ensures RowsMeet(t, ch)
  {
    hide Evaluate;
  }

  lemma UpgradeAltersOrCreates(db: Db, s: Statement)
    requires Schema(db) && UpgradeIssues(db, s)
    ensures s.Alter? || s.Create?
  {
    hide TableSchema;
  }

  lemma CreateCommits(db: Db, s: Statement)
    requires ValidDb(db) && s.Create? && Applicable(db, s)
    ensures Commits(db, s)
  {
    ValidLocally(db, s.table, s.definition);
  }

  /** The duplicate query of the preflight: GROUP BY compares NULLs as equal. */
  predicate SharedOutput(t: Table) {
    exists i, j | i in t.rows && j in t.rows ::
      i != j && At(t.rows[i], OutputLogId).Is? && At(t.rows[i], OutputLogId) == At(t.rows[j], OutputLogId)
      && At(t.rows[i], TaskId) == At(t.rows[j], TaskId)
  }

  predicate HasAgentRequest(t: Table) { exists i | i in t.rows :: IsAgentRequest(t.rows[i]) }

  /** On the old schema the preflight is exact: phase one commits just when neither query finds a row. */
  lemma PreflightDecidesPhaseOne(db: Db)
    requires Schema(db) && ValidDb(db) && db[Invocations].checks == {CanonicalV1}
    requires Applicable(db, Alter(Invocations, PhaseOne(db[Invocations])))
    ensures Commits(db, Alter(Invocations, PhaseOne(db[Invocations])))
            <==> !HasAgentRequest(db[Invocations]) && !SharedOutput(db[Invocations])
  {
    var t := db[Invocations];
    AlterCommitsDb(db, Invocations, PhaseOne(t));
    LegacyRowsMeet(t);
  }

  lemma LegacyRowsMeet(t: Table)
    requires InvocationsSchema(t) && Valid(t) && t.checks == {CanonicalV1}
    ensures RowsMeet(t, PhaseOne(t)) <==> !HasAgentRequest(t) && !SharedOutput(t)
  {
    var ch := PhaseOne(t);
    assert ch.addKeys == {OutputLogKey} && ch.addChecks == {ShadowV2} && ch.require == {};
    forall i | i in t.rows
      ensures Admits(Evaluate(ShadowV2, t.rows[i])) <==> !IsAgentRequest(t.rows[i])
      ensures At(t.rows[i], TaskId).Is?
    {
      assert Fits(t, t.rows[i]);
      LegacyAgentRow(t, t.rows[i]);
    }
    hide Evaluate, InvocationsSchema, IsAgentRequest, Fits;
    SharedOutputIsCollision(t);
  }

  lemma LegacyAgentRow(t: Table, r: Row)
    requires InvocationsSchema(t) && Fits(t, r) && AUDIT !! t.columns
    ensures Admits(Evaluate(ShadowV2, r)) <==> !IsAgentRequest(r)
    ensures At(r, TaskId).Is?
  {
    assert RequestReason !in r && At(r, Source).Is?;
  }

  lemma SharedOutputIsCollision(t: Table)
    requires forall i | i in t.rows :: At(t.rows[i], TaskId).Is?
    ensures KeyHolds(t.rows, KeyColumns(OutputLogKey)) <==> !SharedOutput(t)
  {
    assert forall i, j | i in t.rows && j in t.rows ::
      Collide(t.rows[i], t.rows[j], KeyColumns(OutputLogKey)) <==>
        At(t.rows[i], TaskId) == At(t.rows[j], TaskId)
        && At(t.rows[i], OutputLogId).Is? && At(t.rows[i], OutputLogId) == At(t.rows[j], OutputLogId);
  }

  // ---- Convergence ----

  function Ticks(b: bool): nat { if b then 1 else 0 }

  /** How many statements a downgrade still owes on one table. */
  function Owed(n: TableName, t: Table): nat {
    match n
    case Invocations =>
      Ticks(HasV2AuditSchema(t) && AgentGate !in t.checks) + Ticks(CanonicalV2 in t.checks)
      + Ticks(ShadowV2 in t.checks) + Ticks(HasV2AuditSchema(t)) + Ticks(HasV2AuditSchema(t) || AgentGate in t.checks)
    case Tasks => if TurnSourceLogId !in t.columns then 0 else 1 + Ticks(TaskGate !in t.checks)
    case LogEntries => if !(PROVENANCE <= t.columns) then 0 else 1 + Ticks(LogGate !in t.checks)
    case _ => 1 + Ticks(ReceiptGate !in t.checks)
  }

  function DowngradeDistance(db: Db): nat
    requires Schema(db)
  {
    Owed(Invocations, db[Invocations]) + Owed(Tasks, db[Tasks]) + Owed(LogEntries, db[LogEntries])
    + if TerminationReceipts in db then Owed(TerminationReceipts, db[TerminationReceipts]) else 0
  }

  lemma InvocationsPayOne(db: Db, ch: Change)
    requires Schema(db) && DowngradeIssues(db, Alter(Invocations, ch))
    ensures Owed(Invocations, Altered(db[Invocations], ch)) == Owed(Invocations, db[Invocations]) - 1
  {
    assert TableSchema(Invocations, db[Invocations]);
    hide TasksSchema, LogsSchema, ReceiptsSchema, Owed, Altered, InvocationsSchema;
    InvocationsChangePays(db[Invocations], ch);
  }

  lemma InvocationsChangePays(t: Table, ch: Change)
    requires InvocationsSchema(t)
    requires if HasV2AuditSchema(t) && AgentGate !in t.checks then ch == Install(AgentGate)
             else if CanonicalV2 in t.checks then ch == Swap(CanonicalV2, CanonicalV1)
             else if ShadowV2 in t.checks then ch == Release(ShadowV2)
             else if HasV2AuditSchema(t) then ch == RemoveAudit
             else AgentGate in t.checks && ch == Release(AgentGate)
    ensures Owed(Invocations, Altered(t, ch)) == Owed(Invocations, t) - 1
  {
    if AgentGate in t.checks && !HasV2Check(t) && AUDIT <= t.columns {
      assert AUDIT * Columns(t, ch) == {};
    } else {
      assert Columns(t, ch) == t.columns;
    }
  }

  lemma AlterPaysOne(db: Db, n: TableName, ch: Change)
    requires Schema(db) && DowngradeIssues(db, Alter(n, ch))
    ensures n in db && Owed(n, Altered(db[n], ch)) == Owed(n, db[n]) - 1
  {
    if n == Invocations { InvocationsPayOne(db, ch); }
  }

  /** Every committed statement brings a downgrade exactly one step nearer its end, whatever crashes
      and re-runs separate the statements. */
  lemma DowngradeProgress(db: Db, s: Statement)
    requires Schema(db) && DowngradeIssues(db, s)
    ensures Applicable(db, s) && Schema(Effect(db, s))
    ensures DowngradeDistance(Effect(db, s)) == DowngradeDistance(db) - 1
  {
    hide NextDowngrade, TableSchema, Altered, Accepts, HasV2AuditSchema, Owed;
    DowngradeStep(db, s);
    DowngradeDropsGated(db, s);
    DroppedReceiptsOwe(db, s);
    if s.Alter? { AlterPaysOne(db, s.table, s.change); }
  }

  lemma DroppedReceiptsOwe(db: Db, s: Statement)
    requires Schema(db) && DowngradeIssues(db, s)
    ensures !s.Create? && !s.FillNulls?
    ensures s.Drop? ==> TerminationReceipts in db && Owed(TerminationReceipts, db[TerminationReceipts]) == 1
  {
    hide TableSchema, HasV2AuditSchema;
  }

  /** At most eleven statements ever commit, and none is left exactly on the legacy schema. */
  lemma DowngradeEnds(db: Db)
    requires Schema(db)
    ensures DowngradeDistance(db) <= 11
    ensures NextDowngrade(db).Null? <==> Legacy(db)
    ensures Legacy(db) <==> DowngradeDistance(db) == 0
  {
  }

  lemma DistanceShared(a: Db, b: Db)
    requires SameSchemas(a, b) && Schema(a)
    ensures Schema(b) && DowngradeDistance(b) == DowngradeDistance(a) && UpgradeDistance(b) == UpgradeDistance(a)
  {
    hide TableSchema, NextDowngrade, UpgradeIssues, Owed, UpgradeOwed;
    SchemaShared(a, b);
    forall n | n in a ensures Owed(n, a[n]) == Owed(n, b[n]) && UpgradeOwed(n, a[n]) == UpgradeOwed(n, b[n]) {
      OwedShared(n, a[n], b[n]);
    }
  }

  lemma OwedShared(n: TableName, t: Table, u: Table)
    requires SameSchema(t, u)
    ensures Owed(n, t) == Owed(n, u) && UpgradeOwed(n, t) == UpgradeOwed(n, u)
  {
  }

  /** Over a downgrade-only run, however often cut short, the statements committed are exactly the
      distance covered: never more than eleven, and all of them only on the legacy schema. */
  lemma {:induction false} DowngradeRunPays(from: Db, events: seq<Event>, to: Db)
    requires Leads(from, events, to) && Schema(from) && ValidDb(from)
    requires forall k | 0 <= k < |events| :: DowngradeEvent(events[k])
    ensures Schema(to) && Statements(events) + DowngradeDistance(to) == DowngradeDistance(from)
    ensures Statements(events) <= 11
    ensures Legacy(to) <==> Statements(events) == DowngradeDistance(from)
  {
    hide Schema, Happened, DowngradeEvent, DowngradeDistance, Legacy, ValidDb;
    if events != [] {
      var rest, e := events[..|events| - 1], events[|events| - 1];
      DowngradeRunPays(from, rest, e.before);
      DowngradeEventPays(e);
    }
    DowngradeEnds(from);
    DowngradeEnds(to);
  }

  lemma DowngradeEventPays(e: Event)
    requires Happened(e) && Schema(e.before) && DowngradeEvent(e)
    ensures Schema(e.after)
    ensures DowngradeDistance(e.after) + (if e.Ran? then 1 else 0) == DowngradeDistance(e.before)
  {
    hide TableSchema, NextDowngrade, DowngradeDistance, ValidDb;
    match e
    case Wrote(a, b) => DistanceShared(a, b);
    case Ran(a, s, b) => DowngradeProgress(a, s);
  }

  /** An upgrade statement issued after phase one leaves phase one done. */
  lemma SettledStays(db: Db, s: Statement)
    requires Schema(db) && !PhaseOneOwed(db[Invocations]) && UpgradeIssues(db, s)
    ensures Applicable(db, s) && Schema(Effect(db, s)) && !PhaseOneOwed(Effect(db, s)[Invocations])
  {
    hide TableSchema, PhaseOneOwed, Altered;
    UpgradeStep(db, s);
    if s.Alter? && s.table == Invocations { SettledAlterStays(db[Invocations], s.change); }
  }

  lemma SettledAlterStays(t: Table, ch: Change)
    requires TableSchema(Invocations, t) && !PhaseOneOwed(t)
    requires if CanonicalV1 in t.checks then ch == Swap(CanonicalV1, CanonicalV2)
             else if ShadowV2 in t.checks then ch == Release(ShadowV2)
             else AgentGate in t.checks && ch == Release(AgentGate)
    ensures !PhaseOneOwed(Altered(t, ch))
  {
  }

  ghost predicate SettledState(db: Db) { Schema(db) && ValidDb(db) && !PhaseOneOwed(db[Invocations]) }

  lemma SettledEvent(e: Event)
    requires Happened(e) && SettledState(e.before) && UpgradeEvent(e)
    ensures SettledState(e.after)
  {
    hide TableSchema, UpgradeIssues;
    match e
    case Wrote(a, b) => SchemaShared(a, b); assert SameSchema(a[Invocations], b[Invocations]);
    case Ran(a, s, b) => SettledStays(a, s);
  }

  /** Writers, crashes and re-runs of the upgrade never undo phase one. */
  lemma SettledRunStaysSettled(from: Db, events: seq<Event>, to: Db)
    requires Leads(from, events, to) && Schema(from) && ValidDb(from) && !PhaseOneOwed(from[Invocations])
    requires forall k | 0 <= k < |events| :: UpgradeEvent(events[k])
    ensures Schema(to) && ValidDb(to) && !PhaseOneOwed(to[Invocations])
  {
    hide Happened, Leads, UpgradeEvent, Schema, ValidDb, PhaseOneOwed;
    forall e: Event | Happened(e) && SettledState(e.before) && UpgradeEvent(e) ensures SettledState(e.after) {
      SettledEvent(e);
    }
    RunInvariant(db => SettledState(db), e => UpgradeEvent(e), (e: Event) => SettledState(e.after), from, events, to);
  }

  /** Over an upgrade-only run every committed statement brings the end nearer. */
  lemma {:induction false} UpgradeRunPays(from: Db, events: seq<Event>, to: Db)
    requires Leads(from, events, to) && Schema(from) && ValidDb(from)
    requires forall k | 0 <= k < |events| :: UpgradeEvent(events[k])
    ensures Schema(to) && Statements(events) + UpgradeDistance(to) <= UpgradeDistance(from)
  {
    hide Schema, Happened, UpgradeEvent, UpgradeDistance, ValidDb;
    if events != [] {
      var rest, e := events[..|events| - 1], events[|events| - 1];
      UpgradeRunPays(from, rest, e.before);
      UpgradeEventPays(e);
    }
  }

  lemma UpgradeEventPays(e: Event)
    requires Happened(e) && Schema(e.before) && UpgradeEvent(e)
    ensures Schema(e.after)
    ensures UpgradeDistance(e.after) + (if e.Ran? then 1 else 0) <= UpgradeDistance(e.before)
  {
    hide TableSchema, UpgradeIssues, UpgradeDistance, ValidDb;
    match e
    case Wrote(a, b) => DistanceShared(a, b);
    case Ran(a, s, b) => UpgradeProgress(a, s);
  }

  // ---- Gates stay ----

  /** A downgrade statement issued behind the gates leaves the database gated. */
  lemma GatedStays(db: Db, s: Statement)
    requires Schema(db) && Gated(db) && DowngradeIssues(db, s)
    ensures Applicable(db, s) && Schema(Effect(db, s)) && Gated(Effect(db, s))
  {
    hide TableSchema;
    DowngradeStep(db, s);
  }

  lemma GatedShared(a: Db, b: Db)
    requires SameSchemas(a, b) && Schema(a) && Gated(a)
    ensures Schema(b) && Gated(b) && NextDowngrade(b) == NextDowngrade(a)
  {
    SchemaShared(a, b);
    assert forall n | n in a :: SameSchema(a[n], b[n]);
  }

  ghost predicate GatedState(db: Db) { Schema(db) && ValidDb(db) && Gated(db) }

  lemma GatedEvent(e: Event)
    requires Happened(e) && GatedState(e.before) && DowngradeEvent(e)
    ensures GatedState(e.after)
  {
    hide Gated, TableSchema, NextDowngrade;
    match e
    case Wrote(a, b) => GatedShared(a, b);
    case Ran(a, s, b) => GatedStays(a, s);
  }

  /** Writers, crashes and re-runs of the downgrade never lose the gates once all are in. */
  lemma GatedRunStaysGated(from: Db, events: seq<Event>, to: Db)
    requires Leads(from, events, to) && Schema(from) && ValidDb(from) && Gated(from)
    requires forall k | 0 <= k < |events| :: DowngradeEvent(events[k])
    ensures Schema(to) && ValidDb(to) && Gated(to)
  {
    hide Happened, Leads, DowngradeEvent, Schema, ValidDb, Gated;
    forall e: Event | Happened(e) && GatedState(e.before) && DowngradeEvent(e) ensures GatedState(e.after) {
      GatedEvent(e);
    }
    RunInvariant(db => GatedState(db), e => DowngradeEvent(e), (e: Event) => GatedState(e.after), from, events, to);
  }

  function UpgradeOwed(n: TableName, t: Table): nat {
    match n
    case Invocations =>
      (if PhaseOneOwed(t) then 3 else Ticks(CanonicalV1 in t.checks) + Ticks(ShadowV2 in t.checks)) + Ticks(AgentGate in t.checks)
    case Tasks => Ticks(TurnSourceLogId !in t.columns) + Ticks(TaskGate in t.checks)
    case LogEntries => Ticks(!(PROVENANCE <= t.columns)) + Ticks(LogGate in t.checks)
    case _ => |RECEIPT_INDEXES - t.indexes|
  }

  function UpgradeDistance(db: Db): nat
    requires Schema(db)
  {
    UpgradeOwed(Invocations, db[Invocations]) + UpgradeOwed(Tasks, db[Tasks]) + UpgradeOwed(LogEntries, db[LogEntries])
    + if TerminationReceipts in db then UpgradeOwed(TerminationReceipts, db[TerminationReceipts]) else 4
  }

  lemma UpgradeInvocationsPay(t: Table, ch: Change)
    requires InvocationsSchema(t)
    requires if PhaseOneOwed(t) then ch == PhaseOne(t)
             else if CanonicalV1 in t.checks then ch == Swap(CanonicalV1, CanonicalV2)
             else if ShadowV2 in t.checks then ch == Release(ShadowV2)
             else AgentGate in t.checks && ch == Release(AgentGate)
    ensures UpgradeOwed(Invocations, Altered(t, ch)) < UpgradeOwed(Invocations, t)
  {
    if PhaseOneOwed(t) { PhaseOneStep(t); }
  }

  lemma TakingOneShrinks<T>(whole: set<T>, part: set<T>, x: T)
    requires x in whole - part
    ensures |whole - (part + {x})| < |whole - part|
  {
    assert whole - (part + {x}) == (whole - part) - {x};
  }

  lemma UpgradeAlterPays(db: Db, n: TableName, ch: Change)
    requires Schema(db) && UpgradeIssues(db, Alter(n, ch))
    ensures n in db && UpgradeOwed(n, Altered(db[n], ch)) < UpgradeOwed(n, db[n])
  {
    hide UpgradeOwed, Altered, HasV2Check, PhaseOneOwed, RECEIPT_INDEXES;
    if n == Invocations {
      UpgradeInvocationsPay(db[n], ch);
    } else if n == TerminationReceipts {
      ReceiptsPay(db[n], ch);
    } else {
      AuxiliaryPays(n, db[n], ch);
    }
  }

  lemma AuxiliaryPays(n: TableName, t: Table, ch: Change)
    requires TableSchema(n, t)
    requires || (n == Tasks && TurnSourceLogId !in t.columns && ch == AddTurnSource)
             || (n == Tasks && TaskGate in t.checks && ch == Release(TaskGate))
             || (n == LogEntries && !(PROVENANCE <= t.columns) && ch == AddProvenance)
             || (n == LogEntries && PROVENANCE <= t.columns && LogGate in t.checks && ch == Release(LogGate))
    ensures UpgradeOwed(n, Altered(t, ch)) < UpgradeOwed(n, t)
  {
  }

  lemma ReceiptsPay(t: Table, ch: Change)
    requires exists i :: i in RECEIPT_INDEXES - t.indexes && ch == NoChange.(addIndexes := {i})
    ensures UpgradeOwed(TerminationReceipts, Altered(t, ch)) < UpgradeOwed(TerminationReceipts, t)
  {
    hide RECEIPT_INDEXES, Altered;
    var i :| i in RECEIPT_INDEXES - t.indexes && ch == NoChange.(addIndexes := {i});
    AlteredIndexes(t, ch);
    TakingOneShrinks(RECEIPT_INDEXES, t.indexes, i);
  }

  lemma AlteredIndexes(t: Table, ch: Change)
    ensures Altered(t, ch).indexes == t.indexes + ch.addIndexes
  {
  }

  /** Every committed statement brings an upgrade nearer its end as well. */
  lemma UpgradeProgress(db: Db, s: Statement)
    requires Schema(db) && UpgradeIssues(db, s)
    ensures Applicable(db, s) && Schema(Effect(db, s))
    ensures UpgradeDistance(Effect(db, s)) < UpgradeDistance(db)
  {
    hide TableSchema, Altered, Accepts, UpgradeOwed, PhaseOneOwed, HasV2Check;
    UpgradeStep(db, s);
    if s.Alter? { UpgradeAlterPays(db, s.table, s.change); }
    EmptyReceiptsOwe();
  }

  lemma EmptyReceiptsOwe()
    ensures UpgradeOwed(TerminationReceipts, EMPTY_RECEIPTS) == 3
  {
    assert RECEIPT_INDEXES - {} == RECEIPT_INDEXES;
  }

  predicate ReceiptsUngated(db: Db) {
    TerminationReceipts in db ==> ReceiptGate !in db[TerminationReceipts].checks
  }

  lemma UpgradeNext(db: Db) returns (s: Statement)
    requires Schema(db) && ReceiptsUngated(db) && !Current(db)
    ensures UpgradeIssues(db, s)
  {
    var cap, tasks, logs := db[Invocations], db[Tasks], db[LogEntries];
    if PhaseOneOwed(cap) { s := Alter(Invocations, PhaseOne(cap)); }
    else if CanonicalV1 in cap.checks { s := Alter(Invocations, Swap(CanonicalV1, CanonicalV2)); }
    else if ShadowV2 in cap.checks { s := Alter(Invocations, Release(ShadowV2)); }
    else if AgentGate in cap.checks { s := Alter(Invocations, Release(AgentGate)); }
    else if TurnSourceLogId !in tasks.columns { s := Alter(Tasks, AddTurnSource); }
    else if !(PROVENANCE <= logs.columns) { s := Alter(LogEntries, AddProvenance); }
    else if LogGate in logs.checks { s := Alter(LogEntries, Release(LogGate)); }
    else if TaskGate in tasks.checks { s := Alter(Tasks, Release(TaskGate)); }
    else if TerminationReceipts !in db { s := Create(TerminationReceipts, EMPTY_RECEIPTS); }
    else {
      assert db[TerminationReceipts].indexes != RECEIPT_INDEXES;
      var i :| i in RECEIPT_INDEXES - db[TerminationReceipts].indexes;
      s := Alter(TerminationReceipts, NoChange.(addIndexes := {i}));
    }
  }

  /** An upgrade has nothing left to issue exactly on the current schema, or when a downgrade has
      already fenced the receipt table. */
  lemma UpgradeEnds(db: Db)
    requires Schema(db)
    ensures (forall s :: !UpgradeIssues(db, s)) <==> Current(db) || !ReceiptsUngated(db)
  {
    if ReceiptsUngated(db) && !Current(db) {
      var s := UpgradeNext(db);
    }
  }

  /** Removing the audit columns costs nothing exactly when no row has one of them set: a v2 row whose
      source is not an agent request may carry a reason, and the downgrade does drop it. */
  lemma AuditLossIsExact(t: Table)
    requires InvocationsSchema(t) && Valid(t) && AUDIT <= t.columns
    ensures (forall i | i in t.rows :: RowKeeps(t.rows[i], Altered(t, RemoveAudit).rows[i], {}))
            <==> forall i, c | i in t.rows && c in AUDIT :: At(t.rows[i], c).Null?
  {
    forall i | i in t.rows
      ensures RowKeeps(t.rows[i], Altered(t, RemoveAudit).rows[i], AUDIT)
      ensures forall c | c in AUDIT :: At(Altered(t, RemoveAudit).rows[i], c).Null?
    {
      AlterKeepsRows(t, RemoveAudit, i);
    }
  }

  /** A person's own request that gives a reason. */
  function Reasoned(columns: set<Column>): Row {
    map c | c in columns ::
      if c == TaskId then Is(Num(1))
      else if c == Source then Is(Text("human_request"))
      else if c == Purpose then Is(Text("advisory"))
      else if c == ResumePolicy then Is(Text("attach_only"))
      else if c == RequestReason then Is(Text("why"))
      else Null
  }

  function ReasonedInvocations(columns: set<Column>): Table {
    Table(columns, {TaskId, Source, Purpose, ResumePolicy}, {CanonicalV1, AgentGate}, {OutputLogKey}, {},
          map[0 := Reasoned(columns)])
  }

  /** A table of one unmanaged column that has a row 1. */
  function OneRow(c: Column): Table { Table({c}, {}, {}, {}, {}, map[1 := map[c := Is(Num(1))]]) }

  lemma OneRowIsValid(c: Column)
    ensures Valid(OneRow(c))
  {
  }

  lemma ReasonedFields(columns: set<Column>)
    requires {TaskId, Source, Purpose, ResumePolicy, RequestReason} <= columns
    ensures var r := Reasoned(columns);
            && At(r, TaskId) == Is(Num(1)) && At(r, Source) == Is(Text("human_request"))
            && At(r, Purpose) == Is(Text("advisory")) && At(r, ResumePolicy) == Is(Text("attach_only"))
            && At(r, RequestReason).Is? && r.Keys == columns
  {
  }

  /** The row passes both its own CHECKs and those that came with the table. */
  lemma ReasonedPasses(columns: set<Column>)
    requires {TaskId, Source, Purpose, ResumePolicy, RequestReason} <= columns
    ensures CoreChecks(Reasoned(columns)) == True && !IsAgentRequest(Reasoned(columns))
    ensures Fits(ReasonedInvocations(columns), Reasoned(columns))
  {
    hide Reasoned, AgentRequestV1, At;
    ReasonedFields(columns);
    assert "human_request"[0] != "agent_request"[0];
    assert NotAgent(Reasoned(columns)) == True;
  }

  lemma ReasonedIsValid(columns: set<Column>)
    requires {TaskId, Source, Purpose, ResumePolicy, RequestReason} <= columns
    ensures Valid(ReasonedInvocations(columns))
  {
    hide Reasoned, Evaluate, CoreChecks, Fits, Collide;
    ReasonedPasses(columns);
  }

  lemma ReasonedSchema(columns: set<Column>)
    requires columns == {TaskId} + V1_COLUMNS + AUDIT
    ensures InvocationsSchema(ReasonedInvocations(columns))
  {
    hide Reasoned;
  }

  function ReasonedDb(columns: set<Column>, other: Column): Db {
    map[Invocations := ReasonedInvocations(columns), Tasks := OneRow(other), LogEntries := OneRow(other)]
  }

  lemma ReasonedDbIsGated(columns: set<Column>, other: Column)
    requires columns == {TaskId} + V1_COLUMNS + AUDIT && other !in {TurnSourceLogId} + PROVENANCE
    ensures Schema(ReasonedDb(columns, other)) && ValidDb(ReasonedDb(columns, other)) && Gated(ReasonedDb(columns, other))
    ensures DowngradeIssues(ReasonedDb(columns, other), Alter(Invocations, RemoveAudit))
  {
    hide Reasoned, Valid, InvocationsSchema;
    ReasonedSchema(columns);
    ReasonedIsValid(columns);
    OneRowIsValid(other);
  }

  /** The input on which audit data goes: behind every gate a person's request may carry a reason, the
      next downgrade statement is the one that drops the audit columns, and it commits. */
  lemma AuditLossWitness() returns (db: Db, i: nat)
    ensures Schema(db) && ValidDb(db) && Gated(db) && i in db[Invocations].rows
    ensures !IsAgentRequest(db[Invocations].rows[i]) && At(db[Invocations].rows[i], RequestReason).Is?
    ensures CoreChecks(db[Invocations].rows[i]) == True
    ensures At(db[Invocations].rows[i], TaskId) == Is(Num(1)) && 1 in db[Tasks].rows
    ensures DowngradeIssues(db, Alter(Invocations, RemoveAudit)) && Applicable(db, Alter(Invocations, RemoveAudit))
    ensures Commits(db, Alter(Invocations, RemoveAudit))
    ensures At(Effect(db, Alter(Invocations, RemoveAudit))[Invocations].rows[i], RequestReason).Null?
  {
    hide Reasoned, CoreChecks, Evaluate, Valid, Fits, TableSchema, NextDowngrade, Gated, Accepts, IsAgentRequest, At;
    var columns := {TaskId} + V1_COLUMNS + AUDIT;
    db, i := ReasonedDb(columns, Payload(0)), 0;
    ReasonedFields(columns);
    ReasonedPasses(columns);
    ReasonedDbIsGated(columns, Payload(0));
    DowngradeStep(db, Alter(Invocations, RemoveAudit));
    GatedDowngradeCommits(db, Alter(Invocations, RemoveAudit));
    AuditIsGone(db[Invocations], i);
  }

  lemma AuditIsGone(t: Table, i: nat)
    requires i in t.rows
    ensures At(Altered(t, RemoveAudit).rows[i], RequestReason).Null?
  {
  }
}
