/** The migration script itself, statement by statement, against a live server. */
module TerminalArbitrationScript {
  import opened ThreeValued
  import opened Relational
  import opened MySql
  import opened TerminalArbitration
  import opened TerminalArbitrationRuns

  /** How an attempt ends. Incomplete stands for every "incomplete", "malformed", "not installed",
      "did not settle" and "cannot release" refusal of the script. */
  datatype Result = Done | Crash | AlterRejected | Preflight | Fenced | Incomplete

  function Halt(o: Outcome): Result { if o == Crashed then Crash else AlterRejected }

  ghost predicate OnlyDowngrade(events: seq<Event>, from: nat) {
    forall k | from <= k < |events| :: DowngradeEvent(events[k])
  }

  ghost predicate OnlyUpgrade(events: seq<Event>, from: nat) {
    forall k | from <= k < |events| :: UpgradeEvent(events[k])
  }

  predicate Guarded(t: Table) {
    CanonicalV1 in t.checks || CanonicalV2 in t.checks || ShadowV2 in t.checks || AgentGate in t.checks
  }

  // ---- What can reject a statement ----

  predicate NoProvenance(t: Table, columns: set<Column>) {
    forall i, c | i in t.rows && c in columns :: At(t.rows[i], c).Null?
  }

  predicate DowngradePreflight(db: Db)
    requires Schema(db)
  {
    && (HasV2AuditSchema(db[Invocations]) ==> !HasAgentRequest(db[Invocations]))
    && (TurnSourceLogId in db[Tasks].columns ==> NoProvenance(db[Tasks], {TurnSourceLogId}))
    && (PROVENANCE <= db[LogEntries].columns ==> NoProvenance(db[LogEntries], PROVENANCE))
    && (TerminationReceipts in db ==> db[TerminationReceipts].rows == map[])
  }

  /** The rows a downgrade must not lose: an agent request that has its audit, a Task or LogEntry with
      provenance, a termination receipt. */
  ghost predicate DowngradeConflict(db: Db)
    requires {Invocations, Tasks, LogEntries} <= db.Keys
  {
    || (RequestReason in db[Invocations].columns
        && exists i | i in db[Invocations].rows :: At(db[Invocations].rows[i], Source) == Is(Text("agent_request")))
    || (exists i | i in db[Tasks].rows :: At(db[Tasks].rows[i], TurnSourceLogId).Is?)
    || (exists i | i in db[LogEntries].rows ::
          At(db[LogEntries].rows[i], TurnScope).Is? || At(db[LogEntries].rows[i], ActualTransport).Is?)
    || (TerminationReceipts in db && db[TerminationReceipts].rows.Keys != {})
  }

  lemma AgentRowIs(t: Table)
    ensures HasAgentRequest(t) <==> exists i | i in t.rows :: At(t.rows[i], Source) == Is(Text("agent_request"))
  {
  }

  lemma AuditIsAudited(t: Table)
    requires InvocationsSchema(t)
    ensures HasV2AuditSchema(t) <==> RequestReason in t.columns
    ensures AUDIT <= t.columns <==> RequestReason in t.columns
  {
  }

  lemma ProvenanceIs(tasks: Table, logs: Table)
    requires TasksSchema(tasks) && LogsSchema(logs) && Valid(tasks) && Valid(logs)
    ensures (TurnSourceLogId in tasks.columns ==> NoProvenance(tasks, {TurnSourceLogId})) <==>
            !exists i | i in tasks.rows :: At(tasks.rows[i], TurnSourceLogId).Is?
    ensures (PROVENANCE <= logs.columns ==> NoProvenance(logs, PROVENANCE)) <==>
            !exists i | i in logs.rows :: At(logs.rows[i], TurnScope).Is? || At(logs.rows[i], ActualTransport).Is?
  {
    hide Evaluate;
    assert TurnSourceLogId in {TurnSourceLogId} && TurnScope in PROVENANCE && ActualTransport in PROVENANCE;
    forall i | i in tasks.rows ensures tasks.rows[i].Keys == tasks.columns { assert Fits(tasks, tasks.rows[i]); }
    forall i | i in logs.rows ensures logs.rows[i].Keys == logs.columns { assert Fits(logs, logs.rows[i]); }
  }

  /** The four queries of the downgrade find something exactly when there is such a row. */
  lemma PreflightFindsConflicts(db: Db)
    requires Schema(db) && ValidDb(db)
    ensures DowngradePreflight(db) <==> !DowngradeConflict(db)
  {
    hide HasV2AuditSchema, HasAgentRequest, NoProvenance, Valid, InvocationsSchema, TasksSchema, LogsSchema, ReceiptsSchema;
    assert TableSchema(Invocations, db[Invocations]) && TableSchema(Tasks, db[Tasks]) && TableSchema(LogEntries, db[LogEntries]);
    AgentRowIs(db[Invocations]);
    AuditIsAudited(db[Invocations]);
    ProvenanceIs(db[Tasks], db[LogEntries]);
    if TerminationReceipts in db && db[TerminationReceipts].rows.Keys == {} { assert db[TerminationReceipts].rows == map[]; }
  }

  /** The gates a downgrade installs, each on the columns it guards, and the one CHECK it restores. */
  lemma DowngradeAdds(db: Db, s: Statement)
    requires Schema(db) && DowngradeIssues(db, s)
    ensures s.Alter? || s.Drop?
    ensures s.Alter? ==> s.change.addKeys == {} && s.change.require == {}
    ensures s.Alter? ==> forall k | k in s.change.addChecks ::
              || (k == ReceiptGate && s.table == TerminationReceipts)
              || (k == AgentGate && s.table == Invocations && HasV2AuditSchema(db[Invocations]))
              || (k == TaskGate && s.table == Tasks && TurnSourceLogId in db[Tasks].columns)
              || (k == LogGate && s.table == LogEntries && PROVENANCE <= db[LogEntries].columns)
              || (k == CanonicalV1 && s.table == Invocations && CanonicalV2 in db[Invocations].checks)
  {
    hide TableSchema, HasV2AuditSchema;
  }

  lemma ClearRowAdmits(t: Table, i: nat, k: Check)
    requires Valid(t) && i in t.rows
    requires k in {AgentGate, TaskGate, LogGate, CanonicalV1}
    requires k == AgentGate ==> !HasAgentRequest(t)
    requires k == TaskGate ==> NoProvenance(t, {TurnSourceLogId})
    requires k == LogGate ==> NoProvenance(t, PROVENANCE)
    requires k == CanonicalV1 ==> CanonicalV2 in t.checks
    ensures Admits(Evaluate(k, t.rows[i]))
  {
    var r := t.rows[i];
    if k == CanonicalV1 {
      assert Fits(t, r);
      IdentityOrder(r);
    }
    hide AgentRequestV1, AgentAudit, Fits;
    if k == AgentGate { assert !IsAgentRequest(r); }
    if k == TaskGate { assert TurnSourceLogId in {TurnSourceLogId}; }
    if k == LogGate { assert TurnScope in PROVENANCE && ActualTransport in PROVENANCE; }
  }

  /** Whatever gates an earlier attempt left, a downgrade statement is rejected only while a query of the
      preflight finds a row: with the queries empty every gate installs. */
  lemma RejectedDowngradeFindsRow(db: Db, s: Statement)
    requires Schema(db) && ValidDb(db) && DowngradeIssues(db, s) && Applicable(db, s) && !Commits(db, s)
    ensures DowngradeConflict(db)
  {
    hide DowngradeConflict, TableSchema, Valid, Accepts, Altered, Evaluate, DowngradeIssues, HasAgentRequest, NoProvenance,
      HasV2AuditSchema, RowsMeet;
    DowngradeAdds(db, s);
    StatementDecides(db, s);
    PreflightFindsConflicts(db);
    var t, ch := db[s.table], s.change;
    if DowngradePreflight(db) {
      forall i, k | i in t.rows && k in ch.addChecks ensures Admits(Evaluate(k, t.rows[i])) {
        ClearRowAdmits(t, i, k);
      }
      OnlyChecksToMeet(t, ch);
    }
  }

  predicate UpgradePreflight(db: Db)
    requires Schema(db)
  {
    && (!(AUDIT <= db[Invocations].columns && HasV2Check(db[Invocations])) ==> !HasAgentRequest(db[Invocations]))
    && !SharedOutput(db[Invocations])
  }

  /** The rows an upgrade cannot take over: an agent request that no v2 CHECK has vouched for, and two
      invocations of one Task with one output log. */
  ghost predicate UpgradeConflict(db: Db)
    requires Invocations in db
  {
    var t := db[Invocations];
    || (!(RequestReason in t.columns && (CanonicalV2 in t.checks || ShadowV2 in t.checks))
        && exists i | i in t.rows :: At(t.rows[i], Source) == Is(Text("agent_request")))
    || (exists i, j | i in t.rows && j in t.rows && i != j ::
          && At(t.rows[i], OutputLogId).Is? && At(t.rows[i], OutputLogId) == At(t.rows[j], OutputLogId)
          && At(t.rows[i], TaskId) == At(t.rows[j], TaskId))
  }

  /** The two queries of the upgrade find something exactly when there are such rows. */
  lemma UpgradePreflightFindsConflicts(db: Db)
    requires Schema(db)
    ensures UpgradePreflight(db) <==> !UpgradeConflict(db)
  {
    hide HasAgentRequest, InvocationsSchema;
    assert TableSchema(Invocations, db[Invocations]);
    AgentRowIs(db[Invocations]);
    AuditIsAudited(db[Invocations]);
  }

  lemma PhaseOneMeets(t: Table)
    requires InvocationsSchema(t) && Valid(t) && !SharedOutput(t) && (!HasV2Check(t) ==> !HasAgentRequest(t))
    ensures RowsMeet(t, PhaseOne(t))
  {
    hide Evaluate, SharedOutput, KeyHolds, HasAgentRequest, HasV2Check;
    forall i | i in t.rows
      ensures At(t.rows[i], TaskId).Is?
      ensures !HasV2Check(t) ==> Admits(Evaluate(ShadowV2, t.rows[i]))
    {
      assert Fits(t, t.rows[i]);
      if !HasV2Check(t) { OtherSourceAdmits(t, i); }
    }
    SharedOutputIsCollision(t);
  }

  lemma OtherSourceAdmits(t: Table, i: nat)
    requires i in t.rows && !HasAgentRequest(t)
    ensures Admits(Evaluate(ShadowV2, t.rows[i]))
  {
    hide AgentRequestV1, AgentAudit;
    assert !IsAgentRequest(t.rows[i]);
  }

  /** Nor is an upgrade statement rejected unless a query of its preflight finds a row. */
  lemma RejectedUpgradeFindsRow(db: Db, s: Statement)
    requires Schema(db) && ValidDb(db) && UpgradeIssues(db, s) && Applicable(db, s) && !Commits(db, s)
    ensures PhaseOneOwed(db[Invocations]) && UpgradeConflict(db)
  {
    var t := db[Invocations];
    hide UpgradeConflict, Evaluate, Accepts, Altered, RowsMeet, Valid, SharedOutput, HasAgentRequest, PhaseOneOwed;
    if !PhaseOneOwed(t) { SettledUpgradeCommits(db, s); }
    StatementDecides(db, s);
    assert TableSchema(Invocations, t) && Valid(t);
    UpgradePreflightFindsConflicts(db);
    if UpgradePreflight(db) { PhaseOneMeets(t); }
  }

  // ---- One statement ----

  method IssueDowngrade(s: Server, st: Statement) returns (o: Outcome)
    requires s.Valid() && Schema(s.db) && DowngradeIssues(s.db, st)
    modifies s
    ensures s.Valid() && Schema(s.db) && s.origin == old(s.origin)
    ensures s.deaths == old(s.deaths) + if o == Crashed then 1 else 0
    ensures o == Committed ==> Became(old(s.db), st, s.db)
    ensures o == Rejected ==> SameSchemas(old(s.db), s.db) && Applicable(s.db, st) && !Commits(s.db, st)
    ensures o == Rejected ==> DowngradeConflict(s.db)
    ensures old(s.events) <= s.events && OnlyDowngrade(s.events, |old(s.events)|)
  {
    hide DowngradeConflict;
    DowngradeStep(s.db, st);
    o := s.Execute(st);
    forall k | |old(s.events)| <= k < |s.events|
      ensures DowngradeEvent(s.events[k])
    {
      if s.events[k].Ran? { SchemaShared(old(s.db), s.events[k].before); }
    }
    if SameSchemas(old(s.db), s.db) { SchemaShared(old(s.db), s.db); }
    else { SchemaShared(Effect(old(s.db), st), s.db); }
    if o == Committed { EffectBecomes(old(s.db), st, s.db); }
    if o == Rejected { RejectedDowngradeFindsRow(s.db, st); }
  }

  /** Behind the gates a statement commits unless the process dies. */
  method IssueGated(s: Server, st: Statement) returns (o: Outcome)
    requires s.Valid() && Schema(s.db) && DowngradeIssues(s.db, st) && Gated(s.db)
    modifies s
    ensures s.Valid() && Schema(s.db) && s.origin == old(s.origin)
    ensures s.deaths == old(s.deaths) + if o == Crashed then 1 else 0
    ensures o != Rejected
    ensures o == Committed ==> Became(old(s.db), st, s.db)
    ensures old(s.events) <= s.events && OnlyDowngrade(s.events, |old(s.events)|)
  {
    o := IssueDowngrade(s, st);
    hide TableSchema, Valid, Became;
    if o == Rejected {
      GatedShared(old(s.db), s.db);
      GatedDowngradeCommits(s.db, st);
    }
  }

  // ---- Downgrade ----

  method InstallReceiptGate(s: Server) returns (r: Result)
    requires s.Valid() && Schema(s.db)
    modifies s
    ensures s.Valid() && Schema(s.db) && s.origin == old(s.origin)
    ensures s.deaths == old(s.deaths) + if r == Crash then 1 else 0
    ensures old(s.events) <= s.events && OnlyDowngrade(s.events, |old(s.events)|)
    ensures r in {Done, Crash, AlterRejected}
    ensures r == AlterRejected ==> DowngradeConflict(s.db)
    ensures old(Gated(s.db)) ==> r == Done && s.db == old(s.db)
    ensures r == Done ==> ReceiptsGated(s.db)
  {
    hide DowngradeConflict, ValidDb, Leads, DowngradeEvent, TableSchema;
    if TerminationReceipts !in s.db { return Done; }
    if ReceiptGate !in s.db[TerminationReceipts].checks {
      var o := IssueDowngrade(s, Alter(TerminationReceipts, Install(ReceiptGate)));
      if o != Committed { return Halt(o); }
    }
    if ReceiptGate !in s.db[TerminationReceipts].checks { return Incomplete; }
    r := Done;
  }

  method EnsureInvocationsGate(s: Server) returns (r: Result)
    requires s.Valid() && Schema(s.db) && ReceiptsGated(s.db)
    modifies s
    ensures s.Valid() && Schema(s.db) && s.origin == old(s.origin)
    ensures s.deaths == old(s.deaths) + if r == Crash then 1 else 0
    ensures old(s.events) <= s.events && OnlyDowngrade(s.events, |old(s.events)|)
    ensures r in {Done, Crash, AlterRejected}
    ensures r == AlterRejected ==> DowngradeConflict(s.db)
    ensures old(Gated(s.db)) ==> r == Done && s.db == old(s.db)
    ensures r == Done ==> ReceiptsGated(s.db) && InvocationsGated(s.db)
  {
    hide DowngradeConflict, ValidDb, Leads, DowngradeEvent, LogsSchema, TasksSchema, ReceiptsSchema;
    if !Guarded(s.db[Invocations]) { return Incomplete; }
    if !HasV2AuditSchema(s.db[Invocations]) {
      if CanonicalV1 !in s.db[Invocations].checks || ShadowV2 in s.db[Invocations].checks { return Incomplete; }
      return Done;
    }
    if AgentGate !in s.db[Invocations].checks {
      var o := IssueDowngrade(s, Alter(Invocations, Install(AgentGate)));
      if o != Committed { return Halt(o); }
    }
    if !Guarded(s.db[Invocations]) || AgentGate !in s.db[Invocations].checks { return Incomplete; }
    r := Done;
  }

  predicate TasksGated(db: Db)
    requires Schema(db)
  {
    TurnSourceLogId in db[Tasks].columns ==> TaskGate in db[Tasks].checks
  }

  method InstallTaskGate(s: Server) returns (r: Result)
    requires s.Valid() && Schema(s.db) && ReceiptsGated(s.db) && InvocationsGated(s.db)
    modifies s
    ensures s.Valid() && Schema(s.db) && s.origin == old(s.origin)
    ensures s.deaths == old(s.deaths) + if r == Crash then 1 else 0
    ensures old(s.events) <= s.events && OnlyDowngrade(s.events, |old(s.events)|)
    ensures r in {Done, Crash, AlterRejected}
    ensures r == AlterRejected ==> DowngradeConflict(s.db)
    ensures old(Gated(s.db)) ==> r == Done && s.db == old(s.db)
    ensures r == Done ==> ReceiptsGated(s.db) && InvocationsGated(s.db) && TasksGated(s.db)
  {
    hide DowngradeConflict, ValidDb, Leads, DowngradeEvent, TableSchema;
    if TurnSourceLogId in s.db[Tasks].columns && TaskGate !in s.db[Tasks].checks {
      var o := IssueDowngrade(s, Alter(Tasks, Install(TaskGate)));
      if o != Committed { return Halt(o); }
    }
    if !TasksGated(s.db) { return Incomplete; }
    r := Done;
  }

  method InstallAuxiliaryGates(s: Server) returns (r: Result)
    requires s.Valid() && Schema(s.db) && ReceiptsGated(s.db) && InvocationsGated(s.db)
    modifies s
    ensures s.Valid() && Schema(s.db) && s.origin == old(s.origin)
    ensures s.deaths == old(s.deaths) + if r == Crash then 1 else 0
    ensures old(s.events) <= s.events && OnlyDowngrade(s.events, |old(s.events)|)
    ensures r in {Done, Crash, AlterRejected}
    ensures r == AlterRejected ==> DowngradeConflict(s.db)
    ensures old(Gated(s.db)) ==> r == Done && s.db == old(s.db)
    ensures r == Done ==> Gated(s.db)
  {
    hide DowngradeConflict, ValidDb, Leads, DowngradeEvent, TableSchema;
    r := InstallTaskGate(s);
    if r != Done { return; }
    if PROVENANCE <= s.db[LogEntries].columns && LogGate !in s.db[LogEntries].checks {
      var o := IssueDowngrade(s, Alter(LogEntries, Install(LogGate)));
      if o != Committed { return Halt(o); }
    }
    if !TasksGated(s.db) || (PROVENANCE <= s.db[LogEntries].columns && LogGate !in s.db[LogEntries].checks) {
      return Incomplete;
    }
  }

  method DropReceipts(s: Server) returns (r: Result)
    requires s.Valid() && Schema(s.db) && Gated(s.db)
    modifies s
    ensures s.Valid() && Schema(s.db) && s.origin == old(s.origin)
    ensures s.deaths == old(s.deaths) + if r == Crash then 1 else 0
    ensures old(s.events) <= s.events && OnlyDowngrade(s.events, |old(s.events)|)
    ensures r in {Done, Crash}
    ensures r == Done ==> Gated(s.db) && TerminationReceipts !in s.db
  {
    hide ValidDb, Leads, DowngradeEvent, TableSchema;
    if TerminationReceipts !in s.db { return Done; }
    if ReceiptGate !in s.db[TerminationReceipts].checks { return Incomplete; }
    var o := IssueGated(s, Drop(TerminationReceipts));
    if o != Committed { return Crash; }
    r := Done;
  }

  predicate InvocationsLegacy(db: Db)
    requires Schema(db)
  {
    CanonicalV1 in db[Invocations].checks && !HasV2AuditSchema(db[Invocations])
  }

  method RestoreIdentity(s: Server) returns (r: Result)
    requires s.Valid() && Schema(s.db) && Gated(s.db) && TerminationReceipts !in s.db
    modifies s
    ensures s.Valid() && Schema(s.db) && s.origin == old(s.origin)
    ensures s.deaths == old(s.deaths) + if r == Crash then 1 else 0
    ensures old(s.events) <= s.events && OnlyDowngrade(s.events, |old(s.events)|)
    ensures r in {Done, Crash}
    ensures r == Done ==> Gated(s.db) && TerminationReceipts !in s.db
                          && CanonicalV1 in s.db[Invocations].checks && ShadowV2 !in s.db[Invocations].checks
  {
    hide ValidDb, Leads, DowngradeEvent, LogsSchema, TasksSchema, ReceiptsSchema;
    if CanonicalV1 !in s.db[Invocations].checks {
      var o := IssueGated(s, Alter(Invocations, Swap(CanonicalV2, CanonicalV1)));
      if o != Committed { return Crash; }
    }
    if !Guarded(s.db[Invocations]) || CanonicalV1 !in s.db[Invocations].checks { return Incomplete; }
    r := DropShadow(s);
  }

  method DropShadow(s: Server) returns (r: Result)
    requires s.Valid() && Schema(s.db) && Gated(s.db) && TerminationReceipts !in s.db
    requires CanonicalV1 in s.db[Invocations].checks
    modifies s
    ensures s.Valid() && Schema(s.db) && s.origin == old(s.origin)
    ensures s.deaths == old(s.deaths) + if r == Crash then 1 else 0
    ensures old(s.events) <= s.events && OnlyDowngrade(s.events, |old(s.events)|)
    ensures r in {Done, Crash}
    ensures r == Done ==> Gated(s.db) && TerminationReceipts !in s.db
                          && CanonicalV1 in s.db[Invocations].checks && ShadowV2 !in s.db[Invocations].checks
  {
    hide ValidDb, Leads, DowngradeEvent, LogsSchema, TasksSchema, ReceiptsSchema;
    if ShadowV2 in s.db[Invocations].checks {
      var o := IssueGated(s, Alter(Invocations, Release(ShadowV2)));
      if o != Committed { return Crash; }
    }
    r := Done;
  }

  method DowngradeInvocations(s: Server) returns (r: Result)
    requires s.Valid() && Schema(s.db) && Gated(s.db) && TerminationReceipts !in s.db
    modifies s
    ensures s.Valid() && Schema(s.db) && s.origin == old(s.origin)
    ensures s.deaths == old(s.deaths) + if r == Crash then 1 else 0
    ensures old(s.events) <= s.events && OnlyDowngrade(s.events, |old(s.events)|)
    ensures r in {Done, Crash}
    ensures r == Done ==> Gated(s.db) && TerminationReceipts !in s.db && InvocationsLegacy(s.db)
  {
    hide ValidDb, Leads, DowngradeEvent, LogsSchema, TasksSchema, ReceiptsSchema;
    if !HasV2AuditSchema(s.db[Invocations]) {
      if OutputLogKey in s.db[Invocations].keys { return Incomplete; }
      return Done;
    }
    r := RestoreIdentity(s);
    if r != Done { return; }
    if !HasV2AuditSchema(s.db[Invocations]) { return Done; }
    var o := IssueGated(s, Alter(Invocations, RemoveAudit));
    if o != Committed { return Crash; }
    if !Guarded(s.db[Invocations]) || CanonicalV1 !in s.db[Invocations].checks
       || OutputLogKey in s.db[Invocations].keys || AUDIT * s.db[Invocations].columns != {} {
      return Incomplete;
    }
    r := Done;
  }

  predicate AuxiliaryLegacy(db: Db)
    requires Schema(db)
  {
    TurnSourceLogId !in db[Tasks].columns && !(PROVENANCE <= db[LogEntries].columns)
  }

  method DowngradeLogs(s: Server) returns (r: Result)
    requires s.Valid() && Schema(s.db) && Gated(s.db) && TerminationReceipts !in s.db && InvocationsLegacy(s.db)
    modifies s
    ensures s.Valid() && Schema(s.db) && s.origin == old(s.origin)
    ensures s.deaths == old(s.deaths) + if r == Crash then 1 else 0
    ensures old(s.events) <= s.events && OnlyDowngrade(s.events, |old(s.events)|)
    ensures r in {Done, Crash}
    ensures r == Done ==> Gated(s.db) && TerminationReceipts !in s.db && InvocationsLegacy(s.db)
                          && !(PROVENANCE <= s.db[LogEntries].columns)
  {
    hide ValidDb, Leads, DowngradeEvent, TableSchema;
    if PROVENANCE <= s.db[LogEntries].columns {
      if LogGate !in s.db[LogEntries].checks { return Incomplete; }
      var o := IssueGated(s, Alter(LogEntries, RemoveProvenance));
      if o != Committed { return Crash; }
    }
    r := Done;
  }

  method DowngradeAuxiliary(s: Server) returns (r: Result)
    requires s.Valid() && Schema(s.db) && Gated(s.db) && TerminationReceipts !in s.db && InvocationsLegacy(s.db)
    modifies s
    ensures s.Valid() && Schema(s.db) && s.origin == old(s.origin)
    ensures s.deaths == old(s.deaths) + if r == Crash then 1 else 0
    ensures old(s.events) <= s.events && OnlyDowngrade(s.events, |old(s.events)|)
    ensures r in {Done, Crash}
    ensures r == Done ==> Gated(s.db) && TerminationReceipts !in s.db && InvocationsLegacy(s.db) && AuxiliaryLegacy(s.db)
  {
    hide ValidDb, Leads, DowngradeEvent, TableSchema;
    r := DowngradeLogs(s);
    if r != Done { return; }
    if TurnSourceLogId in s.db[Tasks].columns {
      if TaskGate !in s.db[Tasks].checks { return Incomplete; }
      var o := IssueGated(s, Alter(Tasks, RemoveTurnSource));
      if o != Committed { return Crash; }
    }
    if !AuxiliaryLegacy(s.db) { return Incomplete; }
    r := Done;
  }

  lemma ReleasedIsLegacy(db: Db)
    requires Schema(db) && TerminationReceipts !in db && InvocationsLegacy(db) && AuxiliaryLegacy(db)
    requires AgentGate !in db[Invocations].checks
    ensures Legacy(db)
  {
    DowngradeEnds(db);
  }

  method FinishDowngrade(s: Server) returns (r: Result)
    requires s.Valid() && Schema(s.db) && Gated(s.db) && TerminationReceipts !in s.db
    requires InvocationsLegacy(s.db) && AuxiliaryLegacy(s.db) && AgentGate in s.db[Invocations].checks
    modifies s
    ensures s.Valid() && Schema(s.db) && s.origin == old(s.origin)
    ensures s.deaths == old(s.deaths) + if r == Crash then 1 else 0
    ensures old(s.events) <= s.events && OnlyDowngrade(s.events, |old(s.events)|)
    ensures r in {Done, Crash}
    ensures r == Done ==> Legacy(s.db)
  {
    hide ValidDb, Leads, DowngradeEvent;
    if !AuxiliaryLegacy(s.db) || !Guarded(s.db[Invocations]) || CanonicalV1 !in s.db[Invocations].checks
       || OutputLogKey in s.db[Invocations].keys || AUDIT * s.db[Invocations].columns != {} {
      return Incomplete;
    }
    var o := IssueGated(s, Alter(Invocations, Release(AgentGate)));
    if o != Committed { return Crash; }
    if CanonicalV1 !in s.db[Invocations].checks || AgentGate in s.db[Invocations].checks { return Incomplete; }
    ReleasedIsLegacy(s.db);
    r := Done;
  }

  /** Behind the gates none of the preflight queries can find a row. */
  lemma GatedPassesPreflight(db: Db)
    requires Schema(db) && ValidDb(db) && Gated(db)
    ensures DowngradePreflight(db)
  {
    hide TableSchema, Valid, HasV2AuditSchema, HasAgentRequest, NoProvenance;
    GatedHasNoAgents(db[Invocations]);
    GatedHasNoProvenance(Tasks, db[Tasks], {TurnSourceLogId});
    GatedHasNoProvenance(LogEntries, db[LogEntries], PROVENANCE);
    if TerminationReceipts in db { GatedHasNoReceipts(db[TerminationReceipts]); }
  }

  lemma GatedHasNoAgents(t: Table)
    requires TableSchema(Invocations, t) && Valid(t)
    ensures AgentGate in t.checks ==> !HasAgentRequest(t)
  {
    hide TableSchema, Evaluate, IsAgentRequest, Fits;
    forall i | i in t.rows && AgentGate in t.checks ensures !IsAgentRequest(t.rows[i]) {
      GatedRow(Invocations, t, t.rows[i], RequestReason);
    }
  }

  lemma GatedHasNoProvenance(n: TableName, t: Table, columns: set<Column>)
    requires TableSchema(n, t) && Valid(t)
    requires (n == Tasks && columns == {TurnSourceLogId}) || (n == LogEntries && columns == PROVENANCE)
    ensures (if n == Tasks then TaskGate else LogGate) in t.checks ==> NoProvenance(t, columns)
  {
    hide TableSchema, Evaluate, IsAgentRequest, Fits;
    forall i, c | i in t.rows && c in columns && (if n == Tasks then TaskGate else LogGate) in t.checks
      ensures At(t.rows[i], c).Null?
    {
      GatedRow(n, t, t.rows[i], c);
    }
  }

  lemma GatedHasNoReceipts(t: Table)
    requires TableSchema(TerminationReceipts, t) && Valid(t)
    ensures ReceiptGate in t.checks ==> t.rows == map[]
  {
    hide TableSchema, Evaluate, IsAgentRequest, Fits;
    forall i | i in t.rows ensures ReceiptGate !in t.checks {
      GatedRow(TerminationReceipts, t, t.rows[i], OperationId);
    }
  }

  /** One attempt at the downgrade, from whatever an earlier attempt left. It ends on the legacy schema, or
      by a crash, or because a row stands in the way before the gates are in: without such a row every
      attempt gets through or dies, whatever gates the last one left. A row that stands there at the start
      stops it before any statement, and no other refusal can fire. Once all the gates are in they stay.
      What it commits is exactly the distance it covers. */
  method Downgrade(s: Server) returns (r: Result)
    requires s.Valid() && Schema(s.db)
    modifies s
    ensures s.Valid() && Schema(s.db) && s.origin == old(s.origin)
    ensures s.deaths == old(s.deaths) + if r == Crash then 1 else 0
    ensures old(s.events) <= s.events && OnlyDowngrade(s.events, |old(s.events)|)
    ensures r in {Done, Crash, AlterRejected, Preflight}
    ensures r == Done ==> Legacy(s.db)
    ensures r == Done ==>
              && s.db.Keys == {Invocations, Tasks, LogEntries}
              && s.db[Invocations].checks == {CanonicalV1} && s.db[Invocations].keys == {}
              && {RequestReason, ProtocolVersion, OutputHash} !! s.db[Invocations].columns
              && s.db[Tasks].checks == {} && TurnSourceLogId !in s.db[Tasks].columns
              && s.db[LogEntries].checks == {} && {TurnScope, ActualTransport} !! s.db[LogEntries].columns
    ensures r in {AlterRejected, Preflight} ==>
              || (exists i | i in s.db[Invocations].rows :: At(s.db[Invocations].rows[i], Source) == Is(Text("agent_request")))
              || (exists i | i in s.db[Tasks].rows :: At(s.db[Tasks].rows[i], TurnSourceLogId).Is?)
              || (exists i | i in s.db[LogEntries].rows ::
                    At(s.db[LogEntries].rows[i], TurnScope).Is? || At(s.db[LogEntries].rows[i], ActualTransport).Is?)
              || (TerminationReceipts in s.db && exists i :: i in s.db[TerminationReceipts].rows)
    ensures r in {AlterRejected, Preflight} ==> DowngradeConflict(s.db)
    ensures r == Preflight <==> old(DowngradeConflict(s.db))
    ensures r == Preflight ==> s.events == old(s.events)
    ensures r in {AlterRejected, Preflight} ==> !old(Gated(s.db))
    ensures old(Gated(s.db)) ==> Gated(s.db)
    ensures Statements(s.events[|old(s.events)|..]) + DowngradeDistance(s.db) == old(DowngradeDistance(s.db))
  {
    hide ValidDb, Leads, DowngradeEvent, TableSchema, Gated, DowngradePreflight, DowngradeConflict, DowngradeDistance, Legacy;
    ghost var before, first, origin := s.db, s.events, s.origin;
    PreflightFindsConflicts(s.db);
    if Gated(s.db) { GatedPassesPreflight(s.db); }
    if !DowngradePreflight(s.db) {
      r := Preflight;
    } else {
      r := InstallGates(s);
      if r == Done { r := RemoveGated(s); }
    }
    AttemptRun(s, origin, first, before);
    AttemptPays(before, s.events, |first|, s.db);
    if DowngradeConflict(s.db) { ConflictIsARow(s.db); }
    if r == Done { LegacyIs(s.db); }
  }

  lemma LegacyIs(db: Db)
    requires Schema(db) && Legacy(db)
    ensures db.Keys == {Invocations, Tasks, LogEntries}
    ensures db[Invocations].checks == {CanonicalV1} && db[Invocations].keys == {}
    ensures {RequestReason, ProtocolVersion, OutputHash} !! db[Invocations].columns
    ensures db[Tasks].checks == {} && TurnSourceLogId !in db[Tasks].columns
    ensures db[LogEntries].checks == {} && {TurnScope, ActualTransport} !! db[LogEntries].columns
  {
    assert TableSchema(Invocations, db[Invocations]);
  }

  lemma ConflictIsARow(db: Db)
    requires {Invocations, Tasks, LogEntries} <= db.Keys && DowngradeConflict(db)
    ensures || (exists i | i in db[Invocations].rows :: At(db[Invocations].rows[i], Source) == Is(Text("agent_request")))
            || (exists i | i in db[Tasks].rows :: At(db[Tasks].rows[i], TurnSourceLogId).Is?)
            || (exists i | i in db[LogEntries].rows ::
                  At(db[LogEntries].rows[i], TurnScope).Is? || At(db[LogEntries].rows[i], ActualTransport).Is?)
            || (TerminationReceipts in db && exists i :: i in db[TerminationReceipts].rows)
  {
    hide At;
  }

  lemma AttemptPays(before: Db, events: seq<Event>, from: nat, after: Db)
    requires Schema(before) && ValidDb(before) && from <= |events| && OnlyDowngrade(events, from)
    requires Leads(before, events[from..], after)
    ensures Schema(after) && (Gated(before) ==> Gated(after))
    ensures Statements(events[from..]) + DowngradeDistance(after) == DowngradeDistance(before)
  {
    hide ValidDb, Leads, DowngradeEvent, TableSchema, Gated, DowngradeDistance, Legacy;
    DowngradeRunPays(before, events[from..], after);
    if Gated(before) { GatedRunStaysGated(before, events[from..], after); }
  }

  method InstallGates(s: Server) returns (r: Result)
    requires s.Valid() && Schema(s.db)
    modifies s
    ensures s.Valid() && Schema(s.db) && s.origin == old(s.origin)
    ensures s.deaths == old(s.deaths) + if r == Crash then 1 else 0
    ensures old(s.events) <= s.events && OnlyDowngrade(s.events, |old(s.events)|)
    ensures r in {Done, Crash, AlterRejected}
    ensures r == AlterRejected ==> DowngradeConflict(s.db)
    ensures r == Done ==> Gated(s.db)
    ensures r == AlterRejected ==> !old(Gated(s.db))
  {
    hide DowngradeConflict, Gated, ReceiptsGated, InvocationsGated, Schema;
    r := InstallReceiptGate(s);
    if r != Done { return; }
    r := EnsureInvocationsGate(s);
    if r != Done { return; }
    r := InstallAuxiliaryGates(s);
  }

  method RemoveGated(s: Server) returns (r: Result)
    requires s.Valid() && Schema(s.db) && Gated(s.db)
    modifies s
    ensures s.Valid() && Schema(s.db) && s.origin == old(s.origin)
    ensures s.deaths == old(s.deaths) + if r == Crash then 1 else 0
    ensures old(s.events) <= s.events && OnlyDowngrade(s.events, |old(s.events)|)
    ensures r in {Done, Crash}
    ensures r == Done ==> Legacy(s.db)
  {
    hide Gated, InvocationsLegacy, AuxiliaryLegacy, TableSchema, Legacy, Leads, ValidDb, DowngradeEvent;
    r := DropReceipts(s);
    if r != Done { return; }
    r := DowngradeInvocations(s);
    if r != Done { return; }
    r := DowngradeAuxiliary(s);
    if r != Done { return; }
    if AgentGate in s.db[Invocations].checks { r := FinishDowngrade(s); }
    else { ReleasedIsLegacy(s.db); }
  }

  // ---- Upgrade ----

  method IssueUpgrade(s: Server, st: Statement) returns (o: Outcome)
    requires s.Valid() && Schema(s.db) && UpgradeIssues(s.db, st)
    modifies s
    ensures s.Valid() && Schema(s.db) && s.origin == old(s.origin)
    ensures s.deaths == old(s.deaths) + if o == Crashed then 1 else 0
    ensures old(s.events) <= s.events && OnlyUpgrade(s.events, |old(s.events)|)
    ensures o == Committed ==> Became(old(s.db), st, s.db)
    ensures o == Rejected ==> old(PhaseOneOwed(s.db[Invocations])) && UpgradeConflict(s.db)
  {
    UpgradeStep(s.db, st);
    o := s.Execute(st);
    hide TableSchema, Valid, PhaseOneOwed, UpgradeConflict;
    forall k | |old(s.events)| <= k < |s.events|
      ensures UpgradeEvent(s.events[k])
    {
      if s.events[k].Ran? { SchemaShared(old(s.db), s.events[k].before); }
    }
    if SameSchemas(old(s.db), s.db) { SchemaShared(old(s.db), s.db); }
    else { SchemaShared(Effect(old(s.db), st), s.db); }
    if o == Committed { EffectBecomes(old(s.db), st, s.db); }
    if o == Rejected { RejectedWasOwed(old(s.db), s.db, st); }
  }

  lemma RejectedWasOwed(a: Db, b: Db, st: Statement)
    requires SameSchemas(a, b) && Schema(a) && Schema(b) && UpgradeIssues(b, st) && ValidDb(b)
    requires Applicable(b, st) && !Commits(b, st)
    ensures PhaseOneOwed(a[Invocations]) && UpgradeConflict(b)
  {
    hide UpgradeConflict, TableSchema, UpgradeIssues;
    assert SameSchema(a[Invocations], b[Invocations]);
    RejectedUpgradeFindsRow(b, st);
  }

  method ReplaceIdentity(s: Server) returns (r: Result)
    requires s.Valid() && Schema(s.db) && ReceiptsUngated(s.db) && !PhaseOneOwed(s.db[Invocations])
    modifies s
    ensures s.Valid() && Schema(s.db) && s.origin == old(s.origin)
    ensures s.deaths == old(s.deaths) + if r == Crash then 1 else 0
    ensures old(s.events) <= s.events && OnlyUpgrade(s.events, |old(s.events)|)
    ensures r in {Done, Crash}
    ensures r == Done ==> ReceiptsUngated(s.db) && !PhaseOneOwed(s.db[Invocations]) && CanonicalV2 in s.db[Invocations].checks
  {
    hide ValidDb, Leads, UpgradeEvent, LogsSchema, TasksSchema, ReceiptsSchema;
    if CanonicalV2 !in s.db[Invocations].checks {
      if ShadowV2 !in s.db[Invocations].checks { return Incomplete; }
      var o := IssueUpgrade(s, Alter(Invocations, Swap(CanonicalV1, CanonicalV2)));
      if o != Committed { return Halt(o); }
    }
    if !Guarded(s.db[Invocations]) || CanonicalV2 !in s.db[Invocations].checks { return Incomplete; }
    r := Done;
  }

  predicate InvocationsCurrent(db: Db)
    requires Schema(db)
  {
    !PhaseOneOwed(db[Invocations]) && db[Invocations].checks == {CanonicalV2}
  }

  method ReleaseShadow(s: Server) returns (r: Result)
    requires s.Valid() && Schema(s.db) && ReceiptsUngated(s.db) && !PhaseOneOwed(s.db[Invocations])
    requires CanonicalV2 in s.db[Invocations].checks
    modifies s
    ensures s.Valid() && Schema(s.db) && s.origin == old(s.origin)
    ensures s.deaths == old(s.deaths) + if r == Crash then 1 else 0
    ensures old(s.events) <= s.events && OnlyUpgrade(s.events, |old(s.events)|)
    ensures r in {Done, Crash}
    ensures r == Done ==> ReceiptsUngated(s.db) && !PhaseOneOwed(s.db[Invocations])
                          && CanonicalV2 in s.db[Invocations].checks && ShadowV2 !in s.db[Invocations].checks
  {
    hide ValidDb, Leads, UpgradeEvent, LogsSchema, TasksSchema, ReceiptsSchema;
    if ShadowV2 in s.db[Invocations].checks {
      var o := IssueUpgrade(s, Alter(Invocations, Release(ShadowV2)));
      if o != Committed { return Halt(o); }
    }
    r := Done;
  }

  method ReleaseInvocations(s: Server) returns (r: Result)
    requires s.Valid() && Schema(s.db) && ReceiptsUngated(s.db) && !PhaseOneOwed(s.db[Invocations])
    requires CanonicalV2 in s.db[Invocations].checks
    modifies s
    ensures s.Valid() && Schema(s.db) && s.origin == old(s.origin)
    ensures s.deaths == old(s.deaths) + if r == Crash then 1 else 0
    ensures old(s.events) <= s.events && OnlyUpgrade(s.events, |old(s.events)|)
    ensures r in {Done, Crash}
    ensures r == Done ==> ReceiptsUngated(s.db) && InvocationsCurrent(s.db)
  {
    hide ValidDb, Leads, UpgradeEvent, TableSchema, ReceiptsUngated, PhaseOneOwed, InvocationsCurrent;
    r := ReleaseShadow(s);
    if r != Done { return; }
    r := ReleaseAgentGate(s);
  }

  method ReleaseAgentGate(s: Server) returns (r: Result)
    requires s.Valid() && Schema(s.db) && ReceiptsUngated(s.db) && !PhaseOneOwed(s.db[Invocations])
    requires CanonicalV2 in s.db[Invocations].checks && ShadowV2 !in s.db[Invocations].checks
    modifies s
    ensures s.Valid() && Schema(s.db) && s.origin == old(s.origin)
    ensures s.deaths == old(s.deaths) + if r == Crash then 1 else 0
    ensures old(s.events) <= s.events && OnlyUpgrade(s.events, |old(s.events)|)
    ensures r in {Done, Crash}
    ensures r == Done ==> ReceiptsUngated(s.db) && InvocationsCurrent(s.db)
  {
    hide ValidDb, Leads, UpgradeEvent, LogsSchema, TasksSchema, ReceiptsSchema;
    if AgentGate in s.db[Invocations].checks {
      if CanonicalV2 !in s.db[Invocations].checks { return Incomplete; }
      var o := IssueUpgrade(s, Alter(Invocations, Release(AgentGate)));
      if o != Committed { return Halt(o); }
    }
    if !InvocationsCurrent(s.db) { return Incomplete; }
    r := Done;
  }

  method EnsurePhaseOne(s: Server) returns (r: Result)
    requires s.Valid() && Schema(s.db) && ReceiptsUngated(s.db)
    modifies s
    ensures s.Valid() && Schema(s.db) && s.origin == old(s.origin)
    ensures s.deaths == old(s.deaths) + if r == Crash then 1 else 0
    ensures old(s.events) <= s.events && OnlyUpgrade(s.events, |old(s.events)|)
    ensures r in {Done, Crash, AlterRejected}
    ensures r == AlterRejected ==> UpgradeConflict(s.db)
    ensures r == AlterRejected ==> old(PhaseOneOwed(s.db[Invocations]))
    ensures r == Done ==> ReceiptsUngated(s.db) && !PhaseOneOwed(s.db[Invocations])
  {
    hide UpgradeConflict, ValidDb, Leads, UpgradeEvent, LogsSchema, TasksSchema, ReceiptsSchema;
    if PhaseOneOwed(s.db[Invocations]) {
      var o := IssueUpgrade(s, Alter(Invocations, PhaseOne(s.db[Invocations])));
      if o != Committed { return Halt(o); }
    }
    if PhaseOneOwed(s.db[Invocations]) { return Incomplete; }
    r := Done;
  }

  method UpgradeInvocations(s: Server) returns (r: Result)
    requires s.Valid() && Schema(s.db) && ReceiptsUngated(s.db)
    modifies s
    ensures s.Valid() && Schema(s.db) && s.origin == old(s.origin)
    ensures s.deaths == old(s.deaths) + if r == Crash then 1 else 0
    ensures old(s.events) <= s.events && OnlyUpgrade(s.events, |old(s.events)|)
    ensures r in {Done, Crash, AlterRejected}
    ensures r == AlterRejected ==> UpgradeConflict(s.db)
    ensures r == AlterRejected ==> old(PhaseOneOwed(s.db[Invocations]))
    ensures r == Done ==> ReceiptsUngated(s.db) && InvocationsCurrent(s.db)
  {
    hide UpgradeConflict, ValidDb, Leads, UpgradeEvent, LogsSchema, TasksSchema, ReceiptsSchema, PhaseOneOwed,
      ReceiptsUngated, InvocationsCurrent;
    if !Guarded(s.db[Invocations]) { return Incomplete; }
    if CanonicalV2 in s.db[Invocations].checks && !(AUDIT <= s.db[Invocations].columns) { return Incomplete; }
    r := EnsurePhaseOne(s);
    if r != Done { return; }
    r := ReplaceIdentity(s);
    if r != Done { return; }
    r := ReleaseInvocations(s);
  }

  predicate AuxiliaryCurrent(db: Db)
    requires Schema(db)
  {
    && TurnSourceLogId in db[Tasks].columns && TaskGate !in db[Tasks].checks
    && PROVENANCE <= db[LogEntries].columns && LogGate !in db[LogEntries].checks
  }

  method AddTurnSourceColumn(s: Server) returns (r: Result)
    requires s.Valid() && Schema(s.db) && ReceiptsUngated(s.db) && InvocationsCurrent(s.db)
    modifies s
    ensures s.Valid() && Schema(s.db) && s.origin == old(s.origin)
    ensures s.deaths == old(s.deaths) + if r == Crash then 1 else 0
    ensures old(s.events) <= s.events && OnlyUpgrade(s.events, |old(s.events)|)
    ensures r in {Done, Crash}
    ensures r == Done ==> ReceiptsUngated(s.db) && InvocationsCurrent(s.db) && TurnSourceLogId in s.db[Tasks].columns
  {
    hide ValidDb, Leads, UpgradeEvent, TableSchema;
    if TurnSourceLogId !in s.db[Tasks].columns {
      var o := IssueUpgrade(s, Alter(Tasks, AddTurnSource));
      if o != Committed { return Halt(o); }
    }
    r := Done;
  }

  method AddAuxiliary(s: Server) returns (r: Result)
    requires s.Valid() && Schema(s.db) && ReceiptsUngated(s.db) && InvocationsCurrent(s.db)
    modifies s
    ensures s.Valid() && Schema(s.db) && s.origin == old(s.origin)
    ensures s.deaths == old(s.deaths) + if r == Crash then 1 else 0
    ensures old(s.events) <= s.events && OnlyUpgrade(s.events, |old(s.events)|)
    ensures r in {Done, Crash}
    ensures r == Done ==> ReceiptsUngated(s.db) && InvocationsCurrent(s.db)
                          && TurnSourceLogId in s.db[Tasks].columns && PROVENANCE <= s.db[LogEntries].columns
  {
    hide ValidDb, Leads, UpgradeEvent, TableSchema;
    r := AddTurnSourceColumn(s);
    if r != Done { return; }
    if !(PROVENANCE <= s.db[LogEntries].columns) {
      var o := IssueUpgrade(s, Alter(LogEntries, AddProvenance));
      if o != Committed { return Halt(o); }
    }
  }

  method ReleaseLogGate(s: Server) returns (r: Result)
    requires s.Valid() && Schema(s.db) && ReceiptsUngated(s.db) && InvocationsCurrent(s.db)
    requires TurnSourceLogId in s.db[Tasks].columns && PROVENANCE <= s.db[LogEntries].columns
    modifies s
    ensures s.Valid() && Schema(s.db) && s.origin == old(s.origin)
    ensures s.deaths == old(s.deaths) + if r == Crash then 1 else 0
    ensures old(s.events) <= s.events && OnlyUpgrade(s.events, |old(s.events)|)
    ensures r in {Done, Crash}
    ensures r == Done ==> ReceiptsUngated(s.db) && InvocationsCurrent(s.db) && TurnSourceLogId in s.db[Tasks].columns
                          && PROVENANCE <= s.db[LogEntries].columns && LogGate !in s.db[LogEntries].checks
  {
    hide ValidDb, Leads, UpgradeEvent, TableSchema;
    if LogGate in s.db[LogEntries].checks {
      var o := IssueUpgrade(s, Alter(LogEntries, Release(LogGate)));
      if o != Committed { return Halt(o); }
    }
    r := Done;
  }

  /** Gates left by an unfinished downgrade fall only when the runtime columns and CHECKs are back. */
  method ReleaseAuxiliaryGates(s: Server) returns (r: Result)
    requires s.Valid() && Schema(s.db) && ReceiptsUngated(s.db) && InvocationsCurrent(s.db)
    requires TurnSourceLogId in s.db[Tasks].columns && PROVENANCE <= s.db[LogEntries].columns
    modifies s
    ensures s.Valid() && Schema(s.db) && s.origin == old(s.origin)
    ensures s.deaths == old(s.deaths) + if r == Crash then 1 else 0
    ensures old(s.events) <= s.events && OnlyUpgrade(s.events, |old(s.events)|)
    ensures r in {Done, Crash}
    ensures r == Done ==> ReceiptsUngated(s.db) && InvocationsCurrent(s.db) && AuxiliaryCurrent(s.db)
  {
    hide ValidDb, Leads, UpgradeEvent, TableSchema;
    r := ReleaseLogGate(s);
    if r != Done { return; }
    if TaskGate in s.db[Tasks].checks {
      var o := IssueUpgrade(s, Alter(Tasks, Release(TaskGate)));
      if o != Committed { return Halt(o); }
    }
  }

  method UpgradeAuxiliary(s: Server) returns (r: Result)
    requires s.Valid() && Schema(s.db) && ReceiptsUngated(s.db) && InvocationsCurrent(s.db)
    modifies s
    ensures s.Valid() && Schema(s.db) && s.origin == old(s.origin)
    ensures s.deaths == old(s.deaths) + if r == Crash then 1 else 0
    ensures old(s.events) <= s.events && OnlyUpgrade(s.events, |old(s.events)|)
    ensures r in {Done, Crash}
    ensures r == Done ==> ReceiptsUngated(s.db) && InvocationsCurrent(s.db) && AuxiliaryCurrent(s.db)
  {
    hide ValidDb, Leads, UpgradeEvent, TableSchema, ReceiptsUngated, InvocationsCurrent;
    r := AddAuxiliary(s);
    if r != Done { return; }
    r := ReleaseAuxiliaryGates(s);
    if r != Done { return; }
    if !AuxiliaryCurrent(s.db) { return Incomplete; }
  }

  ghost predicate ReadyForReceipts(db: Db) {
    Schema(db) && ReceiptsUngated(db) && InvocationsCurrent(db) && AuxiliaryCurrent(db)
  }

  method CreateIndex(s: Server, i: IndexName) returns (r: Result)
    requires s.Valid() && ReadyForReceipts(s.db) && TerminationReceipts in s.db && i in RECEIPT_INDEXES
    modifies s
    ensures s.Valid() && Schema(s.db) && s.origin == old(s.origin)
    ensures s.deaths == old(s.deaths) + if r == Crash then 1 else 0
    ensures old(s.events) <= s.events && OnlyUpgrade(s.events, |old(s.events)|)
    ensures r in {Done, Crash}
    ensures r == Done ==> ReadyForReceipts(s.db) && TerminationReceipts in s.db
                          && s.db[TerminationReceipts].indexes == old(s.db[TerminationReceipts].indexes) + {i}
  {
    hide ValidDb, Leads, UpgradeEvent, TableSchema;
    if i !in s.db[TerminationReceipts].indexes {
      var o := IssueUpgrade(s, Alter(TerminationReceipts, NoChange.(addIndexes := {i})));
      if o != Committed { return Halt(o); }
    }
    r := Done;
  }

  method CreateIndexes(s: Server, order: seq<IndexName>) returns (r: Result)
    requires s.Valid() && Schema(s.db) && ReadyForReceipts(s.db) && TerminationReceipts in s.db
    requires forall i | 0 <= i < |order| :: order[i] in RECEIPT_INDEXES
    modifies s
    ensures s.Valid() && Schema(s.db) && s.origin == old(s.origin)
    ensures s.deaths == old(s.deaths) + if r == Crash then 1 else 0
    ensures old(s.events) <= s.events && OnlyUpgrade(s.events, |old(s.events)|)
    ensures r in {Done, Crash}
    ensures r == Done ==> ReadyForReceipts(s.db) && TerminationReceipts in s.db
                          && forall i | 0 <= i < |order| :: order[i] in s.db[TerminationReceipts].indexes
  {
    hide ValidDb, Leads, UpgradeEvent, TableSchema, ReadyForReceipts;
    r := Done;
    for n := 0 to |order|
      invariant Schema(s.db) && r == Done && s.deaths == old(s.deaths)
      invariant s.Valid() && ReadyForReceipts(s.db) && s.origin == old(s.origin)
      invariant TerminationReceipts in s.db
      invariant forall i | 0 <= i < n :: order[i] in s.db[TerminationReceipts].indexes
      invariant old(s.events) <= s.events && OnlyUpgrade(s.events, |old(s.events)|)
    {
      r := CreateIndex(s, order[n]);
      if r != Done { return; }
    }
  }

  method CreateReceipts(s: Server) returns (r: Result)
    requires s.Valid() && ReadyForReceipts(s.db) && TerminationReceipts !in s.db
    modifies s
    ensures s.Valid() && Schema(s.db) && s.origin == old(s.origin)
    ensures s.deaths == old(s.deaths) + if r == Crash then 1 else 0
    ensures old(s.events) <= s.events && OnlyUpgrade(s.events, |old(s.events)|)
    ensures r in {Done, Crash}
    ensures r == Done ==> ReadyForReceipts(s.db) && TerminationReceipts in s.db
  {
    hide ValidDb, Leads, UpgradeEvent, TableSchema;
    var o := IssueUpgrade(s, Create(TerminationReceipts, EMPTY_RECEIPTS));
    if o != Committed { return Halt(o); }
    r := Done;
  }

  lemma IndexesAreKnown(db: Db)
    requires Schema(db) && TerminationReceipts in db
    ensures db[TerminationReceipts].indexes <= RECEIPT_INDEXES
  {
    assert TableSchema(TerminationReceipts, db[TerminationReceipts]);
  }

  /** With all three indexes in place nothing is missing any more. */
  lemma ReadyIsCurrent(db: Db)
    requires ReadyForReceipts(db) && TerminationReceipts in db && db[TerminationReceipts].indexes == RECEIPT_INDEXES
    ensures Current(db)
  {
    assert TableSchema(Invocations, db[Invocations]) && TableSchema(Tasks, db[Tasks]);
    assert TableSchema(LogEntries, db[LogEntries]) && TableSchema(TerminationReceipts, db[TerminationReceipts]);
  }

  method EnsureReceipts(s: Server) returns (r: Result)
    requires s.Valid() && ReadyForReceipts(s.db)
    modifies s
    ensures s.Valid() && Schema(s.db) && s.origin == old(s.origin)
    ensures s.deaths == old(s.deaths) + if r == Crash then 1 else 0
    ensures old(s.events) <= s.events && OnlyUpgrade(s.events, |old(s.events)|)
    ensures r in {Done, Crash}
    ensures r == Done ==> Current(s.db)
  {
    hide ValidDb, Leads, UpgradeEvent, TableSchema, ReceiptsUngated, InvocationsCurrent, AuxiliaryCurrent, Current;
    var order := [ReceiptDue, ReceiptTaskCreated, ReceiptWorkerStatus];
    if TerminationReceipts !in s.db {
      r := CreateReceipts(s);
      if r != Done { return; }
      order := [ReceiptTaskCreated, ReceiptDue, ReceiptWorkerStatus];
    }
    r := CreateIndexes(s, order);
    if r != Done { return; }
    assert order[0] in s.db[TerminationReceipts].indexes;
    assert order[1] in s.db[TerminationReceipts].indexes;
    assert order[2] in s.db[TerminationReceipts].indexes;
    IndexesAreKnown(s.db);
    if s.db[TerminationReceipts].indexes != RECEIPT_INDEXES { return Incomplete; }
    ReadyIsCurrent(s.db);
  }

  /** Every schema a run can meet has an enforced identity guard. */
  lemma SchemaGuarded(db: Db)
    requires Schema(db)
    ensures Guarded(db[Invocations])
  {
    assert TableSchema(Invocations, db[Invocations]);
  }

  /** After phase one the preflight queries can find nothing: the key excludes shared outputs, and the
      zero-request query is no longer asked. */
  lemma SettledPassesPreflight(db: Db)
    requires Schema(db) && ValidDb(db) && !PhaseOneOwed(db[Invocations])
    ensures UpgradePreflight(db)
  {
    hide TableSchema, Valid, SharedOutput, HasAgentRequest;
    assert TableSchema(Invocations, db[Invocations]) && Valid(db[Invocations]);
    SettledHasNoSharedOutput(db[Invocations]);
  }

  lemma SettledHasNoSharedOutput(t: Table)
    requires TableSchema(Invocations, t) && Valid(t) && OutputLogKey in t.keys
    ensures !SharedOutput(t)
  {
    hide Evaluate, SharedOutput, KeyHolds;
    forall i | i in t.rows ensures At(t.rows[i], TaskId).Is? { assert Fits(t, t.rows[i]) && TaskId in t.required; }
    SharedOutputIsCollision(t);
  }

  lemma UpgradeAttemptPays(before: Db, events: seq<Event>, from: nat, after: Db)
    requires Schema(before) && ValidDb(before) && from <= |events| && OnlyUpgrade(events, from)
    requires Leads(before, events[from..], after)
    ensures Schema(after) && (!PhaseOneOwed(before[Invocations]) ==> !PhaseOneOwed(after[Invocations]))
    ensures Statements(events[from..]) + UpgradeDistance(after) <= UpgradeDistance(before)
  {
    hide ValidDb, Leads, UpgradeEvent, TableSchema, PhaseOneOwed, UpgradeDistance;
    UpgradeRunPays(before, events[from..], after);
    if !PhaseOneOwed(before[Invocations]) { SettledRunStaysSettled(before, events[from..], after); }
  }

  /** One attempt at the upgrade. It ends on the current schema, or by a crash, or because a downgrade
      has fenced the receipt table, or because a row stands in the way while phase one is owed; one that
      stands there at the start stops it before any statement. Phase one stays done, and from then on
      every attempt either gets through or dies. */
  method Upgrade(s: Server) returns (r: Result)
    requires s.Valid() && Schema(s.db)
    modifies s
    ensures s.Valid() && Schema(s.db) && s.origin == old(s.origin)
    ensures s.deaths == old(s.deaths) + if r == Crash then 1 else 0
    ensures old(s.events) <= s.events && OnlyUpgrade(s.events, |old(s.events)|)
    ensures r in {Done, Crash, AlterRejected, Preflight, Fenced}
    ensures r == Done ==> Current(s.db)
    ensures r == Done ==>
              && {RequestReason, ProtocolVersion, OutputHash} <= s.db[Invocations].columns
              && s.db[Invocations].checks == {CanonicalV2} && s.db[Invocations].keys == {OutputLogKey}
              && TurnSourceLogId in s.db[Tasks].columns && s.db[Tasks].checks == {}
              && {TurnScope, ActualTransport} <= s.db[LogEntries].columns
              && s.db[LogEntries].checks == {ScopeCheck, TransportCheck}
              && TerminationReceipts in s.db && s.db[TerminationReceipts].checks == {}
              && s.db[TerminationReceipts].required == {OperationId, TaskId}
              && s.db[TerminationReceipts].keys == {ActiveTaskKey}
              && s.db[TerminationReceipts].indexes == {ReceiptTaskCreated, ReceiptDue, ReceiptWorkerStatus}
    ensures r == Fenced <==> old(!ReceiptsUngated(s.db))
    ensures r in {AlterRejected, Preflight} ==> UpgradeConflict(s.db)
    ensures r == Preflight <==> old(ReceiptsUngated(s.db) && UpgradeConflict(s.db))
    ensures r == Preflight ==> s.events == old(s.events)
    ensures r in {AlterRejected, Preflight} ==> old(PhaseOneOwed(s.db[Invocations]))
    ensures old(!PhaseOneOwed(s.db[Invocations])) ==> !PhaseOneOwed(s.db[Invocations])
    ensures Statements(s.events[|old(s.events)|..]) + UpgradeDistance(s.db) <= old(UpgradeDistance(s.db))
  {
    hide ValidDb, Leads, UpgradeEvent, TableSchema, UpgradePreflight, UpgradeConflict, PhaseOneOwed, UpgradeDistance,
      ReceiptsUngated, Current;
    ghost var before, first, origin := s.db, s.events, s.origin;
    UpgradePreflightFindsConflicts(s.db);
    if !PhaseOneOwed(s.db[Invocations]) { SettledPassesPreflight(s.db); }
    if !ReceiptsUngated(s.db) {
      r := Fenced;
    } else if !UpgradePreflight(s.db) {
      r := Preflight;
    } else {
      r := UpgradeAll(s);
    }
    AttemptRun(s, origin, first, before);
    UpgradeAttemptPays(before, s.events, |first|, s.db);
    if r == Done { CurrentIs(s.db); }
  }

  lemma CurrentIs(db: Db)
    requires Schema(db) && Current(db)
    ensures {RequestReason, ProtocolVersion, OutputHash} <= db[Invocations].columns
    ensures db[Invocations].checks == {CanonicalV2} && db[Invocations].keys == {OutputLogKey}
    ensures TurnSourceLogId in db[Tasks].columns && db[Tasks].checks == {}
    ensures {TurnScope, ActualTransport} <= db[LogEntries].columns && db[LogEntries].checks == {ScopeCheck, TransportCheck}
    ensures TerminationReceipts in db && db[TerminationReceipts].checks == {}
    ensures db[TerminationReceipts].required == {OperationId, TaskId} && db[TerminationReceipts].keys == {ActiveTaskKey}
    ensures db[TerminationReceipts].indexes == {ReceiptTaskCreated, ReceiptDue, ReceiptWorkerStatus}
  {
  }

  method UpgradeAll(s: Server) returns (r: Result)
    requires s.Valid() && Schema(s.db) && ReceiptsUngated(s.db)
    modifies s
    ensures s.Valid() && Schema(s.db) && s.origin == old(s.origin)
    ensures s.deaths == old(s.deaths) + if r == Crash then 1 else 0
    ensures old(s.events) <= s.events && OnlyUpgrade(s.events, |old(s.events)|)
    ensures r in {Done, Crash, AlterRejected}
    ensures r == AlterRejected ==> UpgradeConflict(s.db)
    ensures r == Done ==> Current(s.db)
    ensures r == AlterRejected ==> old(PhaseOneOwed(s.db[Invocations]))
  {
    hide UpgradeConflict, ValidDb, Leads, UpgradeEvent, TableSchema, ReceiptsUngated, InvocationsCurrent,
      AuxiliaryCurrent, Guarded, PhaseOneOwed;
    SchemaGuarded(s.db);
    if !Guarded(s.db[Invocations]) { return Incomplete; }
    r := UpgradeInvocations(s);
    if r != Done { return; }
    r := UpgradeAuxiliary(s);
    if r != Done { return; }
    r := EnsureReceipts(s);
  }
}
