/** alembic/versions/7c1e4a9d2f60_add_capability_resume_outbox.py, the online MySQL path. */
module OutboxMigration {
  import opened ThreeValued
  import opened Relational
  import opened MySql

  const OUTBOX_INDEXES: set<IndexName> := {OutboxDue, OutboxTaskCreated}

  const EMPTY_OUTBOX := Table(
    {OutboxId, TaskId, InvocationId, ActiveTaskId, ActiveInvocationId}, {OutboxId, TaskId, InvocationId},
    {}, {ActiveTaskKey, ActiveInvocationKey}, {}, map[])

  // ---- Schemas ----

  predicate OldInvocations(t: Table) { t.checks == {CanonicalV2} && EXACT !! t.columns && TerminalLogKey !in t.keys }

  predicate NewInvocations(t: Table) {
    CanonicalV3 in t.checks && t.checks <= {CanonicalV3, ResumeGate} && EXACT <= t.columns && TerminalLogKey in t.keys
  }

  predicate InvocationsSchema(t: Table) {
    && {TaskId} + V1_COLUMNS + AUDIT <= t.columns && t.required <= t.columns - EXACT && Source in t.required
    && t.keys <= {OutputLogKey, TerminalLogKey}
    && (OldInvocations(t) || NewInvocations(t))
  }

  predicate OutboxSchema(t: Table) {
    && t.columns == EMPTY_OUTBOX.columns && t.required == EMPTY_OUTBOX.required && t.keys == EMPTY_OUTBOX.keys
    && t.indexes <= OUTBOX_INDEXES && t.checks <= {OutboxGate}
  }

  /** The old identity never stands beside an outbox or a gate, and the outbox is fenced only behind
      the capability gate. */
  predicate Schema(db: Db) {
    && {Invocations} <= db.Keys <= {Invocations, ResumeOutbox}
    && InvocationsSchema(db[Invocations])
    && (OldInvocations(db[Invocations]) ==> ResumeOutbox !in db)
    && (ResumeOutbox in db ==> OutboxSchema(db[ResumeOutbox]))
    && (ResumeOutbox in db && OutboxGate in db[ResumeOutbox].checks ==> ResumeGate in db[Invocations].checks)
  }

  predicate Old(db: Db)
    requires Schema(db)
  {
    OldInvocations(db[Invocations])
  }

  predicate Complete(db: Db)
    requires Schema(db)
  {
    && NewInvocations(db[Invocations])
    && ResumeOutbox in db && db[ResumeOutbox].indexes == OUTBOX_INDEXES
  }

  predicate GateIn(db: Db)
    requires Schema(db)
  {
    ResumeGate in db[Invocations].checks
  }

  predicate RowsGated(db: Db) { ResumeOutbox in db ==> OutboxGate in db[ResumeOutbox].checks }

  // ---- Statements ----

  const ToV3 := NoChange.(addColumns := EXACT, addKeys := {TerminalLogKey},
                          dropChecks := {CanonicalV2}, addChecks := {CanonicalV3})
  const ToV2 := NoChange.(dropColumns := EXACT, dropKeys := {TerminalLogKey},
                          dropChecks := {CanonicalV3, ResumeGate}, addChecks := {CanonicalV2})

  function Install(k: Check): Change { NoChange.(addChecks := {k}) }

  predicate UpgradeIssues(db: Db, s: Statement)
    requires Schema(db)
  {
    && RowsUngated(db)
    && if Old(db) then s == Alter(Invocations, ToV3)
       else if ResumeOutbox !in db then s == Create(ResumeOutbox, EMPTY_OUTBOX)
       else s.Alter? && s.table == ResumeOutbox && exists i ::
         i in OUTBOX_INDEXES - db[ResumeOutbox].indexes && s.change == NoChange.(addIndexes := {i})
  }

  predicate RowsUngated(db: Db) { ResumeOutbox in db ==> OutboxGate !in db[ResumeOutbox].checks }

  function NextDowngrade(db: Db): Nullable<Statement>
    requires Schema(db)
  {
    if Old(db) then Null
    else if !GateIn(db) then Is(Alter(Invocations, Install(ResumeGate)))
    else if !RowsGated(db) then Is(Alter(ResumeOutbox, Install(OutboxGate)))
    else if ResumeOutbox in db then Is(Drop(ResumeOutbox))
    else Is(Alter(Invocations, ToV2))
  }

  predicate DowngradeIssues(db: Db, s: Statement)
    requires Schema(db)
  {
    NextDowngrade(db) == Is(s)
  }

  lemma UpgradeStep(db: Db, s: Statement)
    requires Schema(db) && UpgradeIssues(db, s)
    ensures Applicable(db, s) && Schema(Effect(db, s))
  {
    if s.Alter? {
      hide Accepts, Altered, InvocationsSchema, OutboxSchema, OldInvocations, NewInvocations;
      if s.table == Invocations { ToV3Step(db[Invocations]); }
      else { IndexStep(db[ResumeOutbox], s.change); }
    }
  }

  lemma ToV3Step(t: Table)
    requires InvocationsSchema(t) && OldInvocations(t)
    ensures Accepts(t, ToV3) && InvocationsSchema(Altered(t, ToV3))
    ensures NewInvocations(Altered(t, ToV3)) && !OldInvocations(Altered(t, ToV3))
    ensures ResumeGate in t.checks ==> ResumeGate in Altered(t, ToV3).checks
  {
  }

  lemma IndexStep(t: Table, ch: Change)
    requires OutboxSchema(t) && exists i :: i in OUTBOX_INDEXES - t.indexes && ch == NoChange.(addIndexes := {i})
    ensures Accepts(t, ch) && OutboxSchema(Altered(t, ch)) && Altered(t, ch).checks == t.checks
  {
  }

  lemma ToV2Step(t: Table)
    requires InvocationsSchema(t) && NewInvocations(t) && ResumeGate in t.checks
    ensures Accepts(t, ToV2) && InvocationsSchema(Altered(t, ToV2)) && OldInvocations(Altered(t, ToV2))
  {
    hide Accepts, InvocationsSchema, OldInvocations, NewInvocations, Altered;
    ToV2IsAccepted(t);
    ToV2IsOld(t);
  }

  lemma ToV2IsAccepted(t: Table)
    requires InvocationsSchema(t) && NewInvocations(t) && ResumeGate in t.checks
    ensures Accepts(t, ToV2)
  {
    assert Checks(t, ToV2) == {CanonicalV2};
    assert Keys(t, ToV2) <= {OutputLogKey};
  }

  lemma ToV2IsOld(t: Table)
    requires InvocationsSchema(t) && NewInvocations(t) && ResumeGate in t.checks
    ensures InvocationsSchema(Altered(t, ToV2)) && OldInvocations(Altered(t, ToV2))
  {
  }

  lemma GateStep(t: Table)
    requires InvocationsSchema(t) && NewInvocations(t) && ResumeGate !in t.checks
    ensures var u := Altered(t, Install(ResumeGate));
            Accepts(t, Install(ResumeGate)) && InvocationsSchema(u) && NewInvocations(u) && ResumeGate in u.checks
  {
    hide Accepts, InvocationsSchema, NewInvocations, Altered;
    GateIsAccepted(t);
    GateKeepsNew(t);
  }

  lemma GateIsAccepted(t: Table)
    requires InvocationsSchema(t) && NewInvocations(t) && ResumeGate !in t.checks
    ensures Accepts(t, Install(ResumeGate))
  {
  }

  lemma GateKeepsNew(t: Table)
    requires InvocationsSchema(t) && NewInvocations(t)
    ensures var u := Altered(t, Install(ResumeGate)); InvocationsSchema(u) && NewInvocations(u) && ResumeGate in u.checks
  {
  }

  lemma FenceStep(t: Table)
    requires OutboxSchema(t) && OutboxGate !in t.checks
    ensures Accepts(t, Install(OutboxGate)) && OutboxSchema(Altered(t, Install(OutboxGate)))
  {
  }

  lemma DowngradeStep(db: Db, s: Statement)
    requires Schema(db) && DowngradeIssues(db, s)
    ensures Applicable(db, s) && Schema(Effect(db, s))
  {
    var cap := db[Invocations];
    if GateIn(db) && RowsGated(db) && ResumeOutbox !in db {
      ToV2Step(cap);
      hide Accepts, Altered, OldInvocations;
    } else {
      if !GateIn(db) { GateStep(cap); } else if !RowsGated(db) { FenceStep(db[ResumeOutbox]); }
      hide Accepts, Altered;
    }
  }

  // ---- Nothing is lost ----

  predicate IsAgentRequest(r: Row) { Selects(TextIs(At(r, Source), "agent_request")) }

  /** Exact identities of invocations that are no agent requests are all a downgrade may drop. */
  function Expendable(n: TableName, r: Row): set<Column> {
    if n == Invocations && !IsAgentRequest(r) then EXACT else {}
  }

  ghost predicate LosesNothing(a: Db, b: Db) {
    forall n | n in a ::
      if n !in b then a[n].rows == map[]
      else a[n].rows.Keys == b[n].rows.Keys
           && forall i | i in a[n].rows :: RowKeeps(a[n].rows[i], b[n].rows[i], Expendable(n, a[n].rows[i]))
  }

  lemma AlterLosesNothing(db: Db, n: TableName, ch: Change)
    requires ValidDb(db) && n in db && Accepts(db[n], ch)
    requires ch.dropColumns != {} ==> n == Invocations && ResumeGate in db[n].checks && ch.dropColumns <= EXACT
    ensures LosesNothing(db, Effect(db, Alter(n, ch)))
  {
    hide Valid, Fits, Evaluate, Accepts, Altered, Expendable;
    AlteredRows(db[n], ch);
    forall i | i in db[n].rows
      ensures RowKeeps(db[n].rows[i], Altered(db[n], ch).rows[i], Expendable(n, db[n].rows[i]))
    {
      RowSurvives(n, db[n], ch, i);
    }
  }

  lemma AlteredRows(t: Table, ch: Change)
    ensures Altered(t, ch).rows.Keys == t.rows.Keys
  {
  }

  lemma RowSurvives(n: TableName, t: Table, ch: Change, i: nat)
    requires Valid(t) && i in t.rows
    requires ch.dropColumns != {} ==> n == Invocations && ResumeGate in t.checks && ch.dropColumns <= EXACT
    ensures RowKeeps(t.rows[i], Altered(t, ch).rows[i], Expendable(n, t.rows[i]))
  {
    hide Fits, Altered, Evaluate, IsAgentRequest;
    AlterKeepsRows(t, ch, i);
    if ch.dropColumns != {} { FencedHasNoAgents(t); }
  }

  lemma FencedRow(t: Table, r: Row)
    requires OutboxSchema(t) && Fits(t, r)
    ensures OutboxGate !in t.checks
  {
    assert forall k | k in t.checks :: Admits(Evaluate(k, r));
    assert At(r, OutboxId).Is?;
  }

  lemma FencedIsEmpty(t: Table)
    requires OutboxSchema(t) && OutboxGate in t.checks && Valid(t)
    ensures t.rows == map[]
  {
    forall i | i in t.rows ensures false {
      FencedRow(t, t.rows[i]);
    }
  }

  lemma FencedHasNoAgents(t: Table)
    requires Valid(t) && ResumeGate in t.checks
    ensures !exists i | i in t.rows :: IsAgentRequest(t.rows[i])
  {
    forall i | i in t.rows ensures !IsAgentRequest(t.rows[i]) {
      assert Fits(t, t.rows[i]);
      assert Admits(Evaluate(ResumeGate, t.rows[i]));
    }
  }

  lemma DowngradeLosesNothing(db: Db, s: Statement)
    requires Schema(db) && ValidDb(db) && DowngradeIssues(db, s) && Applicable(db, s)
    ensures LosesNothing(db, Effect(db, s))
  {
    if s.Alter? { AlterLosesNothing(db, s.table, s.change); }
    else { FencedIsEmpty(db[ResumeOutbox]); }
  }

  lemma UpgradeLosesNothing(db: Db, s: Statement)
    requires Schema(db) && ValidDb(db) && UpgradeIssues(db, s) && Applicable(db, s)
    ensures LosesNothing(db, Effect(db, s))
  {
    if s.Alter? { AlterLosesNothing(db, s.table, s.change); }
  }

  // ---- Runs ----

  ghost predicate DowngradeEvent(e: Event) { e.Ran? ==> Schema(e.before) && DowngradeIssues(e.before, e.statement) }

  ghost predicate UpgradeEvent(e: Event) { e.Ran? ==> Schema(e.before) && UpgradeIssues(e.before, e.statement) }

  ghost predicate SafeEvent(e: Event) {
    Schema(e.before) && Schema(e.after) && (e.Ran? ==> LosesNothing(e.before, e.after))
  }

  lemma SchemaShared(a: Db, b: Db)
    requires SameSchemas(a, b) && Schema(a)
    ensures Schema(b) && NextDowngrade(b) == NextDowngrade(a)
    ensures forall s :: UpgradeIssues(a, s) ==> UpgradeIssues(b, s)
    ensures Old(a) == Old(b)
  {
    assert forall n | n in a :: SameSchema(a[n], b[n]);
  }

  lemma EventIsSafe(e: Event)
    requires Happened(e) && Schema(e.before) && ValidDb(e.before) && (DowngradeEvent(e) || UpgradeEvent(e))
    ensures SafeEvent(e) && Schema(e.after) && ValidDb(e.after)
  {
    match e
    case Wrote(a, b) => SchemaShared(a, b);
    case Ran(a, s, b) =>
      if DowngradeEvent(e) { DowngradeStep(a, s); DowngradeLosesNothing(a, s); }
      else { UpgradeStep(a, s); UpgradeLosesNothing(a, s); }
  }

  /** Whatever writers, crashes and re-runs do, the schema stays one of the script's own, and no
      statement drops an outbox row, an invocation, or a field of an agent request. */
  lemma RunLosesNothing(from: Db, events: seq<Event>, to: Db)
    requires Leads(from, events, to) && Schema(from) && ValidDb(from)
    requires forall k | 0 <= k < |events| :: DowngradeEvent(events[k]) || UpgradeEvent(events[k])
    ensures Schema(to) && ValidDb(to)
    ensures forall k | 0 <= k < |events| :: SafeEvent(events[k])
  {
    hide Happened, Leads, SafeEvent, DowngradeEvent, UpgradeEvent, Schema, ValidDb;
    forall e: Event | Happened(e) && Schema(e.before) && ValidDb(e.before) && (DowngradeEvent(e) || UpgradeEvent(e))
      ensures SafeEvent(e) && Schema(e.after) && ValidDb(e.after)
    {
      EventIsSafe(e);
    }
    RunInvariant(db => Schema(db) && ValidDb(db), e => DowngradeEvent(e) || UpgradeEvent(e), e => SafeEvent(e), from, events, to);
  }

  // ---- The script ----

  datatype Result = Done | Crash | AlterRejected | Preflight | Fenced | Unexpected | Incomplete

  function Halt(o: Outcome): Result { if o == Crashed then Crash else AlterRejected }

  predicate BothGates(db: Db)
    requires Schema(db)
  {
    !Old(db) && GateIn(db) && RowsGated(db)
  }

  predicate HasAgentRequest(db: Db) {
    Invocations in db && exists i | i in db[Invocations].rows :: IsAgentRequest(db[Invocations].rows[i])
  }

  predicate HasOutboxRow(db: Db) { ResumeOutbox in db && db[ResumeOutbox].rows != map[] }

  // ---- What can reject a statement ----

  lemma OtherSourcePasses(r: Row)
    requires !IsAgentRequest(r)
    ensures Admits(Evaluate(ResumeGate, r)) && Admits(Evaluate(CanonicalV3, r))
  {
    hide AgentRequestV1, AgentAudit, AgentExactIdentity;
  }

  /** An old row has no exact identity, so the v3 CHECK passes it exactly when it is no agent request. */
  lemma OldRowPasses(t: Table, r: Row)
    requires OldInvocations(t) && Fits(t, r)
    ensures Admits(Evaluate(CanonicalV3, r)) <==> !IsAgentRequest(r)
    ensures At(r, TerminalLogId).Null?
  {
    assert TerminalLogId !in r && IncarnationId !in r;
    if !IsAgentRequest(r) { OtherSourcePasses(r); }
    hide AgentRequestV1, AgentAudit;
  }

  /** On the old identity the preflight is exact: the v3 ALTER commits just when no agent request is there. */
  lemma RequestsDecideV3(db: Db)
    requires Schema(db) && ValidDb(db) && Old(db) && Applicable(db, Alter(Invocations, ToV3))
    ensures Commits(db, Alter(Invocations, ToV3)) <==> !HasAgentRequest(db)
  {
    hide Accepts, Altered, Valid, InvocationsSchema;
    StatementDecides(db, Alter(Invocations, ToV3));
    V3RowsMeet(db[Invocations]);
  }

  lemma V3RowsMeet(t: Table)
    requires OldInvocations(t) && Valid(t)
    ensures RowsMeet(t, ToV3) <==> !exists i | i in t.rows :: IsAgentRequest(t.rows[i])
  {
    hide Evaluate, IsAgentRequest;
    forall i | i in t.rows
      ensures Admits(Evaluate(CanonicalV3, t.rows[i])) <==> !IsAgentRequest(t.rows[i])
      ensures At(t.rows[i], TerminalLogId).Null?
    {
      assert Fits(t, t.rows[i]);
      OldRowPasses(t, t.rows[i]);
    }
    assert TerminalLogId in KeyColumns(TerminalLogKey);
  }

  /** The gates likewise: each installs just when its query is empty. */
  lemma QueriesDecideGates(db: Db)
    requires Schema(db) && ValidDb(db)
    ensures Applicable(db, Alter(Invocations, Install(ResumeGate))) ==>
              (Commits(db, Alter(Invocations, Install(ResumeGate))) <==> !HasAgentRequest(db))
    ensures Applicable(db, Alter(ResumeOutbox, Install(OutboxGate))) ==>
              (Commits(db, Alter(ResumeOutbox, Install(OutboxGate))) <==> !HasOutboxRow(db))
  {
    hide Accepts, Altered, Valid, InvocationsSchema;
    if Applicable(db, Alter(Invocations, Install(ResumeGate))) {
      StatementDecides(db, Alter(Invocations, Install(ResumeGate)));
      forall i | i in db[Invocations].rows
        ensures Admits(Evaluate(ResumeGate, db[Invocations].rows[i])) <==> !IsAgentRequest(db[Invocations].rows[i])
      {
      }
    }
    if Applicable(db, Alter(ResumeOutbox, Install(OutboxGate))) {
      StatementDecides(db, Alter(ResumeOutbox, Install(OutboxGate)));
      FenceRowsMeet(db[ResumeOutbox]);
    }
  }

  lemma FenceRowsMeet(t: Table)
    requires OutboxSchema(t) && Valid(t)
    ensures RowsMeet(t, Install(OutboxGate)) <==> t.rows == map[]
  {
    forall i | i in t.rows ensures At(t.rows[i], OutboxId).Is? { assert Fits(t, t.rows[i]); }
  }

  /** Whatever gates an earlier attempt left, a downgrade statement is rejected only while one of the two
      emptiness queries finds a row. */
  lemma RejectedDowngradeFindsRow(db: Db, s: Statement)
    requires Schema(db) && ValidDb(db) && DowngradeIssues(db, s) && Applicable(db, s) && !Commits(db, s)
    ensures HasOutboxRow(db) || HasAgentRequest(db)
  {
    hide Accepts, Altered, Valid, InvocationsSchema, OutboxSchema, HasOutboxRow, HasAgentRequest;
    QueriesDecideGates(db);
    if BothGates(db) { FencedCommits(db, s); }
  }

  /** An upgrade statement is rejected only on the old identity and with an agent request there. */
  lemma RejectedUpgradeFindsRow(db: Db, s: Statement)
    requires Schema(db) && ValidDb(db) && UpgradeIssues(db, s) && Applicable(db, s) && !Commits(db, s)
    ensures Old(db) && HasAgentRequest(db)
  {
    hide Accepts, Altered, Valid, InvocationsSchema, OutboxSchema, HasAgentRequest, OldInvocations;
    if Old(db) { RequestsDecideV3(db); } else { LaterUpgradeCommits(db, s); }
  }

  method IssueDowngrade(s: Server, st: Statement) returns (o: Outcome)
    requires s.Valid() && Schema(s.db) && DowngradeIssues(s.db, st)
    modifies s
    ensures s.Valid() && Schema(s.db) && s.origin == old(s.origin)
    ensures s.deaths == old(s.deaths) + if o == Crashed then 1 else 0
    ensures old(s.events) <= s.events && forall k | |old(s.events)| <= k < |s.events| :: DowngradeEvent(s.events[k])
    ensures o == Committed ==> Became(old(s.db), st, s.db)
    ensures o == Rejected ==> SameSchemas(old(s.db), s.db) && Applicable(s.db, st) && !Commits(s.db, st)
    ensures o == Rejected ==> HasOutboxRow(s.db) || HasAgentRequest(s.db)
  {
    hide HasOutboxRow, HasAgentRequest;
    DowngradeStep(s.db, st);
    o := s.Execute(st);
    forall k | |old(s.events)| <= k < |s.events|
      ensures DowngradeEvent(s.events[k])
    {
      if s.events[k].Ran? { SchemaShared(old(s.db), s.events[k].before); }
    }
    if SameSchemas(old(s.db), s.db) { SchemaShared(old(s.db), s.db); }
    else { SchemaShared(Effect(old(s.db), st), s.db); }
    if o == Committed { EffectBecomes(old(s.db), st, s.db); }
    if o == Rejected { RejectedDowngradeFindsRow(s.db, st); }
  }

  /** Once the v3 identity is in, nothing the rows do can stop the upgrade. */
  lemma LaterUpgradeCommits(db: Db, s: Statement)
    requires Schema(db) && ValidDb(db) && !Old(db) && UpgradeIssues(db, s) && Applicable(db, s)
    ensures Commits(db, s)
  {
    if s.Alter? { AlterCommits(db[ResumeOutbox], s.change); }
    hide Valid;
  }

  method IssueUpgrade(s: Server, st: Statement) returns (o: Outcome)
    requires s.Valid() && Schema(s.db) && UpgradeIssues(s.db, st)
    modifies s
    ensures s.Valid() && Schema(s.db) && s.origin == old(s.origin)
    ensures s.deaths == old(s.deaths) + if o == Crashed then 1 else 0
    ensures old(s.events) <= s.events && forall k | |old(s.events)| <= k < |s.events| :: UpgradeEvent(s.events[k])
    ensures o == Committed ==> Became(old(s.db), st, s.db)
    ensures o == Rejected ==> old(Old(s.db)) && HasAgentRequest(s.db)
  {
    hide HasAgentRequest;
    UpgradeStep(s.db, st);
    o := s.Execute(st);
    forall k | |old(s.events)| <= k < |s.events|
      ensures UpgradeEvent(s.events[k])
    {
      if s.events[k].Ran? { SchemaShared(old(s.db), s.events[k].before); }
    }
    if SameSchemas(old(s.db), s.db) { SchemaShared(old(s.db), s.db); }
    else { SchemaShared(Effect(old(s.db), st), s.db); }
    if o == Committed { EffectBecomes(old(s.db), st, s.db); }
    if o == Rejected { RejectedUpgradeFindsRow(s.db, st); }
  }

  /** Behind both gates neither emptiness query can find a row, and no statement can fail. */
  lemma FencedIsSafe(db: Db)
    requires Schema(db) && ValidDb(db) && BothGates(db)
    ensures !HasAgentRequest(db) && !HasOutboxRow(db)
    ensures forall s | DowngradeIssues(db, s) && Applicable(db, s) :: Commits(db, s)
  {
    FencedHasNoAgents(db[Invocations]);
    if ResumeOutbox in db { FencedIsEmpty(db[ResumeOutbox]); }
    forall s | DowngradeIssues(db, s) && Applicable(db, s) ensures Commits(db, s) {
      FencedCommits(db, s);
    }
  }

  lemma FencedCommits(db: Db, s: Statement)
    requires Schema(db) && ValidDb(db) && BothGates(db) && DowngradeIssues(db, s) && Applicable(db, s)
    ensures Commits(db, s)
  {
    if s.Alter? {
      var t := db[Invocations];
      forall i | i in t.rows
        ensures Admits(Evaluate(CanonicalV2, t.rows[i]))
      {
        assert Fits(t, t.rows[i]);
        IdentityOrder(t.rows[i]);
      }
      AlterCommits(t, ToV2);
      hide Valid;
    }
  }

  /** The old identity, or both gates in front of it. */
  ghost predicate FencedState(db: Db) { Schema(db) && ValidDb(db) && (Old(db) || BothGates(db)) }

  lemma FencedStays(db: Db, s: Statement)
    requires Schema(db) && (Old(db) || BothGates(db)) && DowngradeIssues(db, s)
    ensures Applicable(db, s) && Schema(Effect(db, s)) && (Old(Effect(db, s)) || BothGates(Effect(db, s)))
  {
    DowngradeStep(db, s);
    hide Accepts, OutboxSchema, InvocationsSchema;
    if s.Alter? { ToV2Step(db[Invocations]); }
  }

  lemma FencedEvent(e: Event)
    requires Happened(e) && FencedState(e.before) && DowngradeEvent(e)
    ensures FencedState(e.after)
  {
    hide InvocationsSchema, OutboxSchema, ValidDb;
    match e
    case Wrote(a, b) => SchemaShared(a, b); assert forall n | n in a :: SameSchema(a[n], b[n]);
    case Ran(a, s, b) => FencedStays(a, s);
  }

  /** Once both gates are in, writers, crashes and re-runs of the downgrade never lose them short of the
      old identity. */
  lemma FencedRunStaysFenced(from: Db, events: seq<Event>, to: Db)
    requires Leads(from, events, to) && FencedState(from)
    requires forall k | 0 <= k < |events| :: DowngradeEvent(events[k])
    ensures FencedState(to)
  {
    hide Happened, Leads, DowngradeEvent, FencedState;
    forall e: Event | Happened(e) && FencedState(e.before) && DowngradeEvent(e) ensures FencedState(e.after) {
      FencedEvent(e);
    }
    RunInvariant(db => FencedState(db), e => DowngradeEvent(e), (e: Event) => FencedState(e.after), from, events, to);
  }

  ghost predicate NewState(db: Db) { Schema(db) && ValidDb(db) && !Old(db) }

  lemma NewEvent(e: Event)
    requires Happened(e) && NewState(e.before) && UpgradeEvent(e)
    ensures NewState(e.after)
  {
    hide InvocationsSchema, OutboxSchema, ValidDb;
    match e
    case Wrote(a, b) => SchemaShared(a, b);
    case Ran(a, s, b) => UpgradeStep(a, s);
  }

  /** Once the v3 identity is in, writers, crashes and re-runs of the upgrade never undo it. */
  lemma NewRunStaysNew(from: Db, events: seq<Event>, to: Db)
    requires Leads(from, events, to) && NewState(from)
    requires forall k | 0 <= k < |events| :: UpgradeEvent(events[k])
    ensures NewState(to)
  {
    hide Happened, Leads, UpgradeEvent, NewState;
    forall e: Event | Happened(e) && NewState(e.before) && UpgradeEvent(e) ensures NewState(e.after) {
      NewEvent(e);
    }
    RunInvariant(db => NewState(db), e => UpgradeEvent(e), (e: Event) => NewState(e.after), from, events, to);
  }

  method InstallCapabilityGate(s: Server) returns (r: Result)
    requires s.Valid() && Schema(s.db) && !Old(s.db)
    modifies s
    ensures s.Valid() && Schema(s.db) && s.origin == old(s.origin)
    ensures s.deaths == old(s.deaths) + if r == Crash then 1 else 0
    ensures old(s.events) <= s.events && forall k | |old(s.events)| <= k < |s.events| :: DowngradeEvent(s.events[k])
    ensures r in {Done, Crash, AlterRejected}
    ensures r == AlterRejected ==> HasOutboxRow(s.db) || HasAgentRequest(s.db)
    ensures r == Done ==> !Old(s.db) && GateIn(s.db) && (ResumeOutbox in s.db <==> old(ResumeOutbox in s.db))
    ensures r == Done && ResumeOutbox in s.db ==> s.db[ResumeOutbox].checks == old(s.db[ResumeOutbox].checks)
    ensures r == AlterRejected ==> !old(GateIn(s.db))
  {
    hide HasOutboxRow, HasAgentRequest, ValidDb, Leads, DowngradeEvent, OutboxSchema;
    if !GateIn(s.db) {
      var o := IssueDowngrade(s, Alter(Invocations, Install(ResumeGate)));
      if o != Committed { return Halt(o); }
    }
    if !GateIn(s.db) { return Incomplete; }
    r := Done;
  }

  method InstallRowGate(s: Server) returns (r: Result)
    requires s.Valid() && Schema(s.db) && !Old(s.db) && GateIn(s.db)
    modifies s
    ensures s.Valid() && Schema(s.db) && s.origin == old(s.origin)
    ensures s.deaths == old(s.deaths) + if r == Crash then 1 else 0
    ensures old(s.events) <= s.events && forall k | |old(s.events)| <= k < |s.events| :: DowngradeEvent(s.events[k])
    ensures r in {Done, Crash, AlterRejected}
    ensures r == AlterRejected ==> HasOutboxRow(s.db) || HasAgentRequest(s.db)
    ensures r == Done ==> BothGates(s.db) && (ResumeOutbox in s.db <==> old(ResumeOutbox in s.db))
    ensures r == AlterRejected ==> !old(BothGates(s.db))
  {
    hide HasOutboxRow, HasAgentRequest, ValidDb, Leads, DowngradeEvent, OutboxSchema, InvocationsSchema;
    if ResumeOutbox in s.db {
      if OutboxGate !in s.db[ResumeOutbox].checks {
        var o := IssueDowngrade(s, Alter(ResumeOutbox, Install(OutboxGate)));
        if o != Committed { return Halt(o); }
      }
      if OutboxGate !in s.db[ResumeOutbox].checks { return Incomplete; }
    }
    r := Done;
  }

  method InstallGates(s: Server) returns (r: Result)
    requires s.Valid() && Schema(s.db) && !Old(s.db)
    modifies s
    ensures s.Valid() && Schema(s.db) && s.origin == old(s.origin)
    ensures s.deaths == old(s.deaths) + if r == Crash then 1 else 0
    ensures old(s.events) <= s.events && forall k | |old(s.events)| <= k < |s.events| :: DowngradeEvent(s.events[k])
    ensures r in {Done, Crash, AlterRejected}
    ensures r == AlterRejected ==> HasOutboxRow(s.db) || HasAgentRequest(s.db)
    ensures r == Done ==> BothGates(s.db) && (ResumeOutbox in s.db <==> old(ResumeOutbox in s.db))
    ensures r == AlterRejected ==> !old(BothGates(s.db))
  {
    hide HasOutboxRow, HasAgentRequest, ValidDb, Leads, DowngradeEvent, OutboxSchema, InvocationsSchema, OldInvocations;
    r := InstallCapabilityGate(s);
    if r != Done { return; }
    r := InstallRowGate(s);
  }

  method RemoveFenced(s: Server) returns (r: Result)
    requires s.Valid() && Schema(s.db) && BothGates(s.db)
    modifies s
    ensures s.Valid() && Schema(s.db) && s.origin == old(s.origin)
    ensures s.deaths == old(s.deaths) + if r == Crash then 1 else 0
    ensures old(s.events) <= s.events && forall k | |old(s.events)| <= k < |s.events| :: DowngradeEvent(s.events[k])
    ensures r in {Done, Crash}
    ensures r == Done ==> Old(s.db)
  {
    hide Leads, DowngradeEvent, OutboxSchema, Valid, Evaluate;
    FencedIsSafe(s.db);
    if HasOutboxRow(s.db) || HasAgentRequest(s.db) { return Preflight; }
    if ResumeOutbox in s.db {
      var o := IssueFenced(s, Drop(ResumeOutbox));
      if o != Committed { return Crash; }
    }
    var o := IssueFenced(s, Alter(Invocations, ToV2));
    if o != Committed { return Crash; }
    if !Old(s.db) || GateIn(s.db) { return Incomplete; }
    r := Done;
  }

  method IssueFenced(s: Server, st: Statement) returns (o: Outcome)
    requires s.Valid() && Schema(s.db) && DowngradeIssues(s.db, st) && BothGates(s.db)
    modifies s
    ensures s.Valid() && Schema(s.db) && s.origin == old(s.origin)
    ensures s.deaths == old(s.deaths) + if o == Crashed then 1 else 0
    ensures old(s.events) <= s.events && forall k | |old(s.events)| <= k < |s.events| :: DowngradeEvent(s.events[k])
    ensures o != Rejected
    ensures o == Committed ==> Became(old(s.db), st, s.db)
  {
    o := IssueDowngrade(s, st);
    hide InvocationsSchema, OutboxSchema, Valid, Became;
    if o == Rejected {
      SchemaShared(old(s.db), s.db);
      assert forall n | n in s.db :: SameSchema(old(s.db)[n], s.db[n]);
      FencedCommits(s.db, st);
    }
  }

  /** The rows in the way of the two directions. */
  ghost predicate RequestStands(db: Db) {
    Invocations in db
    && exists i | i in db[Invocations].rows :: At(db[Invocations].rows[i], Source) == Is(Text("agent_request"))
  }

  ghost predicate OutboxRowStands(db: Db) { ResumeOutbox in db && db[ResumeOutbox].rows.Keys != {} }

  /** The two emptiness queries find exactly these rows. */
  lemma QueriesFindRows(db: Db)
    ensures HasOutboxRow(db) <==> OutboxRowStands(db)
    ensures HasAgentRequest(db) <==> RequestStands(db)
  {
    if ResumeOutbox in db && db[ResumeOutbox].rows.Keys == {} { assert db[ResumeOutbox].rows == map[]; }
  }

  /** The schemas at the two ends, column by column. */
  predicate WithoutExact(db: Db) {
    && db.Keys == {Invocations} && db[Invocations].checks == {CanonicalV2}
    && {IncarnationId, TerminalLogId} !! db[Invocations].columns && TerminalLogKey !in db[Invocations].keys
  }

  predicate WithExact(db: Db) {
    && db.Keys == {Invocations, ResumeOutbox}
    && CanonicalV3 in db[Invocations].checks && CanonicalV2 !in db[Invocations].checks
    && {IncarnationId, TerminalLogId} <= db[Invocations].columns && TerminalLogKey in db[Invocations].keys
    && db[ResumeOutbox].indexes == {OutboxDue, OutboxTaskCreated}
    && db[ResumeOutbox].keys == {ActiveTaskKey, ActiveInvocationKey}
    && db[ResumeOutbox].required == {OutboxId, TaskId, InvocationId} && db[ResumeOutbox].checks == {}
  }

  lemma OldIsWithoutExact(db: Db)
    requires Schema(db) && Old(db)
    ensures WithoutExact(db)
  {
    OldIsBare(db);
  }

  lemma CompleteIsWithExact(db: Db)
    requires Schema(db) && Complete(db) && RowsUngated(db)
    ensures WithExact(db)
  {
  }

  /** The old identity never stands beside an outbox or a gate. */
  lemma OldIsBare(db: Db)
    requires Schema(db) && Old(db)
    ensures db.Keys == {Invocations} && db[Invocations].checks == {CanonicalV2}
  {
    assert ResumeOutbox !in db;
  }

  /** One attempt at the downgrade. It ends on the old identity, by a crash, or because live rows
      stand in the way before both gates are in. "Unexpectedly retains partial downgrade state", the
      second emptiness check and "incomplete" can never fire. Once both gates are in they stay, so from
      then on every attempt gets through or dies. */
  method Downgrade(s: Server) returns (r: Result)
    requires s.Valid() && Schema(s.db)
    modifies s
    ensures s.Valid() && Schema(s.db) && s.origin == old(s.origin)
    ensures s.deaths == old(s.deaths) + if r == Crash then 1 else 0
    ensures old(s.events) <= s.events && forall k | |old(s.events)| <= k < |s.events| :: DowngradeEvent(s.events[k])
    ensures r in {Done, Crash, AlterRejected, Preflight}
    ensures r == Done ==> Old(s.db) && s.db.Keys == {Invocations} && s.db[Invocations].checks == {CanonicalV2}
    ensures r == Done ==> WithoutExact(s.db)
    ensures r in {AlterRejected, Preflight} ==> OutboxRowStands(s.db) || RequestStands(s.db)
    ensures r == Preflight <==> old(!Old(s.db) && (OutboxRowStands(s.db) || RequestStands(s.db)))
    ensures r == Preflight ==> s.events == old(s.events)
    ensures r in {AlterRejected, Preflight} ==> !old(BothGates(s.db))
    ensures old(Old(s.db) || BothGates(s.db)) ==> Old(s.db) || BothGates(s.db)
  {
    hide ValidDb, Leads, DowngradeEvent, HasOutboxRow, HasAgentRequest, InvocationsSchema, OutboxSchema, RequestStands,
      OutboxRowStands, WithoutExact;
    ghost var before, first, origin := s.db, s.events, s.origin;
    QueriesFindRows(s.db);
    if BothGates(s.db) { FencedIsSafe(s.db); }
    if Old(s.db) {
      OldIsBare(s.db);
      OldIsWithoutExact(s.db);
      if ResumeOutbox in s.db || ResumeGate in s.db[Invocations].checks { return Unexpected; }
      return Done;
    }
    if HasOutboxRow(s.db) || HasAgentRequest(s.db) { return Preflight; }
    r := InstallGates(s);
    if r == Done { r := RemoveFenced(s); }
    QueriesFindRows(s.db);
    if r == Done { OldIsWithoutExact(s.db); }
    AttemptRun(s, origin, first, before);
    if FencedState(before) { FencedRunStaysFenced(before, s.events[|first|..], s.db); }
  }

  /** One attempt at the upgrade. From the old identity or a crash remainder it completes; the
      "unexpectedly has an outbox table" and "incomplete" refusals can never fire. A capability gate
      left by an unfinished downgrade is not released: the v3 schema is clean exactly when no such
      gate was there. */
  method Upgrade(s: Server) returns (r: Result)
    requires s.Valid() && Schema(s.db)
    modifies s
    ensures s.Valid() && Schema(s.db) && s.origin == old(s.origin)
    ensures s.deaths == old(s.deaths) + if r == Crash then 1 else 0
    ensures old(s.events) <= s.events && forall k | |old(s.events)| <= k < |s.events| :: UpgradeEvent(s.events[k])
    ensures r in {Done, Crash, AlterRejected, Preflight, Fenced}
    ensures r == Done ==> Complete(s.db) && (GateIn(s.db) <==> old(GateIn(s.db)))
    ensures r == Done ==> WithExact(s.db)
    ensures r == Fenced <==> old(!RowsUngated(s.db))
    ensures r == Preflight ==> s.events == old(s.events)
    ensures r in {AlterRejected, Preflight} ==> old(Old(s.db)) && RequestStands(s.db)
    ensures r == Preflight <==> old(Old(s.db) && RequestStands(s.db))
    ensures !old(Old(s.db)) ==> !Old(s.db)
  {
    hide ValidDb, Leads, UpgradeEvent, OutboxSchema, HasAgentRequest, RequestStands, WithExact;
    ghost var before, first, origin := s.db, s.events, s.origin;
    QueriesFindRows(s.db);
    if !RowsUngated(s.db) { return Fenced; }
    if Old(s.db) {
      if ResumeOutbox in s.db { return Unexpected; }
      if HasAgentRequest(s.db) { return Preflight; }
      var o := IssueUpgrade(s, Alter(Invocations, ToV3));
      if o != Committed {
        QueriesFindRows(s.db);
        return Halt(o);
      }
    }
    if Old(s.db) { return Incomplete; }
    r := EnsureOutbox(s);
    if r == Done { CompleteIsWithExact(s.db); }
    AttemptRun(s, origin, first, before);
    if NewState(before) { NewRunStaysNew(before, s.events[|first|..], s.db); }
  }

  /** On the v3 identity no two invocations of one Task have one terminal log. */
  lemma TerminalLogsAreUnique(db: Db, i: nat, j: nat)
    requires Schema(db) && ValidDb(db) && !Old(db) && i in db[Invocations].rows && j in db[Invocations].rows && i != j
    requires At(db[Invocations].rows[i], TaskId).Is? && At(db[Invocations].rows[i], TerminalLogId).Is?
    requires At(db[Invocations].rows[i], TaskId) == At(db[Invocations].rows[j], TaskId)
    ensures At(db[Invocations].rows[i], TerminalLogId) != At(db[Invocations].rows[j], TerminalLogId)
  {
    hide Evaluate, At;
    var t := db[Invocations];
    assert Valid(t) && TerminalLogKey in t.keys;
    assert !Collide(t.rows[i], t.rows[j], KeyColumns(TerminalLogKey));
  }

  /** On the v3 identity every agent request has the whole exact identity, as TRUE and not merely UNKNOWN. */
  lemma AgentRowsExact(db: Db, i: nat)
    requires Schema(db) && ValidDb(db) && !Old(db) && i in db[Invocations].rows
    requires At(db[Invocations].rows[i], Source) == Is(Text("agent_request"))
    requires {Purpose, ResumePolicy} <= db[Invocations].required
    ensures Evaluate(CanonicalV3, db[Invocations].rows[i]) == True
  {
    hide Evaluate, At, InvocationsSchema;
    NewIsV3(db[Invocations]);
    assert Fits(db[Invocations], db[Invocations].rows[i]);
    ExactOrRefused(db[Invocations].rows[i]);
  }

  lemma NewIsV3(t: Table)
    requires InvocationsSchema(t) && !OldInvocations(t)
    ensures CanonicalV3 in t.checks
  {
  }

  /** With the two NOT NULL texts set, the v3 identity of an agent request is never UNKNOWN. */
  lemma ExactOrRefused(r: Row)
    requires At(r, Source).Is? && At(r, Purpose).Is? && At(r, ResumePolicy).Is? && Admits(Evaluate(CanonicalV3, r))
    ensures Evaluate(CanonicalV3, r) == True
  {
    hide At;
  }

  /** The database of the finished upgrade with no rows in it. */
  function Finished(columns: set<Column>): Db {
    map[Invocations := Table(columns, {Source}, {CanonicalV3}, {TerminalLogKey}, {}, map[]),
        ResumeOutbox := EMPTY_OUTBOX.(indexes := OUTBOX_INDEXES)]
  }

  lemma FinishedIsComplete(columns: set<Column>)
    requires columns == {TaskId} + V1_COLUMNS + AUDIT + EXACT
    ensures Schema(Finished(columns)) && ValidDb(Finished(columns)) && Complete(Finished(columns)) && !GateIn(Finished(columns))
  {
  }

  lemma GatedIsComplete(from: Db, db: Db)
    requires Schema(from) && Schema(db) && Complete(from)
    requires Became(from, Alter(Invocations, Install(ResumeGate)), db)
    ensures Complete(db) && GateIn(db) && (RowsUngated(from) ==> RowsUngated(db))
  {
  }

  lemma CompleteIssuesNothing(db: Db)
    requires Schema(db) && Complete(db)
    ensures forall s :: !UpgradeIssues(db, s)
  {
    hide InvocationsSchema, OutboxSchema;
  }

  /** The input on which a gate stays: a downgrade of the finished schema that dies after its first
      statement leaves a database no upgrade changes any more, its capability gate still in force. */
  lemma LeftGateWitness() returns (from: Db, s: Statement, db: Db)
    ensures Schema(from) && ValidDb(from) && Complete(from) && !GateIn(from)
    ensures DowngradeIssues(from, s) && Applicable(from, s) && Commits(from, s) && db == Effect(from, s)
    ensures Schema(db) && Complete(db) && GateIn(db) && RowsUngated(db)
    ensures forall t :: !UpgradeIssues(db, t)
  {
    hide InvocationsSchema, OutboxSchema, Accepts, Altered, Valid, Complete;
    var columns := {TaskId} + V1_COLUMNS + AUDIT + EXACT;
    from, s := Finished(columns), Alter(Invocations, Install(ResumeGate));
    FinishedIsComplete(columns);
    DowngradeStep(from, s);
    db := Effect(from, s);
    AlterKeepsEmpty(from[Invocations], s.change);
    EffectBecomes(from, s, db);
    GatedIsComplete(from, db);
    CompleteIssuesNothing(db);
  }

  /** Going back to v2 costs nothing exactly when no row has an exact identity: agent requests cannot be
      there behind the gate, but other invocations may have one, and the downgrade does drop it. */
  lemma ExactLossIsExact(t: Table)
    requires Valid(t) && EXACT <= t.columns
    ensures (forall i | i in t.rows :: RowKeeps(t.rows[i], Altered(t, ToV2).rows[i], {}))
            <==> forall i, c | i in t.rows && c in EXACT :: At(t.rows[i], c).Null?
  {
    forall i | i in t.rows
      ensures RowKeeps(t.rows[i], Altered(t, ToV2).rows[i], EXACT)
      ensures forall c | c in EXACT :: At(Altered(t, ToV2).rows[i], c).Null?
    {
      AlterKeepsRows(t, ToV2, i);
    }
  }

  /** A person's own request that knows the incarnation of its Task. */
  function Incarnate(columns: set<Column>): Row {
    map c | c in columns ::
      if c == TaskId then Is(Num(1))
      else if c == Source then Is(Text("human_request"))
      else if c == Purpose then Is(Text("advisory"))
      else if c == ResumePolicy then Is(Text("attach_only"))
      else if c == IncarnationId then Is(Text("0123456789abcdef0123456789abcdef"))
      else Null
  }

  function IncarnateInvocations(columns: set<Column>): Table {
    Table(columns, {Source}, {CanonicalV3, ResumeGate}, {TerminalLogKey}, {}, map[0 := Incarnate(columns)])
  }

  lemma IncarnateFields(columns: set<Column>)
    requires {TaskId, Source, Purpose, ResumePolicy, IncarnationId} <= columns
    ensures var r := Incarnate(columns);
            && At(r, Source) == Is(Text("human_request")) && At(r, Purpose) == Is(Text("advisory"))
            && At(r, ResumePolicy) == Is(Text("attach_only")) && At(r, IncarnationId).Is? && r.Keys == columns
  {
  }

  lemma IncarnatePasses(columns: set<Column>)
    requires {TaskId, Source, Purpose, ResumePolicy, IncarnationId} <= columns
    ensures CoreChecks(Incarnate(columns)) == True && !IsAgentRequest(Incarnate(columns))
    ensures Fits(IncarnateInvocations(columns), Incarnate(columns))
  {
    hide Incarnate, AgentRequestV1, AgentAudit, AgentExactIdentity, At;
    IncarnateFields(columns);
    assert "human_request"[0] != "agent_request"[0];
    assert NotAgent(Incarnate(columns)) == True;
  }

  lemma IncarnateIsValid(columns: set<Column>)
    requires {TaskId, Source, Purpose, ResumePolicy, IncarnationId} <= columns
    ensures Valid(IncarnateInvocations(columns))
  {
    hide Incarnate, Evaluate, CoreChecks, Fits, Collide;
    IncarnatePasses(columns);
  }

  lemma IncarnateSchema(columns: set<Column>)
    requires columns == {TaskId} + V1_COLUMNS + AUDIT + EXACT
    ensures InvocationsSchema(IncarnateInvocations(columns)) && !OldInvocations(IncarnateInvocations(columns))
  {
    hide Incarnate;
  }

  lemma IdentityIsGone(t: Table, i: nat)
    requires i in t.rows
    ensures At(Altered(t, ToV2).rows[i], IncarnationId).Null?
  {
  }

  /** The input on which an identity goes: behind both gates, the outbox already dropped, a person's
      request has one, and the last statement of the downgrade commits and drops it. */
  lemma ExactLossWitness() returns (db: Db, i: nat)
    ensures Schema(db) && ValidDb(db) && BothGates(db) && i in db[Invocations].rows
    ensures CoreChecks(db[Invocations].rows[i]) == True && !IsAgentRequest(db[Invocations].rows[i])
    ensures At(db[Invocations].rows[i], IncarnationId).Is?
    ensures DowngradeIssues(db, Alter(Invocations, ToV2)) && Applicable(db, Alter(Invocations, ToV2))
    ensures Commits(db, Alter(Invocations, ToV2))
    ensures At(Effect(db, Alter(Invocations, ToV2))[Invocations].rows[i], IncarnationId).Null?
  {
    hide Incarnate, CoreChecks, Valid, Evaluate, InvocationsSchema, OldInvocations, Accepts, IsAgentRequest, At;
    var columns := {TaskId} + V1_COLUMNS + AUDIT + EXACT;
    db, i := map[Invocations := IncarnateInvocations(columns)], 0;
    IncarnateFields(columns);
    IncarnatePasses(columns);
    IncarnateIsValid(columns);
    IncarnateSchema(columns);
    DowngradeStep(db, Alter(Invocations, ToV2));
    FencedCommits(db, Alter(Invocations, ToV2));
    IdentityIsGone(db[Invocations], i);
  }

  lemma AlterKeepsEmpty(t: Table, ch: Change)
    requires t.rows == map[]
    ensures Valid(Altered(t, ch))
  {
  }

  method EnsureOutbox(s: Server) returns (r: Result)
    requires s.Valid() && Schema(s.db) && !Old(s.db) && RowsUngated(s.db)
    modifies s
    ensures s.Valid() && Schema(s.db) && s.origin == old(s.origin)
    ensures s.deaths == old(s.deaths) + if r == Crash then 1 else 0
    ensures old(s.events) <= s.events && forall k | |old(s.events)| <= k < |s.events| :: UpgradeEvent(s.events[k])
    ensures r in {Done, Crash}
    ensures r == Done ==> Complete(s.db) && RowsUngated(s.db) && (GateIn(s.db) <==> old(GateIn(s.db)))
  {
    hide ValidDb, Leads, UpgradeEvent, OutboxSchema;
    if ResumeOutbox !in s.db {
      var o := IssueUpgrade(s, Create(ResumeOutbox, EMPTY_OUTBOX));
      if o != Committed { return Halt(o); }
    }
    if ResumeOutbox !in s.db { return Incomplete; }
    r := EnsureIndex(s, OutboxDue);
    if r != Done { return; }
    r := EnsureIndex(s, OutboxTaskCreated);
    if r != Done { return; }
    if !(OUTBOX_INDEXES <= s.db[ResumeOutbox].indexes) { return Incomplete; }
    assert OutboxSchema(s.db[ResumeOutbox]);
    IndexesComplete(s.db[ResumeOutbox]);
  }

  lemma IndexesComplete(t: Table)
    requires OutboxSchema(t) && OUTBOX_INDEXES <= t.indexes
    ensures t.indexes == OUTBOX_INDEXES
  {
  }

  /** The body of the loop over the two index names. */
  method EnsureIndex(s: Server, i: IndexName) returns (r: Result)
    requires s.Valid() && Schema(s.db) && !Old(s.db) && RowsUngated(s.db) && ResumeOutbox in s.db && i in OUTBOX_INDEXES
    modifies s
    ensures s.Valid() && Schema(s.db) && s.origin == old(s.origin)
    ensures s.deaths == old(s.deaths) + if r == Crash then 1 else 0
    ensures old(s.events) <= s.events && forall k | |old(s.events)| <= k < |s.events| :: UpgradeEvent(s.events[k])
    ensures r in {Done, Crash}
    ensures r == Done ==> !Old(s.db) && RowsUngated(s.db) && ResumeOutbox in s.db
                          && s.db[ResumeOutbox].indexes == old(s.db)[ResumeOutbox].indexes + {i}
                          && (GateIn(s.db) <==> old(GateIn(s.db)))
  {
    hide ValidDb, Leads, UpgradeEvent, OutboxSchema;
    if i !in s.db[ResumeOutbox].indexes {
      var o := IssueUpgrade(s, Alter(ResumeOutbox, NoChange.(addIndexes := {i})));
      if o != Committed { return Halt(o); }
    }
    r := Done;
  }
}
