/** Tables as a migration sees them: a column set, the enforced constraints and the rows.
    One ALTER TABLE is one atomic step that either takes full effect or, when some row would
    violate a constraint of the result, changes nothing. */
module Relational {
  import opened ThreeValued

  datatype Cell = Num(n: int) | Text(s: string)
  type Field = Nullable<Cell>

  datatype TableName =
    | Invocations | Tasks | LogEntries | TerminationReceipts | ResumeOutbox
    | Workers | TaskMigrations | Reviews | QueueActions | Repos

  datatype Column =
    | TaskId | ActiveTaskId | InvocationId | ActiveInvocationId | Source | Purpose | ResumePolicy | RequestedByUserId
    | RetryCount | TurnGeneration | SourceLogId | OutputLogId
    | RequestReason | ProtocolVersion | OutputHash
    | IncarnationId | TerminalLogId
    | TurnSourceLogId
    | TurnScope | ActualTransport
    | OperationId | OutboxId
    | Status | BootstrapStep | DestroyNonce | TerminationReceipt
    | RepoId | PrNumber | BaseRef | BaseSha | HeadSha
    | RunId | TriggerHead | ReviewId
    | DefaultBranch
    | Payload(k: nat)  // every column no migration here touches

  /** A named CHECK together with its expression. The three canonical entries share one name. */
  datatype Check =
    | CanonicalV1 | CanonicalV2 | CanonicalV3 | ShadowV2 | AgentGate
    | TaskGate | LogGate | ScopeCheck | TransportCheck
    | ReceiptGate | ResumeGate | OutboxGate | DestroyGate | MigrationGate

  const CANONICAL: set<Check> := {CanonicalV1, CanonicalV2, CanonicalV3}

  predicate SameName(a: Check, b: Check) { a == b || (a in CANONICAL && b in CANONICAL) }

  datatype Key =
    | OutputLogKey | TerminalLogKey | ActiveTaskKey | ActiveInvocationKey
    | OldSubjectKey | NewSubjectKey | OldQueueKey | NewQueueKey

  function KeyColumns(k: Key): set<Column> {
    match k
    case OutputLogKey => {TaskId, OutputLogId}
    case TerminalLogKey => {TaskId, TerminalLogId}
    case ActiveTaskKey => {ActiveTaskId}
    case ActiveInvocationKey => {ActiveInvocationId}
    case OldSubjectKey => {RepoId, PrNumber, BaseSha, HeadSha}
    case NewSubjectKey => {RepoId, PrNumber, BaseRef, BaseSha, HeadSha}
    case OldQueueKey => {RunId, TriggerHead}
    case NewQueueKey => {RunId, ReviewId}
  }

  datatype IndexName =
    | ReceiptTaskCreated | ReceiptDue | ReceiptWorkerStatus | OutboxDue | OutboxTaskCreated

  type Row = map<Column, Field>

  function At(r: Row, c: Column): Field { if c in r then r[c] else Null }

  function TextIs(a: Field, s: string): Truth { Eq(a, Is(Text(s))) }

  function NumAtLeast(a: Field, n: int): Truth {
    if a.Null? then Unknown else Of(a.value.Num? && a.value.n >= n)
  }

  function TextLength(a: Field, n: nat): Truth {
    if a.Null? then Unknown else Of(a.value.Text? && |a.value.s| == n)
  }

  /** What every version of the identity CHECK demands of an agent request. */
  function AgentRequestV1(r: Row): Truth {
    And(TextIs(At(r, Purpose), "advisory"),
    And(TextIs(At(r, ResumePolicy), "resume_task"),
    And(IsNull(At(r, RequestedByUserId)),
    And(IsNotNull(At(r, RetryCount)),
    And(IsNotNull(At(r, TurnGeneration)),
    And(IsNotNull(At(r, SourceLogId)),
        IsNotNull(At(r, OutputLogId))))))))
  }

  function AgentAudit(r: Row): Truth {
    And(IsNotNull(At(r, RequestReason)),
    And(IsNotNull(At(r, ProtocolVersion)),
    And(NumAtLeast(At(r, ProtocolVersion), 1),
        IsNotNull(At(r, OutputHash)))))
  }

  function AgentExactIdentity(r: Row): Truth {
    And(And(IsNotNull(At(r, IncarnationId)), TextLength(At(r, IncarnationId), 32)),
    And(NumAtLeast(At(r, RetryCount), 0),
    And(NumAtLeast(At(r, TurnGeneration), 0),
    And(NumAtLeast(At(r, SourceLogId), 1),
    And(NumAtLeast(At(r, OutputLogId), 1),
    And(And(IsNotNull(At(r, TerminalLogId)), NumAtLeast(At(r, TerminalLogId), 1)),
        TextLength(At(r, OutputHash), 64)))))))
  }

  function NotAgent(r: Row): Truth { Not(TextIs(At(r, Source), "agent_request")) }

  function Evaluate(k: Check, r: Row): Truth {
    match k
    case CanonicalV1 => Or(NotAgent(r), AgentRequestV1(r))
    case CanonicalV2 => Or(NotAgent(r), And(AgentRequestV1(r), AgentAudit(r)))
    case CanonicalV3 => Or(NotAgent(r), And(And(AgentRequestV1(r), AgentAudit(r)), AgentExactIdentity(r)))
    case ShadowV2 => Or(NotAgent(r), And(AgentRequestV1(r), AgentAudit(r)))
    case AgentGate => NotAgent(r)
    case ResumeGate => NotAgent(r)
    case ScopeCheck =>
      Or(IsNull(At(r, TurnScope)), In(At(r, TurnScope),
        {Text("source"), Text("foreground"), Text("autonomous"), Text("orphan")}))
    case TransportCheck =>
      Or(IsNull(At(r, ActualTransport)),
        And(IsNotNull(At(r, TurnScope)), And(TextIs(At(r, TurnScope), "source"), In(At(r, ActualTransport),
          {Text("claude_pty"), Text("claude_exec"), Text("codex_app_server"), Text("codex_exec")}))))
    case TaskGate => IsNull(At(r, TurnSourceLogId))
    case LogGate => And(IsNull(At(r, TurnScope)), IsNull(At(r, ActualTransport)))
    case ReceiptGate => IsNull(At(r, OperationId))
    case MigrationGate => IsNull(At(r, OperationId))
    case OutboxGate => IsNull(At(r, OutboxId))
    case DestroyGate =>
      And(IsNotNull(At(r, Status)),
      And(Not(TextIs(At(r, Status), "destroying")),
      And(IsNull(At(r, DestroyNonce)),
      And(IsNull(At(r, TerminationReceipt)),
          Or(IsNull(At(r, BootstrapStep)), Not(TextIs(At(r, BootstrapStep), "destroy")))))))
  }

  /** What the CHECKs that the invocations came with, and that no migration here touches, ask of the texts:
      alembic/versions/6a4c2e9f1b73_add_capability_core.py:82-93. */
  function CoreChecks(r: Row): Truth {
    And(In(At(r, Source), {Text("human_request"), Text("agent_request"), Text("delivery_controller")}),
    And(In(At(r, Purpose), {Text("advisory"), Text("required_gate")}),
        In(At(r, ResumePolicy), {Text("attach_only"), Text("resume_task"), Text("controller")})))
  }

  // ---- What the identities say, in two values ----

  predicate HasText(r: Row, c: Column, s: string) { At(r, c) == Is(Text(s)) }

  predicate HasNumFrom(r: Row, c: Column, n: int) { At(r, c).Is? && At(r, c).value.Num? && At(r, c).value.n >= n }

  predicate HasTextOf(r: Row, c: Column, n: nat) { At(r, c).Is? && At(r, c).value.Text? && |At(r, c).value.s| == n }

  /** The v1 identity is TRUE of an agent request exactly when it is an advisory one that resumes its Task,
      asked by no user and with its turn recorded; FALSE as soon as one of these fails on a known value;
      and TRUE of every other source. */
  lemma IdentityV1Means(r: Row)
    ensures At(r, Source).Is? && !HasText(r, Source, "agent_request") ==> Evaluate(CanonicalV1, r) == True
    ensures HasText(r, Source, "agent_request") ==>
              (Evaluate(CanonicalV1, r) == True <==>
                && HasText(r, Purpose, "advisory") && HasText(r, ResumePolicy, "resume_task")
                && At(r, RequestedByUserId).Null? && At(r, RetryCount).Is? && At(r, TurnGeneration).Is?
                && At(r, SourceLogId).Is? && At(r, OutputLogId).Is?)
    ensures HasText(r, Source, "agent_request") ==>
              (Evaluate(CanonicalV1, r) == False <==>
                || (At(r, Purpose).Is? && !HasText(r, Purpose, "advisory"))
                || (At(r, ResumePolicy).Is? && !HasText(r, ResumePolicy, "resume_task"))
                || At(r, RequestedByUserId).Is? || At(r, RetryCount).Null? || At(r, TurnGeneration).Null?
                || At(r, SourceLogId).Null? || At(r, OutputLogId).Null?)
  {
    hide At;
  }

  /** The v2 identity, and the shadow CHECK, add the audit: a reason, a protocol version from 1 on, and the
      hash of the output. */
  lemma IdentityV2Means(r: Row)
    ensures Evaluate(ShadowV2, r) == Evaluate(CanonicalV2, r)
    ensures At(r, Source).Is? && !HasText(r, Source, "agent_request") ==> Evaluate(CanonicalV2, r) == True
    ensures HasText(r, Source, "agent_request") ==>
              (Evaluate(CanonicalV2, r) == True <==>
                && Evaluate(CanonicalV1, r) == True
                && At(r, RequestReason).Is? && HasNumFrom(r, ProtocolVersion, 1) && At(r, OutputHash).Is?)
    ensures HasText(r, Source, "agent_request") ==>
              (Evaluate(CanonicalV2, r) == False <==>
                || Evaluate(CanonicalV1, r) == False
                || At(r, RequestReason).Null? || !HasNumFrom(r, ProtocolVersion, 1) || At(r, OutputHash).Null?)
  {
    hide At, AgentRequestV1;
  }

  /** The v3 identity adds the exact one: a 32-letter incarnation, the numbers in their ranges, a terminal
      log and a 64-letter hash. */
  lemma IdentityV3Means(r: Row)
    ensures At(r, Source).Is? && !HasText(r, Source, "agent_request") ==> Evaluate(CanonicalV3, r) == True
    ensures HasText(r, Source, "agent_request") ==>
              (Evaluate(CanonicalV3, r) == True <==>
                && Evaluate(CanonicalV2, r) == True
                && HasTextOf(r, IncarnationId, 32) && HasNumFrom(r, RetryCount, 0) && HasNumFrom(r, TurnGeneration, 0)
                && HasNumFrom(r, SourceLogId, 1) && HasNumFrom(r, OutputLogId, 1) && HasNumFrom(r, TerminalLogId, 1)
                && HasTextOf(r, OutputHash, 64))
  {
    hide At, AgentRequestV1, AgentAudit;
  }

  /** The CHECKs on a LogEntry's provenance: a scope is one of four, and a transport goes with a source
      scope and is one of four. */
  lemma ProvenanceMeans(r: Row)
    ensures Admits(Evaluate(ScopeCheck, r)) <==>
            || At(r, TurnScope).Null? || HasText(r, TurnScope, "source") || HasText(r, TurnScope, "foreground")
            || HasText(r, TurnScope, "autonomous") || HasText(r, TurnScope, "orphan")
    ensures Admits(Evaluate(TransportCheck, r)) <==>
            || At(r, ActualTransport).Null?
            || (HasText(r, TurnScope, "source")
                && (|| HasText(r, ActualTransport, "claude_pty") || HasText(r, ActualTransport, "claude_exec")
                    || HasText(r, ActualTransport, "codex_app_server") || HasText(r, ActualTransport, "codex_exec")))
  {
    hide At;
  }

  /** The gates: each demands that what it guards is not there. */
  lemma GatesMean(r: Row)
    ensures Admits(Evaluate(AgentGate, r)) <==> !HasText(r, Source, "agent_request")
    ensures Admits(Evaluate(ResumeGate, r)) <==> !HasText(r, Source, "agent_request")
    ensures Admits(Evaluate(TaskGate, r)) <==> At(r, TurnSourceLogId).Null?
    ensures Admits(Evaluate(LogGate, r)) <==> At(r, TurnScope).Null? && At(r, ActualTransport).Null?
    ensures Admits(Evaluate(ReceiptGate, r)) <==> At(r, OperationId).Null?
    ensures Admits(Evaluate(MigrationGate, r)) <==> At(r, OperationId).Null?
    ensures Admits(Evaluate(OutboxGate, r)) <==> At(r, OutboxId).Null?
    ensures Admits(Evaluate(DestroyGate, r)) <==>
            && At(r, Status).Is? && !HasText(r, Status, "destroying") && At(r, DestroyNonce).Null?
            && At(r, TerminationReceipt).Null? && !HasText(r, BootstrapStep, "destroy")
  {
    hide At;
  }

  const V1_COLUMNS: set<Column> :=
    {Source, Purpose, ResumePolicy, RequestedByUserId, RetryCount, TurnGeneration, SourceLogId, OutputLogId}
  const AUDIT: set<Column> := {RequestReason, ProtocolVersion, OutputHash}
  const EXACT: set<Column> := {IncarnationId, TerminalLogId}

  /** The columns a CHECK mentions: the server refuses an ALTER that leaves one of them missing. */
  function Mentions(k: Check): set<Column> {
    match k
    case CanonicalV1 => V1_COLUMNS
    case CanonicalV2 => V1_COLUMNS + AUDIT
    case ShadowV2 => V1_COLUMNS + AUDIT
    case CanonicalV3 => V1_COLUMNS + AUDIT + EXACT
    case AgentGate => {Source}
    case ResumeGate => {Source}
    case ScopeCheck => {TurnScope}
    case TransportCheck => {TurnScope, ActualTransport}
    case TaskGate => {TurnSourceLogId}
    case LogGate => {TurnScope, ActualTransport}
    case ReceiptGate => {OperationId}
    case MigrationGate => {OperationId}
    case OutboxGate => {OutboxId}
    case DestroyGate => {Status, DestroyNonce, TerminationReceipt, BootstrapStep}
  }

  datatype Table = Table(
    columns: set<Column>,
    required: set<Column>,  // declared NOT NULL
    checks: set<Check>,
    keys: set<Key>,
    indexes: set<IndexName>,
    rows: map<nat, Row>)

  type Db = map<TableName, Table>

  predicate Fits(t: Table, r: Row) {
    && r.Keys == t.columns
    && (forall c | c in t.required :: At(r, c).Is?)
    && (forall k | k in t.checks :: Admits(Evaluate(k, r)))
  }

  /** UNIQUE never compares a NULL: two rows collide only when every key column is set and equal. */
  predicate Collide(r: Row, s: Row, key: set<Column>) {
    forall c | c in key :: At(r, c).Is? && At(r, c) == At(s, c)
  }

  predicate Agree(r: Row, s: Row, c: Column) { At(r, c).Is? && At(r, c) == At(s, c) }

  /** What two rows have in common when a key refuses them. */
  lemma CollideMeans(r: Row, s: Row)
    ensures Collide(r, s, KeyColumns(OutputLogKey)) <==> Agree(r, s, TaskId) && Agree(r, s, OutputLogId)
    ensures Collide(r, s, KeyColumns(TerminalLogKey)) <==> Agree(r, s, TaskId) && Agree(r, s, TerminalLogId)
    ensures Collide(r, s, KeyColumns(ActiveTaskKey)) <==> Agree(r, s, ActiveTaskId)
    ensures Collide(r, s, KeyColumns(ActiveInvocationKey)) <==> Agree(r, s, ActiveInvocationId)
    ensures Collide(r, s, KeyColumns(OldSubjectKey)) <==>
            Agree(r, s, RepoId) && Agree(r, s, PrNumber) && Agree(r, s, BaseSha) && Agree(r, s, HeadSha)
    ensures Collide(r, s, KeyColumns(NewSubjectKey)) <==>
            && Agree(r, s, RepoId) && Agree(r, s, PrNumber) && Agree(r, s, BaseRef) && Agree(r, s, BaseSha)
            && Agree(r, s, HeadSha)
    ensures Collide(r, s, KeyColumns(OldQueueKey)) <==> Agree(r, s, RunId) && Agree(r, s, TriggerHead)
    ensures Collide(r, s, KeyColumns(NewQueueKey)) <==> Agree(r, s, RunId) && Agree(r, s, ReviewId)
  {
    hide At;
  }

  predicate KeyHolds(rows: map<nat, Row>, key: set<Column>) {
    forall i, j | i in rows && j in rows && i != j :: !Collide(rows[i], rows[j], key)
  }

  predicate Valid(t: Table) {
    && (forall i | i in t.rows :: Fits(t, t.rows[i]))
    && (forall k | k in t.keys :: KeyHolds(t.rows, KeyColumns(k)))
  }

  predicate ValidDb(db: Db) { forall n | n in db :: Valid(db[n]) }

  predicate SameSchema(t: Table, u: Table) {
    && t.columns == u.columns && t.required == u.required
    && t.checks == u.checks && t.keys == u.keys && t.indexes == u.indexes
  }

  predicate SameSchemas(a: Db, b: Db) {
    a.Keys == b.Keys && forall n | n in a :: SameSchema(a[n], b[n])
  }

  /** The clauses of one ALTER TABLE, which the server applies together. */
  datatype Change = Change(
    addColumns: set<Column>, dropColumns: set<Column>, require: set<Column>,
    addChecks: set<Check>, dropChecks: set<Check>,
    addKeys: set<Key>, dropKeys: set<Key>,
    addIndexes: set<IndexName>)

  const NoChange := Change({}, {}, {}, {}, {}, {}, {}, {})

  datatype Statement =
    | Alter(table: TableName, change: Change)
    | Create(table: TableName, definition: Table)
    | Drop(table: TableName)
      // UPDATE table SET column = (SELECT source FROM parent WHERE parent.id = table.link) WHERE column IS NULL
    | FillNulls(table: TableName, column: Column, link: Column, parent: TableName, source: Column)

  function Columns(t: Table, ch: Change): set<Column> { (t.columns - ch.dropColumns) + ch.addColumns }

  function Checks(t: Table, ch: Change): set<Check> { (t.checks - ch.dropChecks) + ch.addChecks }

  function Keys(t: Table, ch: Change): set<Key> { (t.keys - ch.dropKeys) + ch.addKeys }

  /** Whether the server accepts the statement at all, rows aside: nothing missing is dropped, no
      name is taken twice, and no constraint is left without its columns. */
  predicate Accepts(t: Table, ch: Change) {
    && ch.addColumns !! t.columns && ch.dropColumns <= t.columns
    && ch.dropChecks <= t.checks && ch.dropKeys <= t.keys && ch.addKeys !! (t.keys - ch.dropKeys)
    && (forall a, b | a in ch.addChecks && b in t.checks - ch.dropChecks :: !SameName(a, b))
    && ch.addIndexes !! t.indexes
    && ch.require <= Columns(t, ch)
    && (forall k | k in Checks(t, ch) :: Mentions(k) <= Columns(t, ch))
    && (forall k | k in Keys(t, ch) :: KeyColumns(k) <= Columns(t, ch))
  }

  function Project(r: Row, columns: set<Column>): Row { map c | c in columns :: At(r, c) }

  function Altered(t: Table, ch: Change): Table {
    Table(Columns(t, ch), (t.required - ch.dropColumns) + ch.require, Checks(t, ch), Keys(t, ch),
          t.indexes + ch.addIndexes,
          map i | i in t.rows :: Project(t.rows[i], Columns(t, ch)))
  }

  function Filled(t: Table, column: Column, link: Column, parent: Table, source: Column): Table {
    t.(rows := map i | i in t.rows ::
      if At(t.rows[i], column).Is? then t.rows[i]
      else t.rows[i][column := ParentField(parent, At(t.rows[i], link), source)])
  }

  /** The scalar subquery: NULL when the link is NULL or names no parent row. */
  function ParentField(parent: Table, link: Field, source: Column): Field {
    if link.Is? && link.value.Num? && link.value.n >= 0 && link.value.n in parent.rows
    then At(parent.rows[link.value.n], source) else Null
  }

  predicate Applicable(db: Db, s: Statement) {
    match s
    case Alter(n, ch) => n in db && Accepts(db[n], ch)
    case Create(n, t) => n !in db && t.rows == map[]
    case Drop(n) => n in db
    case FillNulls(n, c, link, p, src) => n in db && p in db && {c, link} <= db[n].columns && src in db[p].columns
  }

  function Effect(db: Db, s: Statement): Db
    requires Applicable(db, s)
  {
    match s
    case Alter(n, ch) => db[n := Altered(db[n], ch)]
    case Create(n, t) => db[n := t]
    case Drop(n) => db - {n}
    case FillNulls(n, c, link, p, src) => db[n := Filled(db[n], c, link, db[p], src)]
  }

  /** A statement commits exactly when every row meets the constraints of its result. */
  predicate Commits(db: Db, s: Statement)
    requires Applicable(db, s)
  {
    ValidDb(Effect(db, s))
  }

  /** Any number of writes by live processes: rows change freely, the schema does not,
      and every enforced constraint holds afterwards. */
  predicate WriterStep(a: Db, b: Db) { SameSchemas(a, b) && ValidDb(b) }

  lemma SameSchemasTransitive(a: Db, b: Db, c: Db)
    requires SameSchemas(a, b) && SameSchemas(b, c)
    ensures SameSchemas(a, c)
  {
  }

  /** Whether a statement is accepted, and the schema it leaves, do not depend on the rows. */
  lemma SchemaDecides(a: Db, b: Db, s: Statement)
    requires SameSchemas(a, b) && Applicable(a, s)
    ensures Applicable(b, s) && SameSchemas(Effect(a, s), Effect(b, s))
  {
    if s.Alter? {
      var t, u, ch := a[s.table], b[s.table], s.change;
      assert Checks(t, ch) == Checks(u, ch) && Keys(t, ch) == Keys(u, ch) && Columns(t, ch) == Columns(u, ch);
      assert Accepts(u, ch);
    }
  }

  /** The schema a committed statement leaves, table by table. */
  predicate Became(a: Db, s: Statement, b: Db) {
    match s
    case Alter(n, ch) =>
      && n in a && b.Keys == a.Keys
      && b[n].columns == Columns(a[n], ch) && b[n].checks == Checks(a[n], ch) && b[n].keys == Keys(a[n], ch)
      && b[n].required == (a[n].required - ch.dropColumns) + ch.require && b[n].indexes == a[n].indexes + ch.addIndexes
      && forall m | m in a && m != n :: SameSchema(a[m], b[m])
    case Create(n, t) => b.Keys == a.Keys + {n} && SameSchema(t, b[n]) && forall m | m in a && m != n :: SameSchema(a[m], b[m])
    case Drop(n) => b.Keys == a.Keys - {n} && forall m | m in b :: SameSchema(a[m], b[m])
    case FillNulls(n, _, _, _, _) => SameSchemas(a, b)
  }

  lemma EffectBecomes(a: Db, s: Statement, b: Db)
    requires Applicable(a, s) && SameSchemas(Effect(a, s), b)
    ensures Became(a, s, b)
  {
    var e := Effect(a, s);
    assert forall n | n in e :: SameSchema(e[n], b[n]);
  }

  // ---- What one statement keeps ----

  /** Every value that was set outside `except` is still there. */
  ghost predicate RowKeeps(r: Row, s: Row, except: set<Column>) {
    forall c | c !in except && At(r, c).Is? :: At(s, c) == At(r, c)
  }

  /** An ALTER keeps every row, and loses a value only by dropping a column in which it is set. */
  lemma AlterKeepsRows(t: Table, ch: Change, i: nat)
    requires Valid(t) && i in t.rows
    ensures Altered(t, ch).rows.Keys == t.rows.Keys
    ensures RowKeeps(t.rows[i], Altered(t, ch).rows[i], ch.dropColumns)
  {
    assert Fits(t, t.rows[i]);
  }

  /** A CHECK sees only the columns it mentions. */
  lemma EvaluateProjected(k: Check, r: Row, columns: set<Column>)
    requires Mentions(k) <= columns
    ensures Evaluate(k, Project(r, columns)) == Evaluate(k, r)
  {
    assert forall c | c in Mentions(k) :: At(Project(r, columns), c) == At(r, c);
  }

  lemma CollideProjected(r: Row, s: Row, key: set<Column>, columns: set<Column>)
    requires key <= columns
    ensures Collide(Project(r, columns), Project(s, columns), key) == Collide(r, s, key)
  {
    assert forall c | c in key ::
      At(Project(r, columns), c) == At(r, c) && At(Project(s, columns), c) == At(s, c);
  }

  /** What an ALTER adds, judged on the rows as they stand: a new column reads as NULL. */
  predicate RowsMeet(t: Table, ch: Change) {
    && (forall i, k | i in t.rows && k in ch.addChecks :: Admits(Evaluate(k, t.rows[i])))
    && (forall i, c | i in t.rows && c in ch.require :: At(t.rows[i], c).Is?)
    && (forall k | k in ch.addKeys :: KeyHolds(t.rows, KeyColumns(k)))
  }

  /** An ALTER on a valid table commits exactly when the rows meet what it adds. */
  lemma AlterCommits(t: Table, ch: Change)
    requires Valid(t) && Accepts(t, ch)
    ensures Valid(Altered(t, ch)) <==> RowsMeet(t, ch)
  {
    if RowsMeet(t, ch) { MeetingRowsCommit(t, ch); }
    if Valid(Altered(t, ch)) { CommittedRowsMeet(t, ch); }
  }

  lemma MeetingRowsCommit(t: Table, ch: Change)
    requires Valid(t) && Accepts(t, ch) && RowsMeet(t, ch)
    ensures Valid(Altered(t, ch))
  {
    var u, cols := Altered(t, ch), Columns(t, ch);
    forall i | i in u.rows
      ensures Fits(u, u.rows[i])
    {
      assert Fits(t, t.rows[i]);
      forall k | k in u.checks ensures Admits(Evaluate(k, u.rows[i])) {
        EvaluateProjected(k, t.rows[i], cols);
      }
    }
    forall k | k in u.keys
      ensures KeyHolds(u.rows, KeyColumns(k))
    {
      assert KeyHolds(t.rows, KeyColumns(k));
      forall i, j | i in u.rows && j in u.rows && i != j ensures !Collide(u.rows[i], u.rows[j], KeyColumns(k)) {
        CollideProjected(t.rows[i], t.rows[j], KeyColumns(k), cols);
      }
    }
  }

  lemma CommittedRowsMeet(t: Table, ch: Change)
    requires Valid(t) && Accepts(t, ch) && Valid(Altered(t, ch))
    ensures RowsMeet(t, ch)
  {
    var u, cols := Altered(t, ch), Columns(t, ch);
    forall i, k | i in t.rows && k in ch.addChecks
      ensures Admits(Evaluate(k, t.rows[i]))
    {
      assert Fits(u, u.rows[i]) && k in u.checks;
      EvaluateProjected(k, t.rows[i], cols);
    }
    forall i, c | i in t.rows && c in ch.require
      ensures At(t.rows[i], c).Is?
    {
      assert Fits(u, u.rows[i]) && c in u.required;
      assert At(u.rows[i], c) == At(t.rows[i], c);
    }
    forall k | k in ch.addKeys
      ensures KeyHolds(t.rows, KeyColumns(k))
    {
      assert k in u.keys && KeyHolds(u.rows, KeyColumns(k));
      forall i, j | i in t.rows && j in t.rows && i != j ensures !Collide(t.rows[i], t.rows[j], KeyColumns(k)) {
        assert !Collide(u.rows[i], u.rows[j], KeyColumns(k));
        CollideProjected(t.rows[i], t.rows[j], KeyColumns(k), cols);
      }
    }
  }

  lemma ValidLocally(db: Db, n: TableName, t: Table)
    requires ValidDb(db)
    ensures ValidDb(db[n := t]) <==> Valid(t)
  {
    hide Valid;
    assert db[n := t][n] == t;
    assert forall m | m in db && m != n :: db[n := t][m] == db[m];
  }

  /** Widening a key cannot create a collision, NULLs included. */
  lemma WiderKeyHolds(rows: map<nat, Row>, narrow: set<Column>, wide: set<Column>)
    requires KeyHolds(rows, narrow) && narrow <= wide
    ensures KeyHolds(rows, wide)
  {
    forall i, j | i in rows && j in rows && i != j
      ensures !Collide(rows[i], rows[j], wide)
    {
      assert !Collide(rows[i], rows[j], narrow);
    }
  }

  /** A row passes v2 only if it passes v1, and passes every identity if it is not an agent request;
      each holds when "passes" includes UNKNOWN. */
  lemma IdentityOrder(r: Row)
    ensures Admits(Evaluate(CanonicalV3, r)) ==> Admits(Evaluate(CanonicalV2, r))
    ensures Admits(Evaluate(CanonicalV2, r)) ==> Admits(Evaluate(CanonicalV1, r))
    ensures Admits(Evaluate(AgentGate, r)) ==> Admits(Evaluate(CanonicalV3, r))
  {
  }
}
