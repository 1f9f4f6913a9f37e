/** alembic/versions/a3d9b5f7c1e4_add_task_migration_operations.py on a MySQL-family server: one table
    that is created, fenced and dropped. */
module TaskMigrationsTable {
  import opened ThreeValued
  import opened Relational
  import opened MySql

  /** What `_table_state` distinguishes. */
  datatype State = Absent | Canonical | CanonicalGated

  const COLUMNS: set<Column> := {OperationId, TaskId, ActiveTaskId, Payload(0)}

  const DEFINITION: Table :=
    Table(COLUMNS, {OperationId, TaskId, Payload(0)}, {}, {ActiveTaskKey}, {}, map[])

  predicate TableSchema(t: Table) {
    && t.columns == COLUMNS && t.required == DEFINITION.required && t.keys == {ActiveTaskKey}
    && t.indexes == {} && t.checks <= {MigrationGate}
  }

  predicate Schema(db: Db) { db.Keys <= {TaskMigrations} && (TaskMigrations in db ==> TableSchema(db[TaskMigrations])) }

  function StateOf(db: Db): State {
    if TaskMigrations !in db then Absent
    else if MigrationGate in db[TaskMigrations].checks then CanonicalGated else Canonical
  }

  const CreateTable := Create(TaskMigrations, DEFINITION)
  const InstallGate := Alter(TaskMigrations, NoChange.(addChecks := {MigrationGate}))
  const DropTable := Drop(TaskMigrations)

  predicate IssuedOn(db: Db, s: Statement) {
    match StateOf(db)
    case Absent => s == CreateTable
    case Canonical => s == InstallGate
    case CanonicalGated => s == DropTable
  }

  lemma StatementStep(db: Db, s: Statement)
    requires Schema(db) && IssuedOn(db, s)
    ensures Applicable(db, s) && Schema(Effect(db, s))
    ensures StateOf(Effect(db, s)) ==
            match StateOf(db) case Absent => Canonical case Canonical => CanonicalGated case CanonicalGated => Absent
  {
    if StateOf(db) == Canonical { assert Accepts(db[TaskMigrations], InstallGate.change); }
  }

  lemma GatedRow(t: Table, r: Row)
    requires TableSchema(t) && MigrationGate in t.checks
    ensures !Fits(t, r)
  {
    assert OperationId in t.required;
  }

  /** The gate contradicts the primary key, so a fenced table is empty and stays empty. */
  lemma GatedIsEmpty(t: Table)
    requires Valid(t) && TableSchema(t) && MigrationGate in t.checks
    ensures t.rows == map[]
  {
    forall i: nat ensures i !in t.rows {
      if i in t.rows { GatedRow(t, t.rows[i]); }
    }
  }

  /** The gate can be installed exactly on an empty table: the preflight query is exact. */
  lemma EmptinessDecidesGate(t: Table)
    requires TableSchema(t) && Valid(t) && MigrationGate !in t.checks
    ensures Valid(Altered(t, InstallGate.change)) <==> t.rows == map[]
  {
    var u := Altered(t, InstallGate.change);
    if Valid(u) {
      assert TableSchema(u) && u.rows.Keys == t.rows.Keys;
      GatedIsEmpty(u);
    }
  }

  // ---- Runs ----

  /** The operation rows there are; none when the table is gone. */
  function Operations(db: Db): map<nat, Row> { if TaskMigrations in db then db[TaskMigrations].rows else map[] }

  ghost predicate Issued(e: Event) { e.Ran? ==> Schema(e.before) && IssuedOn(e.before, e.statement) }

  /** A statement takes no operation away and changes none. */
  ghost predicate SafeEvent(e: Event) {
    e.Ran? ==> Operations(e.after) == Operations(e.before)
  }

  lemma EventIsSafe(e: Event)
    requires Happened(e) && Schema(e.before) && ValidDb(e.before) && Issued(e)
    ensures SafeEvent(e) && Schema(e.after) && ValidDb(e.after)
  {
    match e
    case Wrote(a, b) =>
      if TaskMigrations in a { assert SameSchema(a[TaskMigrations], b[TaskMigrations]); }
    case Ran(a, s, b) =>
      StatementStep(a, s);
      if StateOf(a) == CanonicalGated { GatedIsEmpty(a[TaskMigrations]); }
      if StateOf(a) == Canonical { EmptinessDecidesGate(a[TaskMigrations]); }
  }

  /** Whatever writers, crashes and re-runs in either direction do, no statement discards an operation:
      the table is dropped only behind the gate, where it is empty. */
  lemma RunLosesNothing(from: Db, events: seq<Event>, to: Db)
    requires Leads(from, events, to) && Schema(from) && ValidDb(from)
    requires forall k | 0 <= k < |events| :: Issued(events[k])
    ensures Schema(to) && ValidDb(to)
    ensures forall k | 0 <= k < |events| :: SafeEvent(events[k])
  {
    hide Happened, Leads, SafeEvent, Issued, Schema, ValidDb;
    forall e: Event | Happened(e) && Schema(e.before) && ValidDb(e.before) && (Issued(e))
      ensures SafeEvent(e) && Schema(e.after) && ValidDb(e.after)
    {
      EventIsSafe(e);
    }
    RunInvariant(db => Schema(db) && ValidDb(db), e => Issued(e), e => SafeEvent(e), from, events, to);
  }

  // ---- The script ----

  datatype Result = Done | Crash | AlterRejected | NotEmpty | Fenced | Incomplete

  function Halt(o: Outcome): Result { if o == Crashed then Crash else AlterRejected }

  lemma SchemaShared(a: Db, b: Db, s: Statement)
    requires SameSchemas(a, b) && Schema(a)
    ensures Schema(b) && StateOf(b) == StateOf(a) && (IssuedOn(a, s) ==> IssuedOn(b, s))
  {
    if TaskMigrations in a { assert SameSchema(a[TaskMigrations], b[TaskMigrations]); }
  }

  lemma OnlyTheGateIsRejected(db: Db, s: Statement)
    requires Schema(db) && ValidDb(db) && IssuedOn(db, s) && Applicable(db, s) && !Commits(db, s)
    ensures s == InstallGate && StateOf(db) == Canonical && Operations(db) != map[]
  {
    if StateOf(db) == Canonical {
      EmptinessDecidesGate(db[TaskMigrations]);
      ValidLocally(db, TaskMigrations, Altered(db[TaskMigrations], InstallGate.change));
    }
  }

  method Issue(s: Server, st: Statement) returns (o: Outcome)
    requires s.Valid() && Schema(s.db) && IssuedOn(s.db, st)
    modifies s
    ensures s.Valid() && Schema(s.db) && s.origin == old(s.origin)
    ensures s.deaths == old(s.deaths) + if o == Crashed then 1 else 0
    ensures old(s.events) <= s.events && forall k | |old(s.events)| <= k < |s.events| :: Issued(s.events[k])
    ensures o == Committed ==> StateOf(s.db) != old(StateOf(s.db)) && (StateOf(s.db) == Canonical <==> st == CreateTable)
    ensures o == Committed && st == DropTable ==> StateOf(s.db) == Absent
    ensures o == Committed && st == InstallGate ==> StateOf(s.db) == CanonicalGated
    ensures o == Rejected ==> st == InstallGate && StateOf(s.db) == Canonical && Operations(s.db) != map[]
  {
    StatementStep(s.db, st);
    o := s.Execute(st);
    forall k | |old(s.events)| <= k < |s.events| ensures Issued(s.events[k]) {
      if s.events[k].Ran? { SchemaShared(old(s.db), s.events[k].before, st); }
    }
    if SameSchemas(old(s.db), s.db) { SchemaShared(old(s.db), s.db, st); }
    else { SchemaShared(Effect(old(s.db), st), s.db, st); }
    if o == Committed { SchemaShared(Effect(old(s.db), st), s.db, st); }
    if o == Rejected { OnlyTheGateIsRejected(s.db, st); }
  }

  /** One attempt at the upgrade. Its "incomplete" refusal is unreachable; a gate refuses it. */
  method Upgrade(s: Server) returns (r: Result)
    requires s.Valid() && Schema(s.db)
    modifies s
    ensures s.Valid() && Schema(s.db) && s.origin == old(s.origin)
    ensures s.deaths == old(s.deaths) + if r == Crash then 1 else 0
    ensures old(s.events) <= s.events && forall k | |old(s.events)| <= k < |s.events| :: Issued(s.events[k])
    ensures r in {Done, Crash, Fenced}
    ensures r == Done ==> StateOf(s.db) == Canonical
    ensures r == Done ==> TaskMigrations in s.db && MigrationGate !in s.db[TaskMigrations].checks
    ensures r == Fenced <==> old(TaskMigrations in s.db && MigrationGate in s.db[TaskMigrations].checks)
  {
    hide ValidDb, Leads, Issued, IssuedOn, StateOf, Schema;
    StateMeans(s.db);
    var state := StateOf(s.db);
    if state == CanonicalGated { return Fenced; }
    if state == Absent {
      IssuedFrom(s.db);
      var o := Issue(s, CreateTable);
      if o != Committed { return Halt(o); }
    }
    StateMeans(s.db);
    if StateOf(s.db) != Canonical { return Incomplete; }
    r := Done;
  }

  lemma IssuedFrom(db: Db)
    ensures StateOf(db) == Absent ==> IssuedOn(db, CreateTable)
    ensures StateOf(db) == Canonical ==> IssuedOn(db, InstallGate)
    ensures StateOf(db) == CanonicalGated ==> IssuedOn(db, DropTable)
  {
  }

  lemma FencedIsEmpty(db: Db)
    requires Schema(db) && ValidDb(db) && StateOf(db) == CanonicalGated
    ensures Operations(db) == map[]
  {
    GatedIsEmpty(db[TaskMigrations]);
  }

  lemma StateMeans(db: Db)
    requires Schema(db)
    ensures StateOf(db) == Canonical ==> TaskMigrations in db && MigrationGate !in db[TaskMigrations].checks
    ensures StateOf(db) == CanonicalGated <==> TaskMigrations in db && MigrationGate in db[TaskMigrations].checks
  {
  }

  /** An operation is on record. */
  ghost predicate OperationStands(db: Db) { TaskMigrations in db && db[TaskMigrations].rows.Keys != {} }

  lemma StandingIs(db: Db)
    requires Schema(db)
    ensures Operations(db) != map[] <==> OperationStands(db)
    ensures StateOf(db) == Absent <==> TaskMigrations !in db
    ensures StateOf(db) == Absent ==> !OperationStands(db)
  {
    if TaskMigrations in db && db[TaskMigrations].rows.Keys == {} { assert db[TaskMigrations].rows == map[]; }
  }

  /** One attempt at the downgrade. A gate a crash left behind is taken up where it stands, and then
      neither emptiness query, nor the gate, nor the closing inspection can refuse. */
  method Downgrade(s: Server) returns (r: Result)
    requires s.Valid() && Schema(s.db)
    modifies s
    ensures s.Valid() && Schema(s.db) && s.origin == old(s.origin)
    ensures s.deaths == old(s.deaths) + if r == Crash then 1 else 0
    ensures old(s.events) <= s.events && forall k | |old(s.events)| <= k < |s.events| :: Issued(s.events[k])
    ensures r in {Done, Crash, AlterRejected, NotEmpty}
    ensures r == Done ==> StateOf(s.db) == Absent && TaskMigrations !in s.db
    ensures r in {AlterRejected, NotEmpty} ==> old(StateOf(s.db)) == Canonical && OperationStands(s.db)
    ensures r == NotEmpty <==> old(OperationStands(s.db))
    ensures r == NotEmpty ==> s.events == old(s.events)
  {
    hide ValidDb, Leads, Issued, IssuedOn, StateOf, Schema, Operations, OperationStands;
    StandingIs(s.db);
    var state := StateOf(s.db);
    if state == Absent { return Done; }
    if state == CanonicalGated { FencedIsEmpty(s.db); }
    if Operations(s.db) != map[] { return NotEmpty; }
    IssuedFrom(s.db);
    if state == Canonical {
      var o := Issue(s, InstallGate);
      if o != Committed {
        StandingIs(s.db);
        return Halt(o);
      }
      state := StateOf(s.db);
    }
    if state != CanonicalGated { return Incomplete; }
    FencedIsEmpty(s.db);
    IssuedFrom(s.db);
    if Operations(s.db) != map[] { return NotEmpty; }
    var o := Issue(s, DropTable);
    if o != Committed { return Halt(o); }
    StandingIs(s.db);
    if StateOf(s.db) != Absent { return Incomplete; }
    r := Done;
  }
}
