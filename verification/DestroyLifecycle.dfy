/** alembic/versions/b4e1c7d9f203_add_worker_destroy_lifecycle_nonce.py on a MySQL-family server. */
module DestroyLifecycle {
  import opened ThreeValued
  import opened Relational
  import opened MySql

  const MANAGED: set<Column> := {DestroyNonce, TerminationReceipt}

  /** What `_column_state` distinguishes. */
  datatype State = Absent | NonceOnly | ReceiptOnly | Canonical | CanonicalGated

  predicate WorkersSchema(t: Table) {
    && {Status, BootstrapStep} <= t.columns && t.required <= t.columns - MANAGED && t.keys == {}
    && t.checks <= {DestroyGate} && (DestroyGate in t.checks ==> MANAGED <= t.columns)
  }

  predicate Schema(db: Db) { db.Keys == {Workers} && WorkersSchema(db[Workers]) }

  function StateOf(t: Table): State {
    if DestroyGate in t.checks then CanonicalGated
    else if DestroyNonce in t.columns then if TerminationReceipt in t.columns then Canonical else NonceOnly
    else if TerminationReceipt in t.columns then ReceiptOnly else Absent
  }

  // ---- The gate and the query it stands for ----

  /** The WHERE clause of the downgrade's blocker query. */
  function Blocker(r: Row): Truth {
    Or(IsNotNull(At(r, DestroyNonce)),
    Or(IsNotNull(At(r, TerminationReceipt)),
    Or(TextIs(At(r, Status), "destroying"),
       TextIs(At(r, BootstrapStep), "destroy"))))
  }

  /** The gate admits a row exactly when the row has a status and the query does not select it. */
  lemma GateAdmitsUnblocked(r: Row)
    ensures Admits(Evaluate(DestroyGate, r)) <==> At(r, Status).Is? && !Selects(Blocker(r))
  {
  }

  predicate HasBlocker(t: Table) { exists i | i in t.rows :: Selects(Blocker(t.rows[i])) }

  /** A worker without a status, which the gate refuses and the query does not select for it. */
  predicate HasUnknownStatus(t: Table) { exists i | i in t.rows :: At(t.rows[i], Status).Null? }

  const InstallGate := NoChange.(addChecks := {DestroyGate})
  const RemoveColumns := NoChange.(dropChecks := {DestroyGate}, dropColumns := MANAGED)

  function AddColumn(c: Column): Change { NoChange.(addColumns := {c}) }

  /** The gate can be installed just when the query finds nothing and every worker has a status. */
  lemma GateMeetsUnblocked(t: Table)
    ensures RowsMeet(t, InstallGate) <==> !HasBlocker(t) && !HasUnknownStatus(t)
  {
    hide Evaluate, Blocker;
    forall i | i in t.rows
      ensures Admits(Evaluate(DestroyGate, t.rows[i])) <==> At(t.rows[i], Status).Is? && !Selects(Blocker(t.rows[i]))
    {
      GateAdmitsUnblocked(t.rows[i]);
    }
  }

  /** With a status on every row, as the column's NOT NULL demands, the preflight is exact: the gate
      can be installed just when the query finds nothing. */
  lemma PreflightDecidesGate(t: Table)
    requires WorkersSchema(t) && Valid(t) && StateOf(t) == Canonical && Status in t.required
    ensures Valid(Altered(t, InstallGate)) <==> !HasBlocker(t)
  {
    hide Evaluate, Blocker, RowsMeet;
    assert Accepts(t, InstallGate);
    AlterCommits(t, InstallGate);
    GateMeetsUnblocked(t);
    forall i | i in t.rows ensures At(t.rows[i], Status).Is? { assert Fits(t, t.rows[i]); }
  }

  // ---- Statements ----

  function NextUpgrade(t: Table): Nullable<Change> {
    match StateOf(t)
    case Absent => Is(AddColumn(DestroyNonce))
    case ReceiptOnly => Is(AddColumn(DestroyNonce))
    case NonceOnly => Is(AddColumn(TerminationReceipt))
    case _ => Null
  }

  function NextDowngrade(t: Table): Nullable<Change> {
    match StateOf(t)
    case Canonical => Is(InstallGate)
    case CanonicalGated => Is(RemoveColumns)
    case _ => Null
  }

  lemma ChangeStep(t: Table, ch: Change)
    requires WorkersSchema(t) && (NextUpgrade(t) == Is(ch) || NextDowngrade(t) == Is(ch))
    ensures Accepts(t, ch) && WorkersSchema(Altered(t, ch))
  {
  }

  /** No row goes and no value that was set, destroy nonces and receipts included. */
  ghost predicate LosesNothing(a: Db, b: Db)
    requires Schema(a) && Schema(b)
  {
    && a[Workers].rows.Keys == b[Workers].rows.Keys
    && forall i | i in a[Workers].rows :: RowKeeps(a[Workers].rows[i], b[Workers].rows[i], {})
  }

  lemma ChangeLosesNothing(t: Table, ch: Change, i: nat)
    requires WorkersSchema(t) && Valid(t) && i in t.rows
    requires NextUpgrade(t) == Is(ch) || NextDowngrade(t) == Is(ch)
    ensures RowKeeps(t.rows[i], Altered(t, ch).rows[i], {})
  {
    hide Valid, Fits, Evaluate, Altered;
    AlterKeepsRows(t, ch, i);
    if StateOf(t) == CanonicalGated { GatedRow(t, i); }
  }

  lemma GatedRow(t: Table, i: nat)
    requires Valid(t) && i in t.rows && DestroyGate in t.checks
    ensures At(t.rows[i], DestroyNonce).Null? && At(t.rows[i], TerminationReceipt).Null?
  {
    assert Fits(t, t.rows[i]);
    GateAdmitsUnblocked(t.rows[i]);
  }

  // ---- Runs ----

  predicate IssuedOn(t: Table, ch: Change) { NextUpgrade(t) == Is(ch) || NextDowngrade(t) == Is(ch) }

  ghost predicate Issued(e: Event) {
    e.Ran? ==>
      && Schema(e.before) && e.statement.Alter? && e.statement.table == Workers
      && IssuedOn(e.before[Workers], e.statement.change)
  }

  ghost predicate SafeEvent(e: Event) {
    Schema(e.before) && Schema(e.after) && (e.Ran? ==> LosesNothing(e.before, e.after))
  }

  lemma EventIsSafe(e: Event)
    requires Happened(e) && Schema(e.before) && ValidDb(e.before) && Issued(e)
    ensures SafeEvent(e) && Schema(e.after) && ValidDb(e.after)
  {
    match e
    case Wrote(a, b) => assert SameSchema(a[Workers], b[Workers]);
    case Ran(a, s, b) =>
      ChangeStep(a[Workers], s.change);
      forall i | i in a[Workers].rows { ChangeLosesNothing(a[Workers], s.change, i); }
  }

  /** In any interleaving of writers, crashes and re-runs no destroy nonce, receipt or worker is lost
      between a check and the drop. */
  lemma RunLosesNothing(from: Db, events: seq<Event>, to: Db)
    requires Leads(from, events, to) && Schema(from) && ValidDb(from)
    requires forall k | 0 <= k < |events| :: Issued(events[k])
    ensures Schema(to) && ValidDb(to)
    ensures forall k | 0 <= k < |events| :: SafeEvent(events[k])
  {
    hide Happened, Leads, SafeEvent, Issued, Schema, ValidDb;
    forall e: Event | Happened(e) && Schema(e.before) && ValidDb(e.before) && (Issued(e))
      ensures SafeEvent(e) && Schema(e.after) && ValidDb(e.after)
    {
      EventIsSafe(e);
    }
    RunInvariant(db => Schema(db) && ValidDb(db), e => Issued(e), e => SafeEvent(e), from, events, to);
  }

  // ---- The script ----

  datatype Result = Done | Crash | AlterRejected | Blocked | Fenced | PartialColumns | Incomplete

  function Halt(o: Outcome): Result { if o == Crashed then Crash else AlterRejected }

  lemma SchemaShared(a: Db, b: Db, ch: Change)
    requires SameSchemas(a, b) && Schema(a)
    ensures Schema(b) && StateOf(b[Workers]) == StateOf(a[Workers])
    ensures IssuedOn(a[Workers], ch) ==> IssuedOn(b[Workers], ch)
  {
    assert SameSchema(a[Workers], b[Workers]);
  }

  lemma RejectedIsGate(db: Db, ch: Change)
    requires Schema(db) && ValidDb(db) && IssuedOn(db[Workers], ch)
    requires Applicable(db, Alter(Workers, ch)) && !Commits(db, Alter(Workers, ch))
    ensures StateOf(db[Workers]) == Canonical && (HasBlocker(db[Workers]) || HasUnknownStatus(db[Workers]))
  {
    hide Valid, Accepts, Altered, Evaluate, WorkersSchema, Blocker;
    StatementDecides(db, Alter(Workers, ch));
    GateMeetsUnblocked(db[Workers]);
  }

  method Issue(s: Server, ch: Change) returns (o: Outcome)
    requires s.Valid() && Schema(s.db)
    requires IssuedOn(s.db[Workers], ch)
    modifies s
    ensures s.Valid() && Schema(s.db) && s.origin == old(s.origin)
    ensures s.deaths == old(s.deaths) + if o == Crashed then 1 else 0
    ensures old(s.events) <= s.events && forall k | |old(s.events)| <= k < |s.events| :: Issued(s.events[k])
    ensures o == Committed ==> Became(old(s.db), Alter(Workers, ch), s.db)
    ensures o == Rejected ==> old(StateOf(s.db[Workers])) == Canonical
    ensures o == Rejected ==> HasBlocker(s.db[Workers]) || HasUnknownStatus(s.db[Workers])
  {
    var st := Alter(Workers, ch);
    ChangeStep(s.db[Workers], ch);
    o := s.Execute(st);
    hide WorkersSchema, Valid, IssuedOn, StateOf, Accepts, HasBlocker, HasUnknownStatus;
    forall k | |old(s.events)| <= k < |s.events|
      ensures Issued(s.events[k])
    {
      if s.events[k].Ran? { SchemaShared(old(s.db), s.events[k].before, ch); }
    }
    if SameSchemas(old(s.db), s.db) { SchemaShared(old(s.db), s.db, ch); }
    else { SchemaShared(Effect(old(s.db), st), s.db, ch); }
    if o == Committed { EffectBecomes(old(s.db), st, s.db); }
    if o == Rejected { RejectedIsGate(s.db, ch); }
  }

  /** One attempt at the upgrade: from any partial column set it ends on both columns or by a crash. */
  method Upgrade(s: Server) returns (r: Result)
    requires s.Valid() && Schema(s.db)
    modifies s
    ensures s.Valid() && Schema(s.db) && s.origin == old(s.origin)
    ensures s.deaths == old(s.deaths) + if r == Crash then 1 else 0
    ensures old(s.events) <= s.events && forall k | |old(s.events)| <= k < |s.events| :: Issued(s.events[k])
    ensures r in {Done, Crash, Fenced}
    ensures r == Done ==> StateOf(s.db[Workers]) == Canonical
    ensures r == Done ==> {DestroyNonce, TerminationReceipt} <= s.db[Workers].columns && DestroyGate !in s.db[Workers].checks
    ensures r == Fenced <==> old(DestroyGate in s.db[Workers].checks)
  {
    hide ValidDb, Leads, Issued;
    var state := StateOf(s.db[Workers]);
    if state == CanonicalGated { return Fenced; }
    if state in {Absent, ReceiptOnly} {
      var o := Issue(s, AddColumn(DestroyNonce));
      if o != Committed { return Halt(o); }
    }
    if state in {Absent, NonceOnly} {
      var o := Issue(s, AddColumn(TerminationReceipt));
      if o != Committed { return Halt(o); }
    }
    if StateOf(s.db[Workers]) != Canonical { return Incomplete; }
    r := Done;
  }

  /** Behind the gate the second run of the query finds nothing. */
  lemma GatedHasNoBlocker(t: Table)
    requires Valid(t) && DestroyGate in t.checks
    ensures !HasBlocker(t)
  {
    forall i | i in t.rows ensures !Selects(Blocker(t.rows[i])) {
      assert Fits(t, t.rows[i]);
      GateAdmitsUnblocked(t.rows[i]);
    }
  }

  /** A worker has a destroy nonce or a receipt, or is being destroyed. */
  ghost predicate DestroyStands(t: Table) {
    exists i | i in t.rows ::
      || At(t.rows[i], DestroyNonce).Is? || At(t.rows[i], TerminationReceipt).Is?
      || At(t.rows[i], Status) == Is(Text("destroying")) || At(t.rows[i], BootstrapStep) == Is(Text("destroy"))
  }

  /** The blocker query selects exactly these workers. */
  lemma BlockersAre(t: Table)
    ensures HasBlocker(t) <==> DestroyStands(t)
  {
    hide At;
  }

  /** One attempt at the downgrade, from the two columns, the gate a crash left, or nothing at all. It is
      rejected only with a row in the way, and never behind the gate. */
  method Downgrade(s: Server) returns (r: Result)
    requires s.Valid() && Schema(s.db)
    modifies s
    ensures s.Valid() && Schema(s.db) && s.origin == old(s.origin)
    ensures s.deaths == old(s.deaths) + if r == Crash then 1 else 0
    ensures old(s.events) <= s.events && forall k | |old(s.events)| <= k < |s.events| :: Issued(s.events[k])
    ensures r in {Done, Crash, AlterRejected, Blocked, PartialColumns}
    ensures r == Done ==> StateOf(s.db[Workers]) == Absent
    ensures r == Done ==> {DestroyNonce, TerminationReceipt} !! s.db[Workers].columns && DestroyGate !in s.db[Workers].checks
    ensures r == PartialColumns <==>
              old((DestroyNonce in s.db[Workers].columns) != (TerminationReceipt in s.db[Workers].columns))
    ensures r == Blocked <==>
              old({DestroyNonce, TerminationReceipt} <= s.db[Workers].columns && DestroyStands(s.db[Workers]))
    ensures r == Blocked ==> s.events == old(s.events)
    ensures r in {AlterRejected, Blocked} ==> old(StateOf(s.db[Workers])) == Canonical
    ensures r == AlterRejected ==> DestroyStands(s.db[Workers]) || HasUnknownStatus(s.db[Workers])
  {
    hide Leads, Issued, Evaluate, HasBlocker, DestroyStands, HasUnknownStatus;
    BlockersAre(s.db[Workers]);
    var state := StateOf(s.db[Workers]);
    if state == Absent { return Done; }
    if state in {NonceOnly, ReceiptOnly} { return PartialColumns; }
    if state == CanonicalGated { GatedHasNoBlocker(s.db[Workers]); }
    if HasBlocker(s.db[Workers]) { return Blocked; }
    if state == Canonical {
      var o := Issue(s, InstallGate);
      if o != Committed {
        BlockersAre(s.db[Workers]);
        return Halt(o);
      }
      state := StateOf(s.db[Workers]);
    }
    if state != CanonicalGated { return Incomplete; }
    r := RemoveGated(s);
  }

  /** The second query and the ALTER, both behind the gate. */
  method RemoveGated(s: Server) returns (r: Result)
    requires s.Valid() && Schema(s.db) && StateOf(s.db[Workers]) == CanonicalGated
    modifies s
    ensures s.Valid() && Schema(s.db) && s.origin == old(s.origin)
    ensures s.deaths == old(s.deaths) + if r == Crash then 1 else 0
    ensures old(s.events) <= s.events && forall k | |old(s.events)| <= k < |s.events| :: Issued(s.events[k])
    ensures r in {Done, Crash}
    ensures r == Done ==> StateOf(s.db[Workers]) == Absent
  {
    hide Leads, Issued, Evaluate, Blocker;
    GatedHasNoBlocker(s.db[Workers]);
    if HasBlocker(s.db[Workers]) { return Blocked; }
    var o := Issue(s, RemoveColumns);
    if o != Committed { return Halt(o); }
    if StateOf(s.db[Workers]) != Absent { return Incomplete; }
    r := Done;
  }
}
