/** The rows of task_migration_operations: the CHECK constraints in three-valued logic, and the slot
    that makes an operation the exclusive owner of a Task's migration. */
module MigrationOperations {
  import opened ThreeValued
  import opened HexText

  datatype Side = Manager | Worker | OtherSide(text: string)

  datatype Phase =
    | Claimed | RemotePrepared | RollbackPending | CommittedPendingAck | Prepared | Committed | RolledBack
    | OtherPhase(text: string)

  datatype Operation = Operation(
    operationId: string, sequence: int, side: Side, activeTaskId: Nullable<int>, taskId: int, incarnationId: string,
    retryCount: int, turnGeneration: int, sourceWorkerId: Nullable<int>, targetWorkerId: Nullable<int>,
    sourceStatus: string, phase: Phase, instanceId: Nullable<int>)

  const MANAGER_ACTIVE: set<Phase> := {Claimed, RemotePrepared, RollbackPending, CommittedPendingAck}
  const ACTIVE: set<Phase> := {Claimed, RemotePrepared, RollbackPending, CommittedPendingAck, Prepared}
  const TERMINAL: set<Phase> := {Committed, RolledBack}

  datatype Check =
    | OperationIdHex | IncarnationHex | PhaseCheck | ActiveSlot | Generation | Identity | SourceStatus | Route | SidePhase

  function PhaseIn(o: Operation, phases: set<Phase>): Truth { Of(o.phase in phases) }

  function Positive(a: Nullable<int>): Truth { Or(IsNull(a), Above(a, 0)) }

  function Value(k: Check, o: Operation): Truth {
    match k
    case OperationIdHex => HexCheck(Is(o.operationId), 32)
    case IncarnationHex => HexCheck(Is(o.incarnationId), 32)
    case PhaseCheck => PhaseIn(o, ACTIVE + TERMINAL)
    case ActiveSlot =>
      Or(And(PhaseIn(o, ACTIVE), And(IsNotNull(o.activeTaskId), Eq(o.activeTaskId, Is(o.taskId)))),
         And(PhaseIn(o, TERMINAL), IsNull(o.activeTaskId)))
    case Generation => And(Of(o.sequence > 0), And(Of(o.retryCount >= 0), Of(o.turnGeneration >= 0)))
    case Identity =>
      And(And(Of(o.taskId > 0), Positive(o.instanceId)), And(Positive(o.sourceWorkerId), Positive(o.targetWorkerId)))
    case SourceStatus => Of(o.sourceStatus in {"cancelled", "completed", "conflict", "failed", "plan_review"})
    case Route =>
      Or(And(Of(o.side == Worker), And(IsNull(o.sourceWorkerId), IsNull(o.targetWorkerId))),
         And(Of(o.side == Manager),
             Or(And(IsNull(o.sourceWorkerId), IsNotNull(o.targetWorkerId)),
             Or(And(IsNotNull(o.sourceWorkerId), IsNull(o.targetWorkerId)),
                And(And(IsNotNull(o.sourceWorkerId), IsNotNull(o.targetWorkerId)),
                    Ne(o.sourceWorkerId, o.targetWorkerId))))))
    case SidePhase =>
      Or(And(Of(o.side == Manager), PhaseIn(o, MANAGER_ACTIVE + TERMINAL)),
         And(Of(o.side == Worker), PhaseIn(o, {Prepared} + TERMINAL)))
  }

  predicate Admitted(o: Operation) { forall k: Check :: Admits(Value(k, o)) }

  /** No CHECK of the table is ever UNKNOWN. */
  lemma NoCheckIsUnknown(k: Check, o: Operation)
    ensures Value(k, o) != Unknown
  {
    HexCheckIff(Is(o.operationId), 32);
    HexCheckIff(Is(o.incarnationId), 32);
    hide HexCheck;
  }

  /** On the manager side a route has a source or a target, and two different ones if both. */
  predicate HasRoute(o: Operation) {
    if o.side == Worker then o.sourceWorkerId.Null? && o.targetWorkerId.Null?
    else o.side == Manager && o.sourceWorkerId != o.targetWorkerId
  }

  predicate SideAllows(o: Operation) {
    || o.phase in {Committed, RolledBack}
    || (if o.side == Worker then o.phase == Prepared
        else o.phase in {Claimed, RemotePrepared, RollbackPending, CommittedPendingAck})
  }

  predicate NullOrPositive(a: Nullable<int>) { a.Is? ==> a.value > 0 }

  predicate Lawful(o: Operation) {
    && |o.operationId| == 32 && AllHex(o.operationId) && |o.incarnationId| == 32 && AllHex(o.incarnationId)
    && HasRoute(o) && SideAllows(o)
    && o.activeTaskId == (if o.phase in {Committed, RolledBack} then Null else Is(o.taskId))
    && o.sequence > 0 && o.retryCount >= 0 && o.turnGeneration >= 0
    && o.taskId > 0 && NullOrPositive(o.instanceId) && NullOrPositive(o.sourceWorkerId) && NullOrPositive(o.targetWorkerId)
    && o.sourceStatus in {"cancelled", "completed", "conflict", "failed", "plan_review"}
  }

  lemma RouteMeans(o: Operation)
    ensures Admits(Value(Route, o)) <==> HasRoute(o)
  {
  }

  lemma SlotMeans(o: Operation)
    requires HasRoute(o)
    ensures Admits(Value(SidePhase, o)) <==> SideAllows(o)
    ensures SideAllows(o) ==>
      (Admits(Value(ActiveSlot, o)) <==> o.activeTaskId == (if o.phase in {Committed, RolledBack} then Null else Is(o.taskId)))
    ensures SideAllows(o) ==> Admits(Value(PhaseCheck, o))
  {
  }

  lemma IdentityMeans(o: Operation)
    ensures Admits(Value(Identity, o)) <==>
            o.taskId > 0 && NullOrPositive(o.instanceId) && NullOrPositive(o.sourceWorkerId) && NullOrPositive(o.targetWorkerId)
  {
  }

  /** The nine CHECKs admit exactly the lawful operations. */
  lemma AdmittedIffLawful(o: Operation)
    ensures Admitted(o) <==> Lawful(o)
  {
    RouteMeans(o);
    if HasRoute(o) { SlotMeans(o); }
    IdentityMeans(o);
    HexCheckIff(Is(o.operationId), 32);
    HexCheckIff(Is(o.incarnationId), 32);
    hide HasRoute, SideAllows, NullOrPositive, AllHex, HexCheck;
    OnlyThese(o);
  }

  lemma OnlyThese(o: Operation)
    ensures Admitted(o) <==>
            && Admits(Value(OperationIdHex, o)) && Admits(Value(IncarnationHex, o)) && Admits(Value(PhaseCheck, o))
            && Admits(Value(ActiveSlot, o)) && Admits(Value(Generation, o)) && Admits(Value(Identity, o))
            && Admits(Value(SourceStatus, o)) && Admits(Value(Route, o)) && Admits(Value(SidePhase, o))
  {
    hide And, Or, Not, Admits, HexCheck, Positive, PhaseIn;
    if Admitted(o) {
      assert Admits(Value(OperationIdHex, o)) && Admits(Value(IncarnationHex, o)) && Admits(Value(PhaseCheck, o));
      assert Admits(Value(ActiveSlot, o)) && Admits(Value(Generation, o)) && Admits(Value(Identity, o));
      assert Admits(Value(SourceStatus, o)) && Admits(Value(Route, o)) && Admits(Value(SidePhase, o));
    }
  }

  // ---- The slot over histories ----

  predicate Table(rows: map<nat, Operation>) {
    && (forall i | i in rows :: Admitted(rows[i]))
    && (forall i, j | i in rows && j in rows && i != j ::
          && Eq(rows[i].activeTaskId, rows[j].activeTaskId) != True
          && rows[i].operationId != rows[j].operationId
          && !(rows[i].taskId == rows[j].taskId && rows[i].sequence == rows[j].sequence))
  }

  /** What the keys refuse: two operations with one id, in one Task's slot, or with one number in a Task. */
  lemma TableMeans(rows: map<nat, Operation>)
    ensures Table(rows) <==>
            && (forall i | i in rows :: Lawful(rows[i]))
            && (forall i, j | i in rows && j in rows && i != j ::
                  && rows[i].operationId != rows[j].operationId
                  && (rows[i].activeTaskId.Is? ==> rows[i].activeTaskId != rows[j].activeTaskId)
                  && (rows[i].taskId == rows[j].taskId ==> rows[i].sequence != rows[j].sequence))
  {
    hide Admitted, Lawful;
    forall i | i in rows ensures Admitted(rows[i]) <==> Lawful(rows[i]) { AdmittedIffLawful(rows[i]); }
  }

  /** The rows after a history of attempted writes, of which the server takes only those that keep
      every constraint. */
  function AfterWrites(rows: map<nat, Operation>, writes: seq<map<nat, Operation>>): map<nat, Operation> {
    if writes == [] then rows
    else
      var before := AfterWrites(rows, writes[..|writes| - 1]);
      if Table(writes[|writes| - 1]) then writes[|writes| - 1] else before
  }

  lemma {:induction false} WritesKeepTable(rows: map<nat, Operation>, writes: seq<map<nat, Operation>>)
    requires Table(rows)
    ensures Table(AfterWrites(rows, writes))
  {
    hide Table;
    if writes != [] { WritesKeepTable(rows, writes[..|writes| - 1]); }
  }

  /** Over any history of writes a Task has at most one migration in flight. */
  lemma OneMigrationInFlight(rows: map<nat, Operation>, writes: seq<map<nat, Operation>>, i: nat, j: nat)
    requires Table(rows) && i in AfterWrites(rows, writes) && j in AfterWrites(rows, writes)
    requires AfterWrites(rows, writes)[i].taskId == AfterWrites(rows, writes)[j].taskId
    requires AfterWrites(rows, writes)[i].phase !in {Committed, RolledBack}
    requires AfterWrites(rows, writes)[j].phase !in {Committed, RolledBack}
    ensures i == j
  {
    hide Admitted, Lawful, AfterWrites;
    WritesKeepTable(rows, writes);
    ActiveOwnsSlot(AfterWrites(rows, writes)[i]);
    ActiveOwnsSlot(AfterWrites(rows, writes)[j]);
  }

  lemma ActiveOwnsSlot(o: Operation)
    requires Admitted(o) && o.phase !in {Committed, RolledBack}
    ensures o.activeTaskId == Is(o.taskId)
  {
    AdmittedIffLawful(o);
    hide Admitted, AllHex;
  }
}
