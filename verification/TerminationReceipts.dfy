/** The CHECK constraints of worker_task_termination_receipts, evaluated in SQL's three-valued logic.
    NOT NULL columns carry plain values; a text outside a CHECK's vocabulary is `Other`. */
module TerminationReceipts {
  import opened ThreeValued

  datatype Side = Manager | Worker | OtherSide(text: string)

  datatype Status =
    | PendingRemote | AwaitingAck | Settled | Rejected | Conflict
    | Accepted | Executing | Succeeded | Acknowledged | OtherStatus(text: string)

  datatype Handoff = Handoff(
    id: Nullable<string>, workerId: Nullable<int>, retryCount: Nullable<int>,
    fromGeneration: Nullable<int>, sourceLogId: Nullable<int>, acknowledged: Nullable<int>)

  /** One receipt; times are instants on one axis. */
  datatype Receipt = Receipt(
    operationId: string, taskId: int, activeTaskId: Nullable<int>, side: Side, workerId: Nullable<int>,
    operation: string, status: Status, stateVersion: int, executionToken: Nullable<string>,
    sourceStatus: string, sourceRetryCount: int, sourceGeneration: int,
    sourceLogId: Nullable<int>, sourceInstanceId: Nullable<int>, handoff: Handoff,
    requestDigest: string, resultPayload: Nullable<string>, resultDigest: Nullable<string>,
    attemptCount: int, reconcileCount: int, nextReconcileAt: Nullable<int>,
    acceptedAt: Nullable<int>, completedAt: Nullable<int>, ackIntentAt: Nullable<int>, acknowledgedAt: Nullable<int>)

  datatype Check =
    | OperationIdCheck | SideCheck | OperationCheck | StatusCheck | SideShape | ActiveSlot
    | SourceGeneration | SourceStatusCheck | HandoffShape | RequestDigest | ResultPair | ResultStatus
    | Counters | ExecutionOwner | AcceptedAtCheck | CompletedAtCheck | AcknowledgedAtCheck | AckIntent | Timeline

  function Both(a: Truth, b: Truth, c: Truth): Truth { And(a, And(b, c)) }

  function OrNull(a: Nullable<int>, t: Truth): Truth { Or(IsNull(a), t) }

  // ---- The expressions, as installed ----

  function SideIs(r: Receipt, s: Side): Truth { Of(r.side == s) }

  function StatusIn(r: Receipt, values: set<Status>): Truth { Of(r.status in values) }

  function SideShapeValue(r: Receipt): Truth {
    Or(Both(SideIs(r, Manager), And(IsNotNull(r.workerId), Above(r.workerId, 0)),
            StatusIn(r, {PendingRemote, AwaitingAck, Settled, Rejected, Conflict})),
       Both(SideIs(r, Worker), IsNull(r.workerId),
            StatusIn(r, {Accepted, Executing, Succeeded, Acknowledged, Rejected, Conflict})))
  }

  const MANAGER_OPEN: set<Status> := {PendingRemote, AwaitingAck, Conflict}
  const WORKER_OPEN: set<Status> := {Accepted, Executing, Succeeded, Rejected, Conflict}

  function ActiveSlotValue(r: Receipt): Truth {
    Or(Both(Or(And(SideIs(r, Manager), StatusIn(r, MANAGER_OPEN)), And(SideIs(r, Worker), StatusIn(r, WORKER_OPEN))),
            IsNotNull(r.activeTaskId), Eq(r.activeTaskId, Is(r.taskId))),
       And(Or(And(SideIs(r, Manager), Not(StatusIn(r, MANAGER_OPEN))),
              And(SideIs(r, Worker), Not(StatusIn(r, WORKER_OPEN)))),
           IsNull(r.activeTaskId)))
  }

  function HandoffValue(h: Handoff): Truth {
    Or(And(Both(IsNull(h.id), IsNull(h.workerId), IsNull(h.retryCount)),
           Both(IsNull(h.fromGeneration), IsNull(h.sourceLogId), IsNull(h.acknowledged))),
       And(Both(And(IsNotNull(h.id), LengthIs(h.id, 32)),
                And(IsNotNull(h.workerId), Above(h.workerId, 0)),
                And(IsNotNull(h.retryCount), AtLeast(h.retryCount, Is(0)))),
           Both(And(IsNotNull(h.fromGeneration), AtLeast(h.fromGeneration, Is(0))),
                And(IsNotNull(h.sourceLogId), Above(h.sourceLogId, 0)),
                And(IsNotNull(h.acknowledged), In(h.acknowledged, {1, 0})))))
  }

  function ResultPairValue(r: Receipt): Truth {
    Or(And(IsNull(r.resultPayload), IsNull(r.resultDigest)),
       Both(IsNotNull(r.resultPayload), IsNotNull(r.resultDigest), LengthIs(r.resultDigest, 64)))
  }

  function ResultStatusValue(r: Receipt): Truth {
    Or(And(StatusIn(r, {AwaitingAck, Settled, Rejected, Succeeded, Acknowledged}), IsNotNull(r.resultPayload)),
    Or(And(StatusIn(r, {PendingRemote, Accepted, Executing}), IsNull(r.resultPayload)),
       StatusIn(r, {Conflict})))
  }

  function ExecutionOwnerValue(r: Receipt): Truth {
    Or(And(SideIs(r, Manager), IsNull(r.executionToken)),
       And(SideIs(r, Worker),
           Or(And(Both(StatusIn(r, {Executing}), IsNotNull(r.executionToken), LengthIs(r.executionToken, 32)),
                  IsNotNull(r.nextReconcileAt)),
              And(Not(StatusIn(r, {Executing})), IsNull(r.executionToken)))))
  }

  function AcceptedAtValue(r: Receipt): Truth {
    Or(And(StatusIn(r, {AwaitingAck, Settled, Accepted, Executing, Succeeded, Acknowledged, Rejected}),
           IsNotNull(r.acceptedAt)),
    Or(And(StatusIn(r, {PendingRemote}), IsNull(r.acceptedAt)),
       StatusIn(r, {Conflict})))
  }

  function CompletedAtValue(r: Receipt): Truth {
    Or(And(StatusIn(r, {AwaitingAck, Settled, Succeeded, Acknowledged, Rejected}), IsNotNull(r.completedAt)),
    Or(And(StatusIn(r, {PendingRemote, Accepted, Executing}), IsNull(r.completedAt)),
       StatusIn(r, {Conflict})))
  }

  function AcknowledgedAtValue(r: Receipt): Truth {
    Or(And(Or(StatusIn(r, {Settled, Acknowledged}), And(SideIs(r, Manager), StatusIn(r, {Rejected}))),
           IsNotNull(r.acknowledgedAt)),
       And(And(Not(StatusIn(r, {Settled, Acknowledged})), Not(And(SideIs(r, Manager), StatusIn(r, {Rejected})))),
           IsNull(r.acknowledgedAt)))
  }

  function AckIntentValue(r: Receipt): Truth {
    Or(And(SideIs(r, Worker), IsNull(r.ackIntentAt)),
       And(SideIs(r, Manager),
           Or(And(StatusIn(r, {PendingRemote}), IsNull(r.ackIntentAt)),
           Or(StatusIn(r, {AwaitingAck, Conflict}),
              And(StatusIn(r, {Settled, Rejected}), IsNotNull(r.ackIntentAt))))))
  }

  function TimelineValue(r: Receipt): Truth {
    Both(OrNull(r.completedAt, OrNull(r.acceptedAt, AtLeast(r.completedAt, r.acceptedAt))),
         OrNull(r.ackIntentAt, And(IsNotNull(r.completedAt), AtLeast(r.ackIntentAt, r.completedAt))),
         OrNull(r.acknowledgedAt,
                Both(IsNotNull(r.completedAt), AtLeast(r.acknowledgedAt, r.completedAt),
                     OrNull(r.ackIntentAt, AtLeast(r.acknowledgedAt, r.ackIntentAt)))))
  }

  function Value(k: Check, r: Receipt): Truth {
    match k
    case OperationIdCheck => Of(|r.operationId| == 32)
    case SideCheck => Of(r.side in {Manager, Worker})
    case OperationCheck => Of(r.operation in {"cancel", "stop_session", "supersede"})
    case StatusCheck => Of(!r.status.OtherStatus?)
    case SideShape => SideShapeValue(r)
    case ActiveSlot => ActiveSlotValue(r)
    case SourceGeneration =>
      And(Both(Of(r.sourceRetryCount >= 0), Of(r.sourceGeneration >= 0), OrNull(r.sourceLogId, Above(r.sourceLogId, 0))),
          OrNull(r.sourceInstanceId, Above(r.sourceInstanceId, 0)))
    case SourceStatusCheck =>
      Of(r.sourceStatus in {"pending", "in_progress", "executing", "plan_review", "merging", "migrating",
                            "completed", "failed", "cancelled", "conflict"})
    case HandoffShape => HandoffValue(r.handoff)
    case RequestDigest => Of(|r.requestDigest| == 64)
    case ResultPair => ResultPairValue(r)
    case ResultStatus => ResultStatusValue(r)
    case Counters => Both(Of(r.stateVersion >= 1), Of(r.attemptCount >= 0), Of(r.reconcileCount >= 0))
    case ExecutionOwner => ExecutionOwnerValue(r)
    case AcceptedAtCheck => AcceptedAtValue(r)
    case CompletedAtCheck => CompletedAtValue(r)
    case AcknowledgedAtCheck => AcknowledgedAtValue(r)
    case AckIntent => AckIntentValue(r)
    case Timeline => TimelineValue(r)
  }

  /** With the NOT NULL columns set, no CHECK on a receipt is ever UNKNOWN: none of them admits a row by
      leaving a comparison with NULL undecided. */
  lemma NoCheckIsUnknown(k: Check, r: Receipt)
    ensures Value(k, r) != Unknown
  {
    match k
    case SideShape => SideShapeIsDecided(r);
    case ActiveSlot =>
    case HandoffShape => HandoffIsDecided(r.handoff);
    case Timeline => TimelineIsDecided(r);
    case _ =>
  }

  lemma SideShapeIsDecided(r: Receipt)
    ensures SideShapeValue(r) != Unknown
  {
  }

  lemma HandoffIsDecided(h: Handoff)
    ensures HandoffValue(h) != Unknown
  {
  }

  lemma TimelineIsDecided(r: Receipt)
    ensures TimelineValue(r) != Unknown
  {
  }

  predicate Admitted(r: Receipt) { forall k: Check :: Admits(Value(k, r)) }

  // ---- The state machine the CHECKs spell out ----

  datatype Need = Must | MustNot | May

  predicate Met<T>(n: Need, a: Nullable<T>) { (n == Must ==> a.Is?) && (n == MustNot ==> a.Null?) }

  /** What a stage needs of: the active slot, the result, the execution token, and the four instants. */
  datatype Needs = Needs(active: Need, result: Need, token: Need, accepted: Need, completed: Need, intent: Need, acked: Need)

  function NeedsOf(side: Side, status: Status): Nullable<Needs> {
    match (side, status)
    case (Manager, PendingRemote) => Is(Needs(Must, MustNot, MustNot, MustNot, MustNot, MustNot, MustNot))
    case (Manager, AwaitingAck) => Is(Needs(Must, Must, MustNot, Must, Must, May, MustNot))
    case (Manager, Settled) => Is(Needs(MustNot, Must, MustNot, Must, Must, Must, Must))
    case (Manager, Rejected) => Is(Needs(MustNot, Must, MustNot, Must, Must, Must, Must))
    case (Manager, Conflict) => Is(Needs(Must, May, MustNot, May, May, May, MustNot))
    case (Worker, Accepted) => Is(Needs(Must, MustNot, MustNot, Must, MustNot, MustNot, MustNot))
    case (Worker, Executing) => Is(Needs(Must, MustNot, Must, Must, MustNot, MustNot, MustNot))
    case (Worker, Succeeded) => Is(Needs(Must, Must, MustNot, Must, Must, MustNot, MustNot))
    case (Worker, Acknowledged) => Is(Needs(MustNot, Must, MustNot, Must, Must, MustNot, Must))
    case (Worker, Rejected) => Is(Needs(Must, Must, MustNot, Must, Must, MustNot, MustNot))
    case (Worker, Conflict) => Is(Needs(Must, May, MustNot, May, May, MustNot, MustNot))
    case _ => Null
  }

  predicate MeetsNeeds(n: Needs, r: Receipt) {
    && Met(n.active, r.activeTaskId) && (r.activeTaskId.Is? ==> r.activeTaskId.value == r.taskId)
    && Met(n.result, r.resultPayload)
    && Met(n.token, r.executionToken)
    && (r.executionToken.Is? ==> |r.executionToken.value| == 32 && r.nextReconcileAt.Is?)
    && Met(n.accepted, r.acceptedAt) && Met(n.completed, r.completedAt)
    && Met(n.intent, r.ackIntentAt) && Met(n.acked, r.acknowledgedAt)
  }

  /** accepted <= completed <= ack intent <= acknowledged, as far as they are set; neither of the last
      two is set without the second. */
  predicate Ordered(r: Receipt) {
    && (r.acceptedAt.Is? && r.completedAt.Is? ==> r.acceptedAt.value <= r.completedAt.value)
    && (r.ackIntentAt.Is? ==> r.completedAt.Is? && r.completedAt.value <= r.ackIntentAt.value)
    && (r.acknowledgedAt.Is? ==> r.completedAt.Is? && r.completedAt.value <= r.acknowledgedAt.value)
    && (r.ackIntentAt.Is? && r.acknowledgedAt.Is? ==> r.ackIntentAt.value <= r.acknowledgedAt.value)
  }

  predicate WholeHandoff(h: Handoff) {
    || h == Handoff(Null, Null, Null, Null, Null, Null)
    || (&& h.id.Is? && |h.id.value| == 32 && h.workerId.Is? && h.workerId.value > 0
        && h.retryCount.Is? && h.retryCount.value >= 0 && h.fromGeneration.Is? && h.fromGeneration.value >= 0
        && h.sourceLogId.Is? && h.sourceLogId.value > 0 && h.acknowledged.Is? && h.acknowledged.value in {0, 1})
  }

  predicate Identified(r: Receipt) {
    && |r.operationId| == 32 && |r.requestDigest| == 64
    && r.operation in {"cancel", "stop_session", "supersede"}
    && r.sourceStatus in {"pending", "in_progress", "executing", "plan_review", "merging", "migrating",
                          "completed", "failed", "cancelled", "conflict"}
    && r.sourceRetryCount >= 0 && r.sourceGeneration >= 0
    && (r.sourceLogId.Is? ==> r.sourceLogId.value > 0) && (r.sourceInstanceId.Is? ==> r.sourceInstanceId.value > 0)
    && r.stateVersion >= 1 && r.attemptCount >= 0 && r.reconcileCount >= 0
    && WholeHandoff(r.handoff)
    && (r.resultPayload.Is? <==> r.resultDigest.Is?) && (r.resultDigest.Is? ==> |r.resultDigest.value| == 64)
    && (if r.side == Manager then r.workerId.Is? && r.workerId.value > 0 else r.workerId.Null?)
  }

  predicate Lawful(r: Receipt) {
    var n := NeedsOf(r.side, r.status);
    n.Is? && MeetsNeeds(n.value, r) && Ordered(r) && Identified(r)
  }

  lemma SideShapeMeans(r: Receipt)
    ensures Admits(SideShapeValue(r)) <==>
            && NeedsOf(r.side, r.status).Is?
            && (if r.side == Manager then r.workerId.Is? && r.workerId.value > 0 else r.workerId.Null?)
  {
  }

  lemma ActiveSlotMeans(r: Receipt, n: Needs)
    requires NeedsOf(r.side, r.status) == Is(n)
    ensures Admits(ActiveSlotValue(r)) <==>
            Met(n.active, r.activeTaskId) && (r.activeTaskId.Is? ==> r.activeTaskId.value == r.taskId)
  {
  }

  lemma ResultMeans(r: Receipt, n: Needs)
    requires NeedsOf(r.side, r.status) == Is(n)
    ensures Admits(ResultStatusValue(r)) <==> Met(n.result, r.resultPayload)
    ensures Admits(ResultPairValue(r)) <==>
            && (r.resultPayload.Is? <==> r.resultDigest.Is?)
            && (r.resultDigest.Is? ==> |r.resultDigest.value| == 64)
  {
  }

  lemma ExecutionOwnerMeans(r: Receipt, n: Needs)
    requires NeedsOf(r.side, r.status) == Is(n)
    ensures Admits(ExecutionOwnerValue(r)) <==>
            && Met(n.token, r.executionToken)
            && (r.executionToken.Is? ==> |r.executionToken.value| == 32 && r.nextReconcileAt.Is?)
  {
  }

  lemma InstantsMean(r: Receipt, n: Needs)
    requires NeedsOf(r.side, r.status) == Is(n)
    ensures Admits(AcceptedAtValue(r)) <==> Met(n.accepted, r.acceptedAt)
    ensures Admits(CompletedAtValue(r)) <==> Met(n.completed, r.completedAt)
  {
  }

  lemma AcknowledgementMeans(r: Receipt, n: Needs)
    requires NeedsOf(r.side, r.status) == Is(n)
    ensures Admits(AcknowledgedAtValue(r)) <==> Met(n.acked, r.acknowledgedAt)
    ensures Admits(AckIntentValue(r)) <==> Met(n.intent, r.ackIntentAt)
  {
  }

  lemma TimelineMeans(r: Receipt)
    ensures Admits(TimelineValue(r)) <==> Ordered(r)
  {
  }

  lemma HandoffMeans(h: Handoff)
    ensures Admits(HandoffValue(h)) <==> WholeHandoff(h)
  {
  }

  /** The checks on single columns, which no stage changes. */
  lemma ScalarsMean(r: Receipt)
    requires NeedsOf(r.side, r.status).Is?
    ensures (&& Admits(Value(OperationIdCheck, r)) && Admits(Value(RequestDigest, r)) && Admits(Value(OperationCheck, r))
             && Admits(Value(SourceStatusCheck, r)) && Admits(Value(SourceGeneration, r)) && Admits(Value(Counters, r))
             && Admits(HandoffValue(r.handoff)) && Admits(ResultPairValue(r)) && Admits(SideShapeValue(r)))
            <==> Identified(r)
    ensures Admits(Value(SideCheck, r)) && Admits(Value(StatusCheck, r))
  {
    hide HandoffValue, ResultPairValue, SideShapeValue, WholeHandoff;
    SideShapeMeans(r);
    HandoffMeans(r.handoff);
    ResultMeans(r, NeedsOf(r.side, r.status).value);
  }

  /** The nineteen CHECKs together admit exactly the receipts of the stage table: a known side and
      status, what that stage needs and no more, and the instants in order. */
  lemma AdmittedIffLawful(r: Receipt)
    ensures Admitted(r) <==> Lawful(r)
  {
    hide Identified, Ordered, Met, HandoffValue, TimelineValue, ResultPairValue, ResultStatusValue, SideShapeValue,
      ActiveSlotValue, ExecutionOwnerValue, AcceptedAtValue, CompletedAtValue, AcknowledgedAtValue, AckIntentValue;
    SideShapeMeans(r);
    if NeedsOf(r.side, r.status).Is? {
      var n := NeedsOf(r.side, r.status).value;
      LawfulStage(r, n);
    } else {
      assert !Admits(Value(SideShape, r));
    }
  }

  lemma LawfulStage(r: Receipt, n: Needs)
    requires NeedsOf(r.side, r.status) == Is(n)
    ensures Admitted(r) <==> Lawful(r)
  {
    hide Identified, Ordered, Met, HandoffValue, TimelineValue, ResultPairValue, ResultStatusValue, SideShapeValue,
      ActiveSlotValue, ExecutionOwnerValue, AcceptedAtValue, CompletedAtValue, AcknowledgedAtValue, AckIntentValue,
      NeedsOf;
    ActiveSlotMeans(r, n);
    ResultMeans(r, n);
    ExecutionOwnerMeans(r, n);
    InstantsMean(r, n);
    AcknowledgementMeans(r, n);
    TimelineMeans(r);
    ScalarsMean(r);
    AdmittedUnfolds(r);
  }

  lemma AdmittedUnfolds(r: Receipt)
    ensures Admitted(r) <==>
            && Admits(Value(OperationIdCheck, r)) && Admits(Value(SideCheck, r)) && Admits(Value(OperationCheck, r))
            && Admits(Value(StatusCheck, r)) && Admits(SideShapeValue(r)) && Admits(ActiveSlotValue(r))
            && Admits(Value(SourceGeneration, r)) && Admits(Value(SourceStatusCheck, r))
            && Admits(HandoffValue(r.handoff)) && Admits(Value(RequestDigest, r)) && Admits(ResultPairValue(r))
            && Admits(ResultStatusValue(r)) && Admits(Value(Counters, r)) && Admits(ExecutionOwnerValue(r))
            && Admits(AcceptedAtValue(r)) && Admits(CompletedAtValue(r)) && Admits(AcknowledgedAtValue(r))
            && Admits(AckIntentValue(r)) && Admits(TimelineValue(r))
  {
    hide HandoffValue, TimelineValue, ResultPairValue, ResultStatusValue, SideShapeValue,
      ActiveSlotValue, ExecutionOwnerValue, AcceptedAtValue, CompletedAtValue, AcknowledgedAtValue, AckIntentValue,
      And, Or, Not, Of, OrNull, LengthIs, Above, AtLeast, Both, Admits;
    assert Value(SideShape, r) == SideShapeValue(r) && Value(ActiveSlot, r) == ActiveSlotValue(r);
    assert Value(HandoffShape, r) == HandoffValue(r.handoff) && Value(ResultPair, r) == ResultPairValue(r);
    assert Value(ResultStatus, r) == ResultStatusValue(r) && Value(ExecutionOwner, r) == ExecutionOwnerValue(r);
    assert Value(AcceptedAtCheck, r) == AcceptedAtValue(r) && Value(CompletedAtCheck, r) == CompletedAtValue(r);
    assert Value(AcknowledgedAtCheck, r) == AcknowledgedAtValue(r) && Value(AckIntent, r) == AckIntentValue(r);
    assert Value(Timeline, r) == TimelineValue(r);
  }

  /** A settled receipt is the manager's, has given up its slot, carries a digested result, and passed
      acceptance, completion, ack intent and acknowledgement in that order, all recorded. */
  lemma SettledReceipt(r: Receipt)
    requires Admitted(r) && r.status == Settled
    ensures r.side == Manager && r.workerId.Is? && r.activeTaskId.Null?
    ensures r.resultPayload.Is? && r.resultDigest.Is? && |r.resultDigest.value| == 64
    ensures r.acceptedAt.Is? && r.completedAt.Is? && r.ackIntentAt.Is? && r.acknowledgedAt.Is?
    ensures r.acceptedAt.value <= r.completedAt.value <= r.ackIntentAt.value <= r.acknowledgedAt.value
  {
    AdmittedIffLawful(r);
    hide Admitted;
  }

  /** Of the receipts of one Task, UNIQUE (active_task_id) leaves at most one that is still open. */
  lemma OneOpenReceiptPerTask(receipts: set<Receipt>, a: Receipt, b: Receipt)
    requires a in receipts && b in receipts && forall r | r in receipts :: Admitted(r)
    requires forall r, s | r in receipts && s in receipts && r != s :: Eq(r.activeTaskId, s.activeTaskId) != True
    requires a.taskId == b.taskId && Open(a) && Open(b)
    ensures a == b
  {
    hide Admitted, Open;
    OpenOwnsSlot(a);
    OpenOwnsSlot(b);
  }

  lemma OpenOwnsSlot(r: Receipt)
    requires Admitted(r) && Open(r)
    ensures r.activeTaskId == Is(r.taskId)
  {
    AdmittedIffLawful(r);
    hide Admitted, Identified, Ordered;
  }

  predicate Open(r: Receipt) { (r.side == Manager && r.status in MANAGER_OPEN) || (r.side == Worker && r.status in WORKER_OPEN) }
}
