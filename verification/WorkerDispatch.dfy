/** alembic/versions/a6e4c2d9f810_add_worker_plan_dispatch_receipts.py: the state shapes of a dispatch
    receipt in three-valued logic, the back-fill, and the guard that counts UNKNOWN as unsafe. */
module WorkerDispatch {
  import opened ThreeValued
  import opened HexText
  import P = PlanReceipts

  datatype Status = Prepared | RemotePossible | Settled | OtherStatus(text: string)

  datatype Remote = WaitingUser | RemoteCompleted | RemoteFailed | RemoteCancelled | RemoteConflict | OtherRemote(text: string)

  datatype Reason =
    | NotLaunched | PreflightFailed | CancelledRemotely | PausedRemotely | AbsentRemotely | IdentityConflict
    | LegacyTerminal | OtherReason(text: string)

  datatype Receipt = Receipt(
    planId: int, runId: int, workerId: int, generation: int, protocol: int, status: Status, digest: Nullable<string>,
    remote: Nullable<Remote>, reason: Nullable<Reason>, settledAt: Nullable<int>)

  const PAUSED: set<Remote> := {WaitingUser, RemoteCompleted, RemoteFailed, RemoteCancelled}
  const ENDED: set<Remote> := {RemoteCompleted, RemoteFailed, RemoteCancelled}

  // ---- The expressions ----

  function DigestCheck(r: Receipt): Truth { HexCheck(r.digest, 64) }

  function ReasonIs(r: Receipt, x: Reason): Truth { Eq(r.reason, Is(x)) }

  function SettledReasons(r: Receipt): Truth {
    Or(And(In(r.reason, {NotLaunched, PreflightFailed}), And(IsNull(r.digest), IsNull(r.remote))),
    Or(And(ReasonIs(r, CancelledRemotely),
           And(Or(IsNull(r.digest), DigestCheck(r)), Eq(r.remote, Is(RemoteCancelled)))),
    Or(And(ReasonIs(r, PausedRemotely), And(DigestCheck(r), In(r.remote, PAUSED))),
    Or(And(ReasonIs(r, AbsentRemotely), And(DigestCheck(r), IsNull(r.remote))),
       And(ReasonIs(r, IdentityConflict), And(DigestCheck(r), Eq(r.remote, Is(RemoteConflict))))))))
  }

  function SettledShape(r: Receipt): Truth {
    Or(And(And(Of(r.status == Settled), IsNotNull(r.settledAt)), SettledReasons(r)),
       And(And(Of(r.status == Settled), IsNotNull(r.settledAt)),
           And(ReasonIs(r, LegacyTerminal), And(IsNull(r.digest), In(r.remote, ENDED)))))
  }

  function Unsettled(r: Receipt): Truth { And(IsNull(r.remote), And(IsNull(r.reason), IsNull(r.settledAt))) }

  function StateShape(r: Receipt): Truth {
    Or(And(Of(r.status == Prepared), And(IsNull(r.digest), Unsettled(r))),
    Or(And(Of(r.status == RemotePossible), And(DigestCheck(r), Unsettled(r))),
       SettledShape(r)))
  }

  predicate Admitted(r: Receipt) { !r.status.OtherStatus? && r.protocol == 1 && Admits(StateShape(r)) }

  // ---- What they mean ----

  predicate HasDigest(r: Receipt) { r.digest.Is? && |r.digest.value| == 64 && AllHex(r.digest.value) }

  /** A settled receipt with exactly the evidence its reason calls for. */
  predicate Proven(r: Receipt) {
    && r.status == Settled && r.settledAt.Is? && r.reason.Is?
    && match r.reason.value
       case NotLaunched => r.digest.Null? && r.remote.Null?
       case PreflightFailed => r.digest.Null? && r.remote.Null?
       case CancelledRemotely => (r.digest.Null? || HasDigest(r)) && r.remote == Is(RemoteCancelled)
       case PausedRemotely =>
         HasDigest(r) && r.remote.Is? && r.remote.value in {WaitingUser, RemoteCompleted, RemoteFailed, RemoteCancelled}
       case AbsentRemotely => HasDigest(r) && r.remote.Null?
       case IdentityConflict => HasDigest(r) && r.remote == Is(RemoteConflict)
       case LegacyTerminal => r.digest.Null? && r.remote.Is? && r.remote.value in {RemoteCompleted, RemoteFailed, RemoteCancelled}
       case OtherReason(_) => false
  }

  predicate MayHaveDigest(r: Receipt) { r.digest.Null? || HasDigest(r) }

  predicate MayBe(r: Receipt, values: set<Remote>) { r.remote.Null? || r.remote.value in values }

  /** The receipts the state CHECK admits only because a comparison with NULL leaves it UNKNOWN. */
  predicate Undecided(r: Receipt) {
    || (r.status == RemotePossible && r.digest.Null? && r.remote.Null? && r.reason.Null? && r.settledAt.Null?)
    || (r.status == Settled && r.settledAt.Is? && UndecidedReason(r))
  }

  predicate UndecidedReason(r: Receipt) {
    if r.reason.Null? then
      MayHaveDigest(r) && MayBe(r, {WaitingUser, RemoteCompleted, RemoteFailed, RemoteCancelled, RemoteConflict})
    else match r.reason.value
      case CancelledRemotely => MayHaveDigest(r) && r.remote.Null?
      case PausedRemotely =>
        && MayHaveDigest(r) && MayBe(r, {WaitingUser, RemoteCompleted, RemoteFailed, RemoteCancelled})
        && (r.digest.Null? || r.remote.Null?)
      case AbsentRemotely => r.digest.Null? && r.remote.Null?
      case IdentityConflict => MayHaveDigest(r) && MayBe(r, {RemoteConflict}) && (r.digest.Null? || r.remote.Null?)
      case LegacyTerminal => r.digest.Null? && r.remote.Null?
      case _ => false
  }

  lemma DigestMeans(r: Receipt)
    ensures DigestCheck(r) == if r.digest.Null? then Unknown else if HasDigest(r) then True else False
  {
    HexCheckIff(r.digest, 64);
    hide HexCheck, AllHex;
  }

  /** The settled shape, and with it the downgrade's guard, is TRUE exactly on proven receipts. */
  lemma SettledIffProven(r: Receipt)
    ensures SettledShape(r) == True <==> Proven(r)
  {
    hide DigestCheck, HasDigest;
    DigestMeans(r);
    if r.digest.Null? { NoDigest(r); }
  }

  lemma NoDigest(r: Receipt)
    requires r.digest.Null?
    ensures !HasDigest(r)
  {
  }

  /** The state CHECK is UNKNOWN, and so admits a receipt it does not confirm, exactly on these. */
  lemma StateUnknownIff(r: Receipt)
    ensures StateShape(r) == Unknown <==> Undecided(r)
  {
    hide DigestCheck, HasDigest;
    DigestMeans(r);
    if r.digest.Null? { NoDigest(r); }
  }

  /** What the table can hold: new receipts, launched ones with a digest, proven ones, and the undecided. */
  lemma AdmittedIff(r: Receipt)
    ensures Admitted(r) <==>
            && r.protocol == 1
            && (|| (r.status == Prepared && r.digest.Null? && r.remote.Null? && r.reason.Null? && r.settledAt.Null?)
                || (r.status == RemotePossible && HasDigest(r) && r.remote.Null? && r.reason.Null? && r.settledAt.Null?)
                || Proven(r)
                || Undecided(r))
  {
    StateUnknownIff(r);
    SettledIffProven(r);
    DigestMeans(r);
    hide DigestCheck, HasDigest, SettledShape, Proven, Undecided;
    if SettledShape(r) == True { ProvenIsSettled(r); }
    if Undecided(r) { UndecidedStatus(r); }
  }

  lemma ProvenIsSettled(r: Receipt)
    requires Proven(r)
    ensures r.status == Settled
  {
  }

  lemma UndecidedStatus(r: Receipt)
    requires Undecided(r)
    ensures r.status in {RemotePossible, Settled}
  {
  }

  /** A settled receipt without a reason gets into the table, and the downgrade refuses it. */
  lemma UnprovenWitness() returns (r: Receipt)
    ensures Admitted(r) && r.status == Settled && SettledShape(r) != True
  {
    r := Receipt(1, 2, 3, 0, 1, Settled, Null, Null, Null, Is(5));
    AdmittedIff(r);
    SettledIffProven(r);
    hide Admitted, SettledShape;
  }

  // ---- The back-fill ----

  function RemoteOf(s: P.RunStatus): Remote {
    match s
    case Completed => RemoteCompleted
    case Failed => RemoteFailed
    case Cancelled => RemoteCancelled
    case Cancelling => OtherRemote("cancelling")
    case OtherRunStatus(t) => OtherRemote(t)
  }

  /** The runs joined to their plans that have a Worker, by id. */
  ghost predicate Listed(order: seq<int>, plans: map<int, P.Plan>, runs: map<int, P.Run>) {
    && (forall i, j | 0 <= i < j < |order| :: order[i] < order[j])
    && (forall id :: id in order <==>
          id in runs && runs[id].workerId.Is? && runs[id].planId.Is? && runs[id].planId.value in plans)
  }

  predicate Terminal(run: P.Run) {
    run.workerId.Is? && run.planId.Is? && run.finishedAt.Is?
    && run.status in {P.Completed, P.Failed, P.Cancelled}
  }

  function ReceiptFor(id: int, run: P.Run): Receipt
    requires Terminal(run)
  {
    Receipt(run.planId.value, id, run.workerId.value, run.generation, 1, Settled, Null, Is(RemoteOf(run.status)),
            Is(LegacyTerminal), run.finishedAt)
  }

  predicate AllTerminal(order: seq<int>, runs: map<int, P.Run>) {
    forall i | 0 <= i < |order| :: order[i] in runs && Terminal(runs[order[i]])
  }

  function Receipts(order: seq<int>, runs: map<int, P.Run>): seq<Receipt>
    requires AllTerminal(order, runs)
  {
    seq(|order|, i requires 0 <= i < |order| => ReceiptFor(order[i], runs[order[i]]))
  }

  predicate Keyed(rows: seq<Receipt>) {
    forall i, j | 0 <= i < j < |rows| :: !(rows[i].runId == rows[j].runId && rows[i].generation == rows[j].generation)
  }

  predicate TableHolds(rows: seq<Receipt>) { Keyed(rows) && forall i | 0 <= i < |rows| :: Admitted(rows[i]) }

  /** What the keys and the CHECKs let the table hold. */
  lemma TableMeans(rows: seq<Receipt>)
    ensures TableHolds(rows) <==>
            && (forall i, j | 0 <= i < |rows| && 0 <= j < |rows| && i != j ::
                  rows[i].runId != rows[j].runId || rows[i].generation != rows[j].generation)
            && (forall i | 0 <= i < |rows| :: Admitted(rows[i]))
  {
    hide Admitted;
  }

  lemma FilledIsProven(id: int, run: P.Run)
    requires Terminal(run)
    ensures Proven(ReceiptFor(id, run)) && Admitted(ReceiptFor(id, run))
  {
    AdmittedIff(ReceiptFor(id, run));
    hide Admitted;
  }

  lemma ReceiptsHold(order: seq<int>, runs: map<int, P.Run>)
    requires AllTerminal(order, runs) && forall i, j | 0 <= i < j < |order| :: order[i] < order[j]
    ensures TableHolds(Receipts(order, runs))
    ensures forall i | 0 <= i < |order| :: Proven(Receipts(order, runs)[i])
  {
    hide Admitted, Proven;
    forall i | 0 <= i < |order|
      ensures Admitted(Receipts(order, runs)[i]) && Proven(Receipts(order, runs)[i])
    {
      FilledIsProven(order[i], runs[order[i]]);
    }
  }

  /** A Worker run the first query passes over is terminal and joined to a plan. */
  lemma AcceptedIsTerminal(id: int, run: P.Run, plans: map<int, P.Plan>)
    requires !Selects(P.UnsafeRun(id, run, plans)) && run.workerId.Is?
    ensures Terminal(run) && run.planId.value in plans
  {
  }

  lemma TerminalHasPlan(run: P.Run)
    requires Terminal(run)
    ensures run.planId.Is?
  {
  }

  /** The second query, over the Steps of Worker runs. */
  function UnsafeStep(id: int, step: P.Step, runs: map<int, P.Run>): Truth {
    if step.runId !in runs then False
    else
      var run := runs[step.runId];
      And(IsNotNull(run.workerId),
          Or(Or(Or(Of(id <= 0), IsNull(step.planId)), Or(Ne(step.planId, run.planId), IsNull(step.workerId))),
          Or(Or(Or(Ne(step.workerId, run.workerId), IsNull(step.workerStepId)),
                Or(Not(Above(step.workerStepId, 0)), Of(step.generation < 0))),
             Or(Or(Of(step.provider !in {P.Claude, P.Codex}), Of(step.status !in P.TERMINAL)), IsNull(step.finishedAt)))))
  }

  /** What the second query demands of a Step. A run without a plan leaves the comparison of plans
      UNKNOWN, so there it demands no more than some plan. */
  predicate StepMatches(id: int, step: P.Step, run: P.Run) {
    && id > 0 && step.planId.Is? && (run.planId.Is? ==> step.planId == run.planId)
    && step.workerId == run.workerId && step.workerStepId.Is? && step.workerStepId.value > 0
    && step.generation >= 0 && step.provider in {P.Claude, P.Codex} && step.status in {P.Completed, P.Failed, P.Cancelled}
    && step.finishedAt.Is?
  }

  lemma UnsafeStepIff(id: int, step: P.Step, runs: map<int, P.Run>)
    ensures Selects(UnsafeStep(id, step, runs)) <==>
            step.runId in runs && runs[step.runId].workerId.Is? && !StepMatches(id, step, runs[step.runId])
  {
  }

  predicate Refused(plans: map<int, P.Plan>, runs: map<int, P.Run>, steps: map<int, P.Step>, runtime: seq<P.Receipt>) {
    || (exists i | i in runs :: Selects(P.UnsafeRun(i, runs[i], plans)))
    || (exists i | i in steps :: Selects(UnsafeStep(i, steps[i], runs)))
    || (exists i | 0 <= i < |runtime| :: runtime[i].runId in runs && runs[runtime[i].runId].workerId.Is?)
  }

  /** What the upgrade asks of its rows: every Worker run is over, every Step of one matches it, and no
      runtime receipt belongs to one. */
  predicate AllOver(plans: map<int, P.Plan>, runs: map<int, P.Run>, steps: map<int, P.Step>, runtime: seq<P.Receipt>) {
    && (forall i | i in runs && runs[i].workerId.Is? :: P.RunIsOver(i, runs[i], plans))
    && (forall i | i in steps && steps[i].runId in runs && runs[steps[i].runId].workerId.Is? ::
          StepMatches(i, steps[i], runs[steps[i].runId]))
    && (forall i | 0 <= i < |runtime| && runtime[i].runId in runs :: runs[runtime[i].runId].workerId.Null?)
  }

  lemma RefusedIff(plans: map<int, P.Plan>, runs: map<int, P.Run>, steps: map<int, P.Step>, runtime: seq<P.Receipt>)
    ensures Refused(plans, runs, steps, runtime) <==> !AllOver(plans, runs, steps, runtime)
  {
    hide UnsafeStep, StepMatches, P.UnsafeRun, P.RunIsOver;
    forall i | i in runs
      ensures Selects(P.UnsafeRun(i, runs[i], plans)) <==> runs[i].workerId.Is? && !P.RunIsOver(i, runs[i], plans)
    {
      P.UnsafeRunIff(i, runs[i], plans);
    }
    forall i | i in steps
      ensures Selects(UnsafeStep(i, steps[i], runs)) <==>
              steps[i].runId in runs && runs[steps[i].runId].workerId.Is? && !StepMatches(i, steps[i], runs[steps[i].runId])
    {
      UnsafeStepIff(i, steps[i], runs);
    }
  }

  /** The receipt says of the run what is known of it: its own ids, that it is settled because it had ended
      before there were receipts, how it had ended, and when. */
  ghost predicate Records(r: Receipt, id: int, run: P.Run) {
    && r.runId == id && Is(r.planId) == run.planId && Is(r.workerId) == run.workerId && r.generation == run.generation
    && r.protocol == 1 && r.status == Settled && r.digest.Null? && r.reason == Is(LegacyTerminal)
    && r.settledAt == run.finishedAt && r.settledAt.Is?
    && (run.status == P.Completed ==> r.remote == Is(RemoteCompleted))
    && (run.status == P.Failed ==> r.remote == Is(RemoteFailed))
    && (run.status == P.Cancelled ==> r.remote == Is(RemoteCancelled))
    && run.status in {P.Completed, P.Failed, P.Cancelled}
  }

  lemma FilledRecords(order: seq<int>, runs: map<int, P.Run>)
    requires AllTerminal(order, runs)
    ensures |Receipts(order, runs)| == |order|
    ensures forall i | 0 <= i < |order| :: order[i] in runs && Records(Receipts(order, runs)[i], order[i], runs[order[i]])
  {
  }

  class Tables {
    var plans: map<int, P.Plan>
    var runs: map<int, P.Run>
    var steps: map<int, P.Step>
    var runtime: seq<P.Receipt>
    var receipts: seq<Receipt>
    var upgraded: bool

    method Insert(batch: seq<Receipt>) returns (inserted: bool)
      modifies this`receipts
      ensures inserted == TableHolds(old(receipts) + batch)
      ensures receipts == if inserted then old(receipts) + batch else old(receipts)
    {
      inserted := TableHolds(receipts + batch);
      if inserted { receipts := receipts + batch; }
    }

    /** Batches of a thousand; none of them is refused. */
    method BackFill(order: seq<int>) returns (inserted: bool)
      requires receipts == [] && AllTerminal(order, runs) && TableHolds(Receipts(order, runs))
      modifies this`receipts
      ensures inserted && receipts == Receipts(order, runs)
    {
      hide TableHolds, Admitted;
      ghost var all := Receipts(order, runs);
      var batch: seq<Receipt> := [];
      for i := 0 to |order|
        invariant receipts + batch == all[..i] && |batch| < 1000
      {
        batch := batch + [ReceiptFor(order[i], runs[order[i]])];
        assert receipts + batch == all[..i + 1];
        if |batch| == 1000 {
          PrefixHolds(all, i + 1);
          inserted := Insert(batch);
          if !inserted { return; }
          batch := [];
        }
      }
      assert all[..|order|] == all;
      if batch != [] {
        inserted := Insert(batch);
        if !inserted { return; }
      }
      inserted := true;
    }

    /** Refused exactly when some row is not over or does not match; otherwise every Worker run gets one proven receipt. */
    method Upgrade(order: seq<int>) returns (refused: bool)
      requires !upgraded && receipts == [] && Listed(order, plans, runs)
      modifies this`receipts, this`upgraded
      ensures refused <==> !AllOver(plans, runs, steps, runtime)
      ensures refused ==> receipts == [] && !upgraded
      ensures !refused ==> upgraded && AllTerminal(order, runs) && receipts == Receipts(order, runs)
      ensures !refused ==> forall i | 0 <= i < |receipts| :: Proven(receipts[i])
      ensures !refused ==>
                && |receipts| == |order|
                && forall i | 0 <= i < |order| :: order[i] in runs && Records(receipts[i], order[i], runs[order[i]])
      ensures !refused ==> forall id | id in runs && runs[id].workerId.Is? ::
                exists i | 0 <= i < |receipts| :: receipts[i].runId == id
    {
      hide TableHolds, Proven, UnsafeStep, P.UnsafeRun, Terminal, StepMatches, P.RunIsOver;
      RefusedIff(plans, runs, steps, runtime);
      refused := Refused(plans, runs, steps, runtime);
      if refused { return; }
      forall i | 0 <= i < |order| ensures order[i] in runs && Terminal(runs[order[i]]) {
        assert order[i] in order;
        AcceptedIsTerminal(order[i], runs[order[i]], plans);
      }
      ReceiptsHold(order, runs);
      FilledRecords(order, runs);
      var inserted := BackFill(order);
      upgraded := true;
      forall id | id in runs && runs[id].workerId.Is? ensures exists i | 0 <= i < |receipts| :: receipts[i].runId == id {
        AcceptedIsTerminal(id, runs[id], plans);
        TerminalHasPlan(runs[id]);
        assert id in order;
        var i :| 0 <= i < |order| && order[i] == id;
        assert receipts[i].runId == id;
      }
    }

    /** Refused exactly when some receipt is not proven, whatever its status says; so no evidence of a
        remote import that may have happened is dropped. */
    method Downgrade() returns (refused: bool)
      requires upgraded
      modifies this`receipts, this`upgraded
      ensures refused == old(exists i | 0 <= i < |receipts| :: !Proven(receipts[i]))
      ensures receipts == (if refused then old(receipts) else []) && upgraded == refused
    {
      hide SettledShape, Proven;
      forall i | 0 <= i < |receipts| ensures SettledShape(receipts[i]) == True <==> Proven(receipts[i]) {
        SettledIffProven(receipts[i]);
      }
      refused := exists i | 0 <= i < |receipts| :: SettledShape(receipts[i]) != True;
      if refused { return; }
      receipts, upgraded := [], false;
    }

    /** Up and down again: what the upgrade accepts the downgrade accepts, and every table is as it was. */
    method UpAndDown(order: seq<int>) returns (refused: bool)
      requires !upgraded && receipts == [] && Listed(order, plans, runs)
      modifies this`receipts, this`upgraded
      ensures refused <==> !AllOver(plans, runs, steps, runtime)
      ensures !upgraded && receipts == []
    {
      hide AllOver, Proven, AllTerminal, Receipts, Listed;
      refused := Upgrade(order);
      if !refused {
        var held := Downgrade();
        assert !held;
      }
    }
  }

  lemma PrefixHolds(rows: seq<Receipt>, n: nat)
    requires TableHolds(rows) && n <= |rows|
    ensures TableHolds(rows[..n])
  {
    hide Admitted;
  }
}
