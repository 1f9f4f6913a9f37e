/** alembic/versions/8d2f5b7a1c90_add_plan_runtime_receipts.py: the receipt CHECKs, the back-fill of the
    upgrade, and the guard of the downgrade. */
module PlanReceipts {
  import opened ThreeValued
  import opened HexText

  datatype Provider = Claude | Codex | OtherProvider(text: string)

  datatype ReceiptStatus = Prepared | Admitting | Launching | Cleaned | CleanupFailed | OtherReceiptStatus(text: string)

  /** One receipt; NOT NULL columns carry plain values. */
  datatype Receipt = Receipt(
    runId: int, stepId: int, generation: int, attempt: int, provider: Provider, token: string,
    preparedBootId: string, preparedTicks: int, preparedUid: int, status: ReceiptStatus,
    processId: Nullable<int>, groupId: Nullable<int>, ticks: Nullable<int>, uid: Nullable<int>, bootId: Nullable<string>,
    codexHome: Nullable<string>, codexThread: Nullable<string>, cleanupError: Nullable<string>,
    createdAt: int, updatedAt: int, cleanedAt: Nullable<int>)

  // ---- The CHECK expressions ----

  predicate NonBlank(s: string) { exists i | 0 <= i < |s| :: s[i] != ' ' }

  /** LENGTH (TRIM (column)) > 0. */
  function TrimmedLengthAbove0(a: Nullable<string>): Truth { if a.Null? then Unknown else Of(NonBlank(a.value)) }

  function ProcessEmpty(r: Receipt): Truth {
    And(And(IsNull(r.processId), IsNull(r.groupId)), And(IsNull(r.ticks), And(IsNull(r.uid), IsNull(r.bootId))))
  }

  function ProcessComplete(r: Receipt): Truth {
    And(And(And(IsNotNull(r.processId), IsNotNull(r.groupId)),
            And(IsNotNull(r.ticks), And(IsNotNull(r.uid), IsNotNull(r.bootId)))),
    And(And(And(Above(r.processId, 1), Above(r.groupId, 1)), And(AtLeast(r.ticks, Is(0)), AtLeast(r.uid, Is(0)))),
        And(And(Eq(r.uid, Is(r.preparedUid)), Eq(r.bootId, Is(r.preparedBootId))), BootIdCheck(r.bootId))))
  }

  function ProcessShape(r: Receipt): Truth { Or(ProcessEmpty(r), ProcessComplete(r)) }

  function CodexEmpty(r: Receipt): Truth { And(IsNull(r.codexHome), IsNull(r.codexThread)) }

  function CodexComplete(r: Receipt): Truth {
    And(And(IsNotNull(r.codexHome), TrimmedLengthAbove0(r.codexHome)),
        And(IsNotNull(r.codexThread), TrimmedLengthAbove0(r.codexThread)))
  }

  function ProviderIs(r: Receipt, p: Provider): Truth { Of(r.provider == p) }

  function StatusIs(r: Receipt, s: ReceiptStatus): Truth { Of(r.status == s) }

  function ProviderIdentity(r: Receipt): Truth {
    Or(And(ProviderIs(r, Claude), CodexEmpty(r)),
       And(ProviderIs(r, Codex),
           And(Or(CodexEmpty(r), CodexComplete(r)), Or(ProcessEmpty(r), CodexComplete(r)))))
  }

  function ScalarShape(r: Receipt): Truth {
    And(And(And(Of(r.runId > 0), Of(r.stepId > 0)), And(Of(r.generation >= 0), Of(r.attempt >= 1))),
    And(Of(r.provider in {Claude, Codex}),
    And(And(HexCheck(Is(r.token), 32), BootIdCheck(Is(r.preparedBootId))),
        And(Of(r.preparedTicks >= 0), Of(r.preparedUid >= 0)))))
  }

  function StateShape(r: Receipt): Truth {
    Or(And(And(Or(StatusIs(r, Prepared), StatusIs(r, Admitting)), And(ProcessEmpty(r), CodexEmpty(r))),
           And(IsNull(r.cleanupError), IsNull(r.cleanedAt))),
    Or(And(And(StatusIs(r, Launching), And(IsNull(r.cleanupError), IsNull(r.cleanedAt))),
           Or(And(ProviderIs(r, Claude), And(ProcessComplete(r), CodexEmpty(r))),
              And(ProviderIs(r, Codex), And(CodexComplete(r), ProcessShape(r))))),
    Or(And(And(StatusIs(r, Cleaned), And(IsNotNull(r.cleanedAt), IsNull(r.cleanupError))), ProviderIdentity(r)),
       And(And(StatusIs(r, CleanupFailed), IsNull(r.cleanedAt)),
           And(And(IsNotNull(r.cleanupError), TrimmedLengthAbove0(r.cleanupError)), ProviderIdentity(r))))))
  }

  function CleanedShape(r: Receipt): Truth {
    And(And(ScalarShape(r), ProcessShape(r)),
    And(And(StatusIs(r, Cleaned), And(IsNotNull(r.cleanedAt), IsNull(r.cleanupError))),
        ProviderIdentity(r)))
  }

  predicate Admitted(r: Receipt) {
    && !r.status.OtherReceiptStatus?
    && Admits(ScalarShape(r)) && Admits(ProcessShape(r)) && Admits(StateShape(r))
  }

  lemma ScalarIsDecided(r: Receipt)
    ensures ScalarShape(r) != Unknown
  {
    HexCheckIff(Is(r.token), 32);
    BootIdCheckIff(Is(r.preparedBootId));
    hide HexCheck, BootIdCheck;
  }

  lemma ProcessIsDecided(r: Receipt)
    ensures ProcessEmpty(r) != Unknown && ProcessComplete(r) != Unknown && ProcessShape(r) != Unknown
  {
    BootIdCheckIff(r.bootId);
    hide BootIdCheck, IsBootId;
  }

  lemma CodexIsDecided(r: Receipt)
    ensures CodexEmpty(r) != Unknown && CodexComplete(r) != Unknown
  {
    hide NonBlank;
  }

  /** No receipt CHECK is ever UNKNOWN, so the downgrade's CASE, which counts UNKNOWN as unsafe, counts
      among the rows the table can hold exactly those whose status is not 'cleaned'. */
  lemma CleanedIffStatus(r: Receipt)
    ensures ScalarShape(r) != Unknown && ProcessShape(r) != Unknown && StateShape(r) != Unknown
    ensures Admitted(r) ==> (CleanedShape(r) == True <==> r.status == Cleaned)
  {
    ScalarIsDecided(r);
    ProcessIsDecided(r);
    CodexIsDecided(r);
    hide ScalarShape, ProcessEmpty, ProcessComplete, CodexEmpty, CodexComplete, NonBlank;
  }

  predicate NoProcess(r: Receipt) { r.processId.Null? && r.groupId.Null? && r.ticks.Null? && r.uid.Null? && r.bootId.Null? }

  /** The process that was prepared for: its ids, on the same boot and for the same user. */
  predicate PreparedProcess(r: Receipt) {
    && r.processId.Is? && r.processId.value > 1 && r.groupId.Is? && r.groupId.value > 1
    && r.ticks.Is? && r.ticks.value >= 0 && r.uid == Is(r.preparedUid) && r.preparedUid >= 0
    && r.bootId == Is(r.preparedBootId) && IsBootId(r.preparedBootId)
  }

  predicate NoCodex(r: Receipt) { r.codexHome.Null? && r.codexThread.Null? }

  predicate HasCodex(r: Receipt) {
    r.codexHome.Is? && NonBlank(r.codexHome.value) && r.codexThread.Is? && NonBlank(r.codexThread.value)
  }

  /** A Claude receipt has no Codex identity; a Codex process always has one. */
  predicate IdentityLawful(r: Receipt) {
    if r.provider == Claude then NoCodex(r) else HasCodex(r) || (NoCodex(r) && NoProcess(r))
  }

  predicate StageLawful(r: Receipt) {
    match r.status
    case Prepared => NoProcess(r) && NoCodex(r) && r.cleanupError.Null? && r.cleanedAt.Null?
    case Admitting => NoProcess(r) && NoCodex(r) && r.cleanupError.Null? && r.cleanedAt.Null?
    case Launching =>
      && r.cleanupError.Null? && r.cleanedAt.Null?
      && (if r.provider == Claude then PreparedProcess(r) && NoCodex(r) else HasCodex(r))
    case Cleaned => r.cleanedAt.Is? && r.cleanupError.Null? && IdentityLawful(r)
    case CleanupFailed =>
      r.cleanedAt.Null? && r.cleanupError.Is? && NonBlank(r.cleanupError.value) && IdentityLawful(r)
    case OtherReceiptStatus(_) => false
  }

  predicate ScalarsLawful(r: Receipt) {
    && r.runId > 0 && r.stepId > 0 && r.generation >= 0 && r.attempt >= 1 && r.provider in {Claude, Codex}
    && |r.token| == 32 && AllHex(r.token) && IsBootId(r.preparedBootId) && r.preparedTicks >= 0 && r.preparedUid >= 0
  }

  lemma ScalarsMean(r: Receipt)
    ensures Admits(ScalarShape(r)) <==> ScalarsLawful(r)
  {
    HexCheckIff(Is(r.token), 32);
    BootIdCheckIff(Is(r.preparedBootId));
    hide HexCheck, BootIdCheck, AllHex, IsBootId;
  }

  lemma ProcessMeans(r: Receipt)
    requires r.preparedUid >= 0
    ensures ProcessEmpty(r) == Of(NoProcess(r)) && ProcessComplete(r) == Of(PreparedProcess(r))
    ensures CodexEmpty(r) == Of(NoCodex(r)) && CodexComplete(r) == Of(HasCodex(r))
  {
    BootIdCheckIff(r.bootId);
    hide BootIdCheck, IsBootId, NonBlank;
  }

  /** The receipt CHECKs admit exactly the receipts of the five stages. */
  lemma AdmittedIffLawful(r: Receipt)
    ensures Admitted(r) <==> ScalarsLawful(r) && (NoProcess(r) || PreparedProcess(r)) && StageLawful(r)
  {
    ScalarsMean(r);
    if ScalarsLawful(r) {
      ScalarsGive(r);
      ProcessMeans(r);
    }
    hide ScalarShape, ScalarsLawful, ProcessEmpty, ProcessComplete, CodexEmpty, CodexComplete, NoProcess,
      PreparedProcess, NoCodex, HasCodex, NonBlank;
  }

  lemma ScalarsGive(r: Receipt)
    requires ScalarsLawful(r)
    ensures r.preparedUid >= 0 && r.provider in {Claude, Codex}
  {
  }

  // ---- Attempts 1..n ----

  /** The set 1, 2, ..., n. */
  function UpTo(n: nat): (s: set<int>)
    ensures |s| == n && forall i :: i in s <==> 1 <= i <= n
  {
    if n == 0 then {} else UpTo(n - 1) + {n}
  }

  lemma SubsetOfSameSize(a: set<int>, b: set<int>)
    requires a <= b && |a| == |b|
    ensures a == b
  {
    assert b == a + (b - a) && |b - a| == |b| - |a|;
    assert b - a == {};
  }

  /** MIN = 1 and COUNT = MAX. */
  predicate GaplessByAggregates(attempts: set<int>, least: int, most: int)
    requires least in attempts && most in attempts && forall a | a in attempts :: least <= a <= most
  {
    least == 1 && |attempts| == most
  }

  /** The aggregate test of the downgrade holds exactly when the attempts of the step are 1, 2, ..., n. */
  lemma AggregatesIffGapless(attempts: set<int>, least: int, most: int)
    requires least in attempts && most in attempts && forall a | a in attempts :: least <= a <= most
    ensures GaplessByAggregates(attempts, least, most) <==> exists n: nat :: attempts == UpTo(n)
  {
    if GaplessByAggregates(attempts, least, most) {
      SubsetOfSameSize(attempts, UpTo(most));
      assert attempts == UpTo(most);
    }
    if n: nat :| attempts == UpTo(n) {
      assert least in UpTo(n) && 1 in UpTo(n) && n in UpTo(n);
    }
  }

  function StepRows(rows: seq<Receipt>, step: int): set<int> {
    set i | 0 <= i < |rows| && rows[i].stepId == step
  }

  function Attempts(rows: seq<Receipt>, step: int): set<int> {
    set i | 0 <= i < |rows| && rows[i].stepId == step :: rows[i].attempt
  }

  predicate Keyed(rows: seq<Receipt>) {
    forall i, j | 0 <= i < j < |rows| ::
      !(rows[i].stepId == rows[j].stepId && rows[i].attempt == rows[j].attempt) && rows[i].token != rows[j].token
  }

  lemma LastRow(rows: seq<Receipt>, step: int)
    requires rows != []
    ensures var n := |rows| - 1;
            StepRows(rows, step) == StepRows(rows[..n], step) + if rows[n].stepId == step then {n} else {}
  {
  }

  lemma LastAttempt(rows: seq<Receipt>, step: int)
    requires rows != []
    ensures var n := |rows| - 1;
            Attempts(rows, step) == Attempts(rows[..n], step) + if rows[n].stepId == step then {rows[n].attempt} else {}
  {
    var n := |rows| - 1;
    forall a | a in Attempts(rows, step)
      ensures a in Attempts(rows[..n], step) + if rows[n].stepId == step then {rows[n].attempt} else {}
    {
      var i :| 0 <= i < |rows| && rows[i].stepId == step && rows[i].attempt == a;
      if i < n { assert rows[..n][i] == rows[i]; }
    }
    forall a | a in Attempts(rows[..n], step) ensures a in Attempts(rows, step) {
      var i :| 0 <= i < n && rows[..n][i].stepId == step && rows[..n][i].attempt == a;
      assert rows[i] == rows[..n][i];
    }
  }

  lemma NewAttempt(rows: seq<Receipt>, step: int)
    requires rows != [] && Keyed(rows) && rows[|rows| - 1].stepId == step
    ensures rows[|rows| - 1].attempt !in Attempts(rows[..|rows| - 1], step)
  {
  }

  /** UNIQUE (step, attempt) makes COUNT(*) the number of distinct attempts. */
  lemma {:induction false} CountIsAttempts(rows: seq<Receipt>, step: int)
    requires Keyed(rows)
    ensures |StepRows(rows, step)| == |Attempts(rows, step)|
  {
    hide StepRows, Attempts, Keyed;
    if rows == [] {
      NoRows(step);
    } else {
      var n := |rows| - 1;
      KeyedPrefix(rows, n);
      CountIsAttempts(rows[..n], step);
      LastRow(rows, step);
      LastAttempt(rows, step);
      RowIsNew(rows, step);
      if rows[n].stepId == step { NewAttempt(rows, step); }
    }
  }

  lemma RowIsNew(rows: seq<Receipt>, step: int)
    requires rows != []
    ensures |rows| - 1 !in StepRows(rows[..|rows| - 1], step)
  {
  }

  lemma NoRows(step: int)
    ensures StepRows([], step) == {} && Attempts([], step) == {}
  {
  }

  lemma KeyedPrefix(rows: seq<Receipt>, n: nat)
    requires Keyed(rows) && n <= |rows|
    ensures Keyed(rows[..n])
  {
  }

  // ---- The legacy rows ----

  datatype RunStatus = Completed | Failed | Cancelled | Cancelling | OtherRunStatus(text: string)

  datatype Plan = Plan(workerId: Nullable<int>, activeRunId: Nullable<int>)

  datatype Run = Run(
    planId: Nullable<int>, workerId: Nullable<int>, generation: int, status: RunStatus, finishedAt: Nullable<int>,
    instanceId: Nullable<int>, lastExecutionStartedAt: Nullable<int>)

  datatype Step = Step(
    runId: int, planId: Nullable<int>, workerId: Nullable<int>, workerStepId: Nullable<int>, generation: int, provider: Provider,
    status: RunStatus, startedAt: Nullable<int>, finishedAt: Nullable<int>)

  const TERMINAL: set<RunStatus> := {Completed, Failed, Cancelled}

  /** The WHERE clause that finds a Worker Run the upgrade cannot account for. */
  function UnsafeRun(id: int, run: Run, plans: map<int, Plan>): Truth {
    var found := run.planId.Is? && run.planId.value in plans;
    var planWorker := if found then plans[run.planId.value].workerId else Null;
    var planActive := if found then plans[run.planId.value].activeRunId else Null;
    And(IsNotNull(run.workerId),
        Or(Or(Or(Of(id <= 0), Of(!found)), Or(IsNull(planWorker), Ne(planWorker, run.workerId))),
        Or(Or(Of(run.generation < 0), Of(run.status !in TERMINAL)),
        Or(Or(IsNull(run.finishedAt), IsNotNull(run.instanceId)),
           Or(IsNotNull(run.lastExecutionStartedAt), Eq(planActive, Is(id)))))))
  }

  /** The WHERE clause that finds a Step the upgrade cannot account for. */
  function UnsafeStep(id: int, step: Step, runs: map<int, Run>): Truth {
    var found := step.runId in runs;
    var runWorker := if found then runs[step.runId].workerId else Null;
    Or(Or(Or(Of(!found), Or(Of(id <= 0), Of(step.runId <= 0))),
          Or(Of(step.generation < 0), Of(step.provider !in {Claude, Codex}))),
    Or(Or(And(IsNull(runWorker), Or(IsNotNull(step.workerId), IsNotNull(step.workerStepId))),
          And(IsNotNull(runWorker),
              Or(Or(IsNull(step.workerId), IsNull(step.workerStepId)),
                 Or(Not(Above(step.workerStepId, 0)), Ne(step.workerId, runWorker))))),
       Or(Of(step.status !in TERMINAL), IsNull(step.finishedAt))))
  }

  /** A Worker run passes the query only when it is over and still belongs to its plan's Worker. */
  predicate RunIsOver(id: int, run: Run, plans: map<int, Plan>) {
    && id > 0 && run.planId.Is? && run.planId.value in plans
    && plans[run.planId.value].workerId == run.workerId && plans[run.planId.value].activeRunId != Is(id)
    && run.generation >= 0 && run.status in {Completed, Failed, Cancelled} && run.finishedAt.Is?
    && run.instanceId.Null? && run.lastExecutionStartedAt.Null?
  }

  lemma UnsafeRunIff(id: int, run: Run, plans: map<int, Plan>)
    ensures Selects(UnsafeRun(id, run, plans)) <==> run.workerId.Is? && !RunIsOver(id, run, plans)
  {
  }

  /** A Step passes the query only when it is over and its Worker fields are those of its run. */
  predicate StepIsOver(id: int, step: Step, runs: map<int, Run>) {
    && id > 0 && step.runId > 0 && step.runId in runs && step.generation >= 0 && step.provider in {Claude, Codex}
    && step.workerId == runs[step.runId].workerId
    && (if step.workerId.Null? then step.workerStepId.Null? else step.workerStepId.Is? && step.workerStepId.value > 0)
    && step.status in {Completed, Failed, Cancelled} && step.finishedAt.Is?
  }

  lemma UnsafeStepIff(id: int, step: Step, runs: map<int, Run>)
    ensures Selects(UnsafeStep(id, step, runs)) <==> !StepIsOver(id, step, runs)
  {
  }

  predicate Refused(plans: map<int, Plan>, runs: map<int, Run>, steps: map<int, Step>) {
    || (exists i | i in runs :: runs[i].status == Cancelling)
    || (exists i | i in runs :: Selects(UnsafeRun(i, runs[i], plans)))
    || (exists i | i in steps :: Selects(UnsafeStep(i, steps[i], runs)))
  }

  /** No run is cancelling, and every Worker run and every Step is over. */
  predicate AllOver(plans: map<int, Plan>, runs: map<int, Run>, steps: map<int, Step>) {
    && (forall i | i in runs :: runs[i].status != Cancelling && (runs[i].workerId.Is? ==> RunIsOver(i, runs[i], plans)))
    && (forall i | i in steps :: StepIsOver(i, steps[i], runs))
  }

  lemma RefusedIff(plans: map<int, Plan>, runs: map<int, Run>, steps: map<int, Step>)
    ensures Refused(plans, runs, steps) <==> !AllOver(plans, runs, steps)
  {
    hide UnsafeRun, UnsafeStep, RunIsOver, StepIsOver;
    forall i | i in runs
      ensures Selects(UnsafeRun(i, runs[i], plans)) <==> runs[i].workerId.Is? && !RunIsOver(i, runs[i], plans)
    {
      UnsafeRunIff(i, runs[i], plans);
    }
    forall i | i in steps ensures Selects(UnsafeStep(i, steps[i], runs)) <==> !StepIsOver(i, steps[i], runs) {
      UnsafeStepIff(i, steps[i], runs);
    }
  }

  predicate IsLegacy(step: Step) { step.workerId.Null? && step.workerStepId.Null? }

  /** ORDER BY id over the steps that get a receipt. */
  ghost predicate Listed(order: seq<int>, steps: map<int, Step>) {
    && (forall i, j | 0 <= i < j < |order| :: order[i] < order[j])
    && (forall id :: id in order <==> id in steps && IsLegacy(steps[id]))
  }

  // ---- The back-fill ----

  const LEGACY_BOOT_ID := "00000000" + "-" + "0000" + "-" + "0000" + "-" + "0000" + "-" + "000000000000"

  /** The digest of a step id, cut to 32 hex digits; taken to be injective. */
  type Digest = int -> string

  ghost predicate GoodDigest(token: Digest) {
    && (forall i :: |token(i)| == 32 && AllHex(token(i)))
    && (forall i, j | i != j :: token(i) != token(j))
  }

  function ReceiptFor(id: int, step: Step, token: Digest): Receipt
    requires step.finishedAt.Is?
  {
    var cleaned := step.finishedAt.value;
    Receipt(step.runId, id, step.generation, 1, step.provider, token(id), LEGACY_BOOT_ID, 0, 0, Cleaned,
            Null, Null, Null, Null, Null, Null, Null, Null,
            if step.startedAt.Is? then step.startedAt.value else cleaned, cleaned, Is(cleaned))
  }

  /** The receipt is the cleaned first attempt of the step, with the step's own times, a boot that never was,
      and no trace of a process or of Codex. */
  ghost predicate Records(r: Receipt, id: int, step: Step, token: Digest) {
    && r.runId == step.runId && r.stepId == id && r.generation == step.generation && r.attempt == 1
    && r.provider == step.provider && r.token == token(id)
    && r.preparedBootId == "00000000-0000-0000-0000-000000000000" && r.preparedTicks == 0 && r.preparedUid == 0
    && r.status == Cleaned && step.finishedAt == r.cleanedAt == Is(r.updatedAt)
    && Is(r.createdAt) == (if step.startedAt.Is? then step.startedAt else step.finishedAt)
    && r.processId.Null? && r.groupId.Null? && r.ticks.Null? && r.uid.Null? && r.bootId.Null?
    && r.codexHome.Null? && r.codexThread.Null? && r.cleanupError.Null?
  }

  lemma FilledRecords(order: seq<int>, steps: map<int, Step>, token: Digest)
    requires AllSafe(order, steps)
    ensures |Receipts(order, steps, token)| == |order|
    ensures forall i | 0 <= i < |order| ::
              order[i] in steps && Records(Receipts(order, steps, token)[i], order[i], steps[order[i]], token)
  {
    assert LEGACY_BOOT_ID == "00000000-0000-0000-0000-000000000000";
  }

  lemma LegacyBootIdIsOne()
    ensures IsBootId(LEGACY_BOOT_ID)
  {
    var s := LEGACY_BOOT_ID;
    assert s[..8] == "00000000" && s[9..13] == "0000" && s[14..18] == "0000" && s[19..23] == "0000";
    assert s[24..] == "000000000000";
    ZeroesAreHex("00000000");
    ZeroesAreHex("0000");
    ZeroesAreHex("000000000000");
    hide AllHex;
  }

  lemma ZeroesAreHex(s: string)
    requires forall i | 0 <= i < |s| :: s[i] == '0'
    ensures AllHex(s)
  {
  }

  predicate SafeStep(id: int, step: Step) {
    && step.runId > 0 && id > 0 && step.generation >= 0 && step.provider in {Claude, Codex} && step.finishedAt.Is?
  }

  lemma FilledIsCleaned(id: int, step: Step, token: Digest)
    requires SafeStep(id, step) && |token(id)| == 32 && AllHex(token(id))
    ensures Admitted(ReceiptFor(id, step, token)) && CleanedShape(ReceiptFor(id, step, token)) == True
  {
    var r := ReceiptFor(id, step, token);
    HexCheckIff(Is(r.token), 32);
    LegacyBootIdIsOne();
    BootIdCheckIff(Is(r.preparedBootId));
    hide HexCheck, BootIdCheck, IsBootId, AllHex;
  }

  predicate AllSafe(order: seq<int>, steps: map<int, Step>) {
    forall i | 0 <= i < |order| :: order[i] in steps && SafeStep(order[i], steps[order[i]])
  }

  function Receipts(order: seq<int>, steps: map<int, Step>, token: Digest): (rows: seq<Receipt>)
    requires AllSafe(order, steps)
  {
    seq(|order|, i requires 0 <= i < |order| => ReceiptFor(order[i], steps[order[i]], token))
  }

  predicate TableHolds(rows: seq<Receipt>) { Keyed(rows) && forall i | 0 <= i < |rows| :: Admitted(rows[i]) }

  /** What the keys and the CHECKs let the table hold. */
  lemma TableMeans(rows: seq<Receipt>)
    ensures TableHolds(rows) <==>
            && (forall i, j | 0 <= i < |rows| && 0 <= j < |rows| && i != j ::
                  rows[i].token != rows[j].token && (rows[i].stepId != rows[j].stepId || rows[i].attempt != rows[j].attempt))
            && (forall i | 0 <= i < |rows| :: Admitted(rows[i]))
  {
    hide Admitted;
  }

  lemma ReceiptsHold(order: seq<int>, steps: map<int, Step>, token: Digest)
    requires AllSafe(order, steps) && GoodDigest(token)
    requires forall i, j | 0 <= i < j < |order| :: order[i] < order[j]
    ensures TableHolds(Receipts(order, steps, token))
  {
    hide Admitted;
    var rows := Receipts(order, steps, token);
    forall i | 0 <= i < |rows| ensures Admitted(rows[i]) { FilledIsCleaned(order[i], steps[order[i]], token); }
  }

  /** The CHECK the upgrade puts on the runs, with the new column. */
  function CancellationShape(target: Nullable<int>, run: Run): Truth {
    var following := if target.Null? then Null else Is(target.value + 1);
    Or(And(IsNull(target), Of(run.status != Cancelling)),
       And(And(IsNotNull(target), AtLeast(target, Is(0))),
           And(Eq(Is(run.generation), following), Of(run.status in {Cancelling, Cancelled}))))
  }

  /** A run is cancelling exactly while it knows, or has known, the generation it cancels. */
  lemma CancellationIff(target: Nullable<int>, run: Run)
    ensures CancellationShape(target, run) != Unknown
    ensures Admits(CancellationShape(target, run)) <==>
            if target.Null? then run.status != Cancelling
            else target.value >= 0 && run.generation == target.value + 1 && run.status in {Cancelling, Cancelled}
  {
  }

  /** The new column and its CHECK on every run. */
  predicate TargetsHold(targets: map<int, Nullable<int>>, runs: map<int, Run>) {
    && targets.Keys == runs.Keys
    && forall i | i in runs :: Admits(CancellationShape(targets[i], runs[i]))
  }

  // ---- The tables ----

  class Tables {
    var plans: map<int, Plan>
    var runs: map<int, Run>
    var steps: map<int, Step>
    var targets: map<int, Nullable<int>>  // cancellation_target_generation by run, while the column exists
    var receipts: seq<Receipt>
    var upgraded: bool

    /** What the constraints of the revision in force keep. */
    ghost predicate Valid()
      reads this
    {
      && TableHolds(receipts)
      && (if upgraded then TargetsHold(targets, runs) else receipts == [] && targets == map[])
    }

    /** One INSERT of several rows: all of them or, when a constraint fails, none. */
    method Insert(batch: seq<Receipt>) returns (inserted: bool)
      modifies this`receipts
      ensures inserted == TableHolds(old(receipts) + batch)
      ensures receipts == if inserted then old(receipts) + batch else old(receipts)
    {
      inserted := TableHolds(receipts + batch);
      if inserted { receipts := receipts + batch; }
    }

    /** The back-fill in batches of a thousand. On the steps the preconditions let through no INSERT fails. */
    method BackFill(order: seq<int>, token: Digest) returns (inserted: bool)
      requires receipts == [] && AllSafe(order, steps)
      requires TableHolds(Receipts(order, steps, token))
      modifies this`receipts
      ensures inserted && receipts == Receipts(order, steps, token)
    {
      hide TableHolds, Admitted;
      ghost var all := Receipts(order, steps, token);
      var batch: seq<Receipt> := [];
      for i := 0 to |order|
        invariant receipts + batch == all[..i] && |batch| < 1000
      {
        batch := batch + [ReceiptFor(order[i], steps[order[i]], token)];
        assert receipts + batch == all[..i + 1];
        if |batch| == 1000 {
          PrefixHolds(all, i + 1);
          inserted := Insert(batch);
          if !inserted { return; }
          batch := [];
        }
      }
      assert all[..|order|] == all;
      if batch != [] {
        inserted := Insert(batch);
        if !inserted { return; }
      }
      inserted := true;
    }

    /** The upgrade is refused exactly on the preflight queries: a run is cancelling, a Worker run is not
        over, or a Step is not. Otherwise no run, step or plan changes, and each local step has one
        cleaned first attempt. */
    method Upgrade(order: seq<int>, token: Digest) returns (refused: bool)
      requires Valid() && !upgraded && Listed(order, steps) && GoodDigest(token)
      modifies this`receipts, this`targets, this`upgraded
      ensures Valid() && (refused <==> !AllOver(plans, runs, steps))
      ensures refused ==> !upgraded
      ensures !refused ==> upgraded && AllSafe(order, steps) && receipts == Receipts(order, steps, token)
      ensures !refused ==>
                && |receipts| == |order|
                && forall i | 0 <= i < |order| :: order[i] in steps && Records(receipts[i], order[i], steps[order[i]], token)
      ensures !refused ==> forall id | id in steps && steps[id].workerId.Null? && steps[id].workerStepId.Null? ::
                exists i | 0 <= i < |receipts| :: receipts[i].stepId == id
      ensures !refused ==> targets == map i | i in runs :: Null
    {
      hide TableHolds, Admitted, UnsafeRun, UnsafeStep, RunIsOver, StepIsOver;
      RefusedIff(plans, runs, steps);
      refused := Refused(plans, runs, steps);
      if refused { return; }
      AcceptedIsSafe(plans, runs, steps, order);
      ReceiptsHold(order, steps, token);
      FilledRecords(order, steps, token);
      targets := map i | i in runs :: Null;
      var inserted := BackFill(order, token);
      upgraded := true;
      forall id | id in steps && steps[id].workerId.Null? && steps[id].workerStepId.Null?
        ensures exists i | 0 <= i < |receipts| :: receipts[i].stepId == id
      {
        assert id in order;
        var i :| 0 <= i < |order| && order[i] == id;
        assert receipts[i].stepId == id;
      }
    }

    /** The downgrade is refused exactly when its rows are not all accounted for. */
    method Downgrade() returns (refused: bool)
      requires Valid() && upgraded
      modifies this`receipts, this`targets, this`upgraded
      ensures Valid() && (refused <==> !old(AccountedFor(receipts, runs, steps, targets)))
      ensures if refused then upgraded && receipts == old(receipts) && targets == old(targets) else !upgraded
    {
      hide TableHolds, Unclean, AccountedFor, TargetsHold;
      UncleanIff(receipts, runs, steps, targets);
      refused := Unclean(receipts, runs, steps, targets);
      if refused { return; }
      assert TableHolds([]) by { NothingHolds(); }
      receipts, targets, upgraded := [], map[], false;
    }

    /** Up and down again: what the upgrade accepts the downgrade accepts, and every table is as it was. */
    method UpAndDown(order: seq<int>, token: Digest) returns (refused: bool)
      requires Valid() && !upgraded && Listed(order, steps) && GoodDigest(token)
      modifies this`receipts, this`targets, this`upgraded
      ensures refused <==> !AllOver(plans, runs, steps)
      ensures Valid() && !upgraded && receipts == old(receipts) && targets == old(targets)
    {
      hide TableHolds, TargetsHold, Unclean, AccountedFor, AllOver, Refused;
      refused := Upgrade(order, token);
      if !refused {
        RefusedIff(plans, runs, steps);
        FilledIsClean(plans, runs, steps, order, token);
        UncleanIff(receipts, runs, steps, targets);
        var held := Downgrade();
        assert !held;
      }
    }
  }

  lemma NothingHolds()
    ensures TableHolds([])
  {
  }

  lemma PrefixHolds(rows: seq<Receipt>, n: nat)
    requires TableHolds(rows) && n <= |rows|
    ensures TableHolds(rows[..n])
  {
    hide Admitted;
  }

  lemma AcceptedIsSafe(plans: map<int, Plan>, runs: map<int, Run>, steps: map<int, Step>, order: seq<int>)
    requires !Refused(plans, runs, steps) && Listed(order, steps)
    ensures AllSafe(order, steps)
  {
    hide UnsafeRun, UnsafeStep;
    forall i | 0 <= i < |order| ensures order[i] in steps && SafeStep(order[i], steps[order[i]]) {
      assert order[i] in order;
      StepIsSafe(order[i], steps[order[i]], runs);
    }
  }

  lemma StepIsSafe(id: int, step: Step, runs: map<int, Run>)
    requires !Selects(UnsafeStep(id, step, runs))
    ensures SafeStep(id, step) && step.runId in runs && step.status in TERMINAL
    ensures IsLegacy(step) <==> runs[step.runId].workerId.Null?
  {
  }

  // ---- The downgrade's queries ----

  predicate IsLeast(x: int, s: set<int>) { x in s && forall y | y in s :: x <= y }

  predicate IsMost(x: int, s: set<int>) { x in s && forall y | y in s :: y <= x }

  /** HAVING MIN (attempt) != 1 OR COUNT (*) != MAX (attempt). */
  predicate AttemptsMalformed(rows: seq<Receipt>, step: int) {
    var attempts := Attempts(rows, step);
    attempts != {} && !(IsLeast(1, attempts) && IsMost(|StepRows(rows, step)|, attempts))
  }

  predicate GraphBroken(r: Receipt, runs: map<int, Run>, steps: map<int, Step>) {
    || r.stepId !in steps || r.runId !in runs
    || r.runId != steps[r.stepId].runId || r.generation != steps[r.stepId].generation
    || r.provider != steps[r.stepId].provider
  }

  /** The five queries of the downgrade together. */
  predicate Unclean(rows: seq<Receipt>, runs: map<int, Run>, steps: map<int, Step>, targets: map<int, Nullable<int>>) {
    || (exists i | 0 <= i < |rows| :: CleanedShape(rows[i]) != True)
    || (exists i | 0 <= i < |rows| :: GraphBroken(rows[i], runs, steps))
    || (exists i | 0 <= i < |rows| :: AttemptsMalformed(rows, rows[i].stepId))
    || (exists id | id in steps :: IsLegacy(steps[id]) && forall i | 0 <= i < |rows| :: rows[i].stepId != id)
    || (exists id | id in runs :: runs[id].status == Cancelling || (id in targets && targets[id].Is?))
  }

  /** The attempts of the step are 1, 2, ..., n. */
  ghost predicate Gapless(rows: seq<Receipt>, step: int) { exists n: nat :: Attempts(rows, step) == UpTo(n) }

  /** MIN != 1 OR COUNT != MAX selects a step exactly when its attempts are not 1, 2, ..., n. */
  lemma MalformedIffGap(rows: seq<Receipt>, step: int)
    requires Keyed(rows)
    ensures AttemptsMalformed(rows, step) <==> !Gapless(rows, step)
  {
    hide Keyed, Attempts, StepRows;
    CountIsAttempts(rows, step);
    var attempts := Attempts(rows, step);
    if attempts == {} {
      assert attempts == UpTo(0);
    } else if !AttemptsMalformed(rows, step) {
      AggregatesIffGapless(attempts, 1, |attempts|);
    } else if n: nat :| attempts == UpTo(n) {
      AggregatesIffGapless(attempts, 1, n);
    }
  }

  predicate HasReceipt(rows: seq<Receipt>, step: int) { exists i | 0 <= i < |rows| :: rows[i].stepId == step }

  /** The receipt is one of its step, and the step one of its run. */
  ghost predicate OnGraph(r: Receipt, runs: map<int, Run>, steps: map<int, Step>) {
    && r.runId in runs && r.stepId in steps && steps[r.stepId].runId == r.runId
    && steps[r.stepId].generation == r.generation && steps[r.stepId].provider == r.provider
  }

  lemma GraphIs(r: Receipt, runs: map<int, Run>, steps: map<int, Step>)
    ensures GraphBroken(r, runs, steps) <==> !OnGraph(r, runs, steps)
  {
  }

  /** For some n the step has exactly the attempts 1, 2, ..., n. */
  ghost predicate AttemptsCount(rows: seq<Receipt>, step: int) { exists n: nat :: CountsTo(rows, step, n) }

  ghost predicate CountsTo(rows: seq<Receipt>, step: int, n: nat) {
    forall a: int :: HasAttempt(rows, step, a) <==> 1 <= a <= n
  }

  predicate HasAttempt(rows: seq<Receipt>, step: int, a: int) {
    exists i | 0 <= i < |rows| :: rows[i].stepId == step && rows[i].attempt == a
  }

  lemma CountIs(rows: seq<Receipt>, step: int)
    ensures Gapless(rows, step) <==> AttemptsCount(rows, step)
  {
    hide Attempts, HasAttempt;
    forall a: int ensures a in Attempts(rows, step) <==> HasAttempt(rows, step, a) { AttemptIs(rows, step, a); }
    if Gapless(rows, step) {
      var n: nat :| Attempts(rows, step) == UpTo(n);
      assert CountsTo(rows, step, n);
    }
    if AttemptsCount(rows, step) {
      var n: nat :| CountsTo(rows, step, n);
      assert Attempts(rows, step) == UpTo(n);
    }
  }

  lemma AttemptIs(rows: seq<Receipt>, step: int, a: int)
    ensures a in Attempts(rows, step) <==> HasAttempt(rows, step, a)
  {
  }

  /** What the downgrade asks of the rows: every receipt cleaned and like its step and run, the attempts
      of every step 1, 2, ..., n, a receipt for every local step, and no run with a target generation. */
  ghost predicate AccountedFor(rows: seq<Receipt>, runs: map<int, Run>, steps: map<int, Step>, targets: map<int, Nullable<int>>) {
    && (forall i | 0 <= i < |rows| :: rows[i].status == Cleaned && OnGraph(rows[i], runs, steps))
    && (forall step: int :: AttemptsCount(rows, step))
    && (forall id | id in steps && steps[id].workerId.Null? && steps[id].workerStepId.Null? :: HasReceipt(rows, id))
    && (forall id | id in runs :: id in targets && targets[id].Null?)
  }

  lemma NoReceiptIsGapless(rows: seq<Receipt>, step: int)
    requires !HasReceipt(rows, step)
    ensures Gapless(rows, step)
  {
    assert Attempts(rows, step) == UpTo(0);
  }

  lemma GapsAreMalformed(rows: seq<Receipt>)
    requires Keyed(rows)
    ensures (exists i | 0 <= i < |rows| :: AttemptsMalformed(rows, rows[i].stepId)) <==> exists step: int :: !Gapless(rows, step)
  {
    hide Keyed, AttemptsMalformed, Gapless;
    forall i | 0 <= i < |rows| ensures AttemptsMalformed(rows, rows[i].stepId) <==> !Gapless(rows, rows[i].stepId) {
      MalformedIffGap(rows, rows[i].stepId);
    }
    if step: int :| !Gapless(rows, step) {
      if !HasReceipt(rows, step) { NoReceiptIsGapless(rows, step); }
    }
  }

  /** On rows the constraints hold of, the five queries find something exactly when some row is not
      accounted for. The CHECK on runs leaves none cancelling without a target. */
  lemma UncleanIff(rows: seq<Receipt>, runs: map<int, Run>, steps: map<int, Step>, targets: map<int, Nullable<int>>)
    requires TableHolds(rows) && TargetsHold(targets, runs)
    ensures Unclean(rows, runs, steps, targets) <==> !AccountedFor(rows, runs, steps, targets)
  {
    hide Admitted, CleanedShape, GraphBroken, OnGraph, Gapless, AttemptsCount, AttemptsMalformed, CancellationShape;
    forall i | 0 <= i < |rows|
      ensures CleanedShape(rows[i]) == True <==> rows[i].status == Cleaned
      ensures GraphBroken(rows[i], runs, steps) <==> !OnGraph(rows[i], runs, steps)
    {
      CleanedIffStatus(rows[i]);
      GraphIs(rows[i], runs, steps);
    }
    GapsAreMalformed(rows);
    forall step: int ensures Gapless(rows, step) <==> AttemptsCount(rows, step) { CountIs(rows, step); }
    forall id | id in runs ensures targets[id].Null? ==> runs[id].status != Cancelling {
      CancellationIff(targets[id], runs[id]);
    }
    assert forall id :: HasReceipt(rows, id) <==> !(forall i | 0 <= i < |rows| :: rows[i].stepId != id);
  }

  lemma FilledAttempts(order: seq<int>, steps: map<int, Step>, token: Digest, i: nat)
    requires AllSafe(order, steps) && i < |order|
    ensures !AttemptsMalformed(Receipts(order, steps, token), order[i])
    requires forall i, j | 0 <= i < j < |order| :: order[i] < order[j]
  {
    var rows := Receipts(order, steps, token);
    assert rows[i].stepId == order[i];
    assert StepRows(rows, order[i]) == {i};
    assert Attempts(rows, order[i]) == {1} by { assert rows[i].attempt == 1; }
  }

  /** Every database the upgrade accepts and fills is accepted by the downgrade. */
  lemma FilledIsClean(plans: map<int, Plan>, runs: map<int, Run>, steps: map<int, Step>, order: seq<int>, token: Digest)
    requires !Refused(plans, runs, steps) && Listed(order, steps) && GoodDigest(token) && AllSafe(order, steps)
    ensures !Unclean(Receipts(order, steps, token), runs, steps, map i | i in runs :: Null)
  {
    hide UnsafeRun, UnsafeStep, CleanedShape, AttemptsMalformed, Admitted;
    var rows := Receipts(order, steps, token);
    forall i | 0 <= i < |rows|
      ensures CleanedShape(rows[i]) == True && !GraphBroken(rows[i], runs, steps) && !AttemptsMalformed(rows, rows[i].stepId)
    {
      FilledIsCleaned(order[i], steps[order[i]], token);
      StepIsSafe(order[i], steps[order[i]], runs);
      FilledAttempts(order, steps, token, i);
    }
    forall id | id in steps && IsLegacy(steps[id]) ensures exists i | 0 <= i < |rows| :: rows[i].stepId == id {
      assert id in order;
      var i :| 0 <= i < |order| && order[i] == id;
      assert rows[i].stepId == id;
    }
  }
}
