/** The CHECK constraints of capability_resume_outbox in three-valued logic. Three of them compare a
    column that may be NULL without saying so, and admit rows by UNKNOWN. */
module OutboxRows {
  import opened ThreeValued

  datatype Status =
    | Pending | Ready | Claiming | Claimed | Launched | Completed | Cancelled | Failed | OtherStatus(text: string)

  datatype Terminal = TerminalCompleted | TerminalFailed | TerminalCancelled | TerminalStale | OtherTerminal(text: string)

  datatype Transport = ClaudePty | ClaudeExec | CodexAppServer | CodexExec | OtherTransport(text: string)

  /** One outbox row; NOT NULL columns carry plain values. */
  datatype Row = Row(
    taskId: int, invocationId: int, activeTaskId: Nullable<int>, activeInvocationId: Nullable<int>,
    status: Status, stateVersion: int, attemptCount: int,
    incarnationId: string, retryCount: int, fromGeneration: int,
    sourceLogId: int, outputLogId: int, terminalLogId: int, nativeTurnId: Nullable<string>,
    terminal: Nullable<Terminal>, resultKind: Nullable<string>, resultId: Nullable<int>, resultHash: Nullable<string>,
    invocationErrorCode: Nullable<string>, invocationErrorMessage: Nullable<string>,
    payload: Nullable<string>, payloadHash: Nullable<string>,
    resumeSourceLogId: Nullable<int>, claimedGeneration: Nullable<int>, transport: Nullable<Transport>,
    nextAttemptAt: Nullable<int>, leaseToken: Nullable<string>, leaseExpiresAt: Nullable<int>,
    errorCode: Nullable<string>, errorMessage: Nullable<string>,
    createdAt: int, readyAt: Nullable<int>, claimedAt: Nullable<int>, launchedAt: Nullable<int>, completedAt: Nullable<int>)

  datatype Check =
    | StatusCheck | Counters | RequestIdentity | ActiveSlot | InvResult | Payload | StatusPayload
    | Claim | Lease | Backoff | Error | TransportCheck | Timeline

  function Both(a: Truth, b: Truth, c: Truth): Truth { And(a, And(b, c)) }

  function Any(a: Truth, b: Truth, c: Truth): Truth { Or(a, Or(b, c)) }

  function StatusIn(r: Row, values: set<Status>): Truth { Of(r.status in values) }

  const ACTIVE: set<Status> := {Pending, Ready, Claiming, Claimed}
  const RESUMABLE: set<Status> := {Ready, Claiming, Claimed, Launched, Completed}
  const TAKEN: set<Status> := {Claimed, Launched, Completed}
  const DEAD: set<Status> := {Cancelled, Failed}

  // ---- The expressions, as installed ----

  function RequestIdentityValue(r: Row): Truth {
    And(Both(Of(|r.incarnationId| == 32), Of(r.retryCount >= 0), Of(r.fromGeneration >= 0)),
        And(Both(Of(r.sourceLogId > 0), Of(r.outputLogId > 0), Of(r.terminalLogId > 0)),
            Or(IsNull(r.nativeTurnId), LengthAbove(r.nativeTurnId, 0))))
  }

  function ActiveSlotValue(r: Row): Truth {
    Or(And(StatusIn(r, ACTIVE),
           And(And(IsNotNull(r.activeTaskId), Eq(r.activeTaskId, Is(r.taskId))),
               And(IsNotNull(r.activeInvocationId), Eq(r.activeInvocationId, Is(r.invocationId))))),
       Both(Not(StatusIn(r, ACTIVE)), IsNull(r.activeTaskId), IsNull(r.activeInvocationId)))
  }

  function InvResultValue(r: Row): Truth {
    Or(And(Both(IsNull(r.terminal), IsNull(r.resultKind), IsNull(r.resultId)),
           Both(IsNull(r.resultHash), IsNull(r.invocationErrorCode), IsNull(r.invocationErrorMessage))),
       And(In(r.terminal, {TerminalCompleted, TerminalFailed, TerminalCancelled, TerminalStale}),
           Or(And(Eq(r.terminal, Is(TerminalCompleted)),
                  And(Both(IsNotNull(r.resultKind), IsNotNull(r.resultId), IsNotNull(r.resultHash)),
                      LengthIs(r.resultHash, 64))),
              And(Ne(r.terminal, Is(TerminalCompleted)),
                  Both(IsNull(r.resultKind), IsNull(r.resultId), IsNull(r.resultHash))))))
  }

  function PayloadValue(r: Row): Truth {
    Or(And(IsNull(r.payload), IsNull(r.payloadHash)),
       Both(IsNotNull(r.payload), IsNotNull(r.payloadHash), LengthIs(r.payloadHash, 64)))
  }

  function StatusPayloadValue(r: Row): Truth {
    Any(Both(StatusIn(r, {Pending}), IsNull(r.terminal), IsNull(r.payload)),
        Both(StatusIn(r, RESUMABLE), IsNotNull(r.terminal), IsNotNull(r.payload)),
        StatusIn(r, DEAD))
  }

  function Unclaimed(r: Row): Truth {
    Both(IsNull(r.resumeSourceLogId), IsNull(r.claimedGeneration), IsNull(r.claimedAt))
  }

  function HasClaim(r: Row): Truth {
    And(And(IsNotNull(r.resumeSourceLogId), Above(r.resumeSourceLogId, 0)),
        And(Eq(r.claimedGeneration, Is(r.fromGeneration + 1)), IsNotNull(r.claimedAt)))
  }

  function ClaimValue(r: Row): Truth {
    Any(And(StatusIn(r, TAKEN), HasClaim(r)),
        And(StatusIn(r, {Pending, Ready, Claiming}), Unclaimed(r)),
        And(StatusIn(r, DEAD), Or(Unclaimed(r), HasClaim(r))))
  }

  function HasLease(r: Row): Truth {
    Both(IsNotNull(r.leaseToken), LengthIs(r.leaseToken, 64), IsNotNull(r.leaseExpiresAt))
  }

  function NoLease(r: Row): Truth { And(IsNull(r.leaseToken), IsNull(r.leaseExpiresAt)) }

  function LeaseValue(r: Row): Truth {
    Any(Both(StatusIn(r, {Claiming}), HasLease(r), Of(r.attemptCount >= 1)),
        Both(StatusIn(r, {Claimed}), Of(r.attemptCount >= 1), Or(NoLease(r), HasLease(r))),
        And(Not(StatusIn(r, {Claiming, Claimed})), NoLease(r)))
  }

  function ErrorValue(r: Row): Truth {
    And(Or(And(IsNull(r.errorCode), IsNull(r.errorMessage)),
           Both(IsNotNull(r.errorCode), LengthAbove(r.errorCode, 0), IsNotNull(r.errorMessage))),
        Or(Not(StatusIn(r, DEAD)), IsNotNull(r.errorCode)))
  }

  function KnownTransport(r: Row): Truth { In(r.transport, {ClaudePty, ClaudeExec, CodexAppServer, CodexExec}) }

  function TransportValue(r: Row): Truth {
    Any(Both(StatusIn(r, {Launched, Completed}), KnownTransport(r), IsNotNull(r.launchedAt)),
        Both(StatusIn(r, ACTIVE), IsNull(r.transport), IsNull(r.launchedAt)),
        And(StatusIn(r, DEAD),
            Or(And(IsNull(r.transport), IsNull(r.launchedAt)),
               Both(KnownTransport(r), IsNotNull(r.launchedAt), IsNotNull(r.resumeSourceLogId)))))
  }

  function TimelineValue(r: Row): Truth {
    And(Both(Any(And(StatusIn(r, {Pending}), IsNull(r.readyAt)),
                 And(StatusIn(r, RESUMABLE), IsNotNull(r.readyAt)),
                 StatusIn(r, DEAD)),
             Or(And(StatusIn(r, {Pending, Ready, Claiming, Claimed, Launched}), IsNull(r.completedAt)),
                And(StatusIn(r, {Completed, Cancelled, Failed}), IsNotNull(r.completedAt))),
             Or(IsNull(r.readyAt), AtLeast(r.readyAt, Is(r.createdAt)))),
        Both(Or(IsNull(r.claimedAt), And(IsNotNull(r.readyAt), AtLeast(r.claimedAt, r.readyAt))),
             Or(IsNull(r.launchedAt), And(IsNotNull(r.claimedAt), AtLeast(r.launchedAt, r.claimedAt))),
             Or(IsNull(r.completedAt), AtLeast(r.completedAt, Is(r.createdAt)))))
  }

  function Value(k: Check, r: Row): Truth {
    match k
    case StatusCheck => Of(!r.status.OtherStatus?)
    case Counters => And(Of(r.stateVersion >= 1), Of(r.attemptCount >= 0))
    case RequestIdentity => RequestIdentityValue(r)
    case ActiveSlot => ActiveSlotValue(r)
    case InvResult => InvResultValue(r)
    case Payload => PayloadValue(r)
    case StatusPayload => StatusPayloadValue(r)
    case Claim => ClaimValue(r)
    case Lease => LeaseValue(r)
    case Backoff => Or(StatusIn(r, {Ready, Claimed}), IsNull(r.nextAttemptAt))
    case Error => ErrorValue(r)
    case TransportCheck => TransportValue(r)
    case Timeline => TimelineValue(r)
  }

  predicate Admitted(r: Row) { forall k: Check :: Admits(Value(k, r)) }

  // ---- Exactly when a CHECK is undecided ----

  /** A result without a terminal status, coherent in itself: the whole triple or none of it. */
  predicate ResultUndecided(r: Row) {
    && r.terminal.Null?
    && (if r.resultKind.Null? then
          r.resultId.Null? && r.resultHash.Null? && (r.invocationErrorCode.Is? || r.invocationErrorMessage.Is?)
        else
          r.resultId.Is? && r.resultHash.Is? && |r.resultHash.value| == 64)
  }

  /** A claim with its log and its instant but without a turn generation. */
  predicate ClaimUndecided(r: Row) {
    && r.status in {Claimed, Launched, Completed, Cancelled, Failed} && r.claimedGeneration.Null?
    && r.resumeSourceLogId.Is? && r.resumeSourceLogId.value > 0 && r.claimedAt.Is?
  }

  /** A launch without a transport. */
  predicate TransportUndecided(r: Row) {
    && r.transport.Null? && r.launchedAt.Is?
    && (r.status in {Launched, Completed} || (r.status in {Cancelled, Failed} && r.resumeSourceLogId.Is?))
  }

  lemma ResultUnknownIff(r: Row)
    ensures Value(InvResult, r) == Unknown <==> ResultUndecided(r)
  {
  }

  lemma ClaimUnknownIff(r: Row)
    ensures Value(Claim, r) == Unknown <==> ClaimUndecided(r)
  {
  }

  lemma TransportUnknownIff(r: Row)
    ensures Value(TransportCheck, r) == Unknown <==> TransportUndecided(r)
  {
  }

  lemma OthersAreDecided(k: Check, r: Row)
    requires k !in {InvResult, Claim, TransportCheck}
    ensures Value(k, r) != Unknown
  {
    hide InvResultValue, ClaimValue, TransportValue;
    match k
    case RequestIdentity => IdentityIsDecided(r);
    case ActiveSlot => SlotIsDecided(r);
    case Lease => LeaseIsDecided(r);
    case Timeline => TimelineIsDecided(r);
    case _ =>
  }

  lemma IdentityIsDecided(r: Row)
    ensures RequestIdentityValue(r) != Unknown
  {
  }

  lemma SlotIsDecided(r: Row)
    ensures ActiveSlotValue(r) != Unknown
  {
  }

  lemma LeaseIsDecided(r: Row)
    ensures LeaseValue(r) != Unknown
  {
  }

  lemma TimelineIsDecided(r: Row)
    ensures TimelineValue(r) != Unknown
  {
  }

  /** The whole of it: of the thirteen CHECKs only three are ever UNKNOWN, and each of them exactly on
      the rows described here. */
  lemma UnknownIff(k: Check, r: Row)
    ensures Value(k, r) == Unknown <==>
            match k
            case InvResult => ResultUndecided(r)
            case Claim => ClaimUndecided(r)
            case TransportCheck => TransportUndecided(r)
            case _ => false
  {
    hide Value;
    if k == InvResult { ResultUnknownIff(r); }
    else if k == Claim { ClaimUnknownIff(r); }
    else if k == TransportCheck { TransportUnknownIff(r); }
    else { OthersAreDecided(k, r); }
  }

  // ---- The state machine the CHECKs spell out ----

  predicate Identified(r: Row) {
    && !r.status.OtherStatus? && r.stateVersion >= 1 && r.attemptCount >= 0
    && |r.incarnationId| == 32 && r.retryCount >= 0 && r.fromGeneration >= 0
    && r.sourceLogId > 0 && r.outputLogId > 0 && r.terminalLogId > 0
    && (r.nativeTurnId.Is? ==> |r.nativeTurnId.value| > 0)
  }

  predicate SlotLawful(r: Row) {
    if r.status in {Pending, Ready, Claiming, Claimed} then
      r.activeTaskId == Is(r.taskId) && r.activeInvocationId == Is(r.invocationId)
    else r.activeTaskId.Null? && r.activeInvocationId.Null?
  }

  /** No result at all; a completed one with its triple; or another ending without it. */
  predicate ResultLawful(r: Row) {
    if r.terminal.Null? then
      && r.resultKind.Null? && r.resultId.Null? && r.resultHash.Null?
      && r.invocationErrorCode.Null? && r.invocationErrorMessage.Null?
    else if r.terminal.value == TerminalCompleted then
      r.resultKind.Is? && r.resultId.Is? && r.resultHash.Is? && |r.resultHash.value| == 64
    else
      !r.terminal.value.OtherTerminal? && r.resultKind.Null? && r.resultId.Null? && r.resultHash.Null?
  }

  predicate PayloadLawful(r: Row) {
    && (r.payload.Is? <==> r.payloadHash.Is?) && (r.payloadHash.Is? ==> |r.payloadHash.value| == 64)
    && (r.status == Pending ==> r.terminal.Null? && r.payload.Null?)
    && (r.status in {Ready, Claiming, Claimed, Launched, Completed} ==> r.terminal.Is? && r.payload.Is?)
  }

  predicate Free(r: Row) { r.resumeSourceLogId.Null? && r.claimedGeneration.Null? && r.claimedAt.Null? }

  predicate Held(r: Row) {
    && r.resumeSourceLogId.Is? && r.resumeSourceLogId.value > 0
    && r.claimedGeneration == Is(r.fromGeneration + 1) && r.claimedAt.Is?
  }

  predicate ClaimLawful(r: Row) {
    && (r.status in {Claimed, Launched, Completed} ==> Held(r))
    && (r.status in {Pending, Ready, Claiming} ==> Free(r)) && (Free(r) || Held(r))
  }

  predicate Leased(r: Row) { r.leaseToken.Is? && |r.leaseToken.value| == 64 && r.leaseExpiresAt.Is? }

  predicate LeaseLawful(r: Row) {
    && (Leased(r) || (r.leaseToken.Null? && r.leaseExpiresAt.Null?))
    && (r.status == Claiming ==> Leased(r)) && (r.status !in {Claiming, Claimed} ==> r.leaseToken.Null?)
    && (r.status in {Claiming, Claimed} ==> r.attemptCount >= 1)
    && (r.nextAttemptAt.Is? ==> r.status in {Ready, Claimed})
  }

  predicate ErrorLawful(r: Row) {
    && (r.errorCode.Is? <==> r.errorMessage.Is?) && (r.errorCode.Is? ==> |r.errorCode.value| > 0)
    && (r.status in {Cancelled, Failed} ==> r.errorCode.Is?)
  }

  predicate LaunchLawful(r: Row) {
    && (r.transport.Is? <==> r.launchedAt.Is?) && (r.transport.Is? ==> !r.transport.value.OtherTransport?)
    && (r.status in {Launched, Completed} ==> r.transport.Is?)
    && (r.status in {Pending, Ready, Claiming, Claimed} ==> r.transport.Null?)
    && (r.status in {Cancelled, Failed} && r.transport.Is? ==> r.resumeSourceLogId.Is?)
  }

  /** created <= ready <= claimed <= launched as far as they are set, none without the one before. */
  predicate TimelineLawful(r: Row) {
    && (r.status == Pending ==> r.readyAt.Null?)
    && (r.status in {Ready, Claiming, Claimed, Launched, Completed} ==> r.readyAt.Is?)
    && (r.completedAt.Is? <==> r.status in {Completed, Cancelled, Failed})
    && (r.readyAt.Is? ==> r.createdAt <= r.readyAt.value)
    && (r.claimedAt.Is? ==> r.readyAt.Is? && r.readyAt.value <= r.claimedAt.value)
    && (r.launchedAt.Is? ==> r.claimedAt.Is? && r.claimedAt.value <= r.launchedAt.value)
    && (r.completedAt.Is? ==> r.createdAt <= r.completedAt.value)
  }

  /** What the CHECKs were meant to say, except where one of the three is undecided. */
  predicate Lawful(r: Row) {
    && Identified(r) && SlotLawful(r) && PayloadLawful(r) && LeaseLawful(r) && ErrorLawful(r) && TimelineLawful(r)
    && (ResultLawful(r) || ResultUndecided(r))
    && (ClaimLawful(r) || ClaimUndecided(r))
    && (LaunchLawful(r) || TransportUndecided(r))
  }

  lemma SlotMeans(r: Row)
    ensures Admits(ActiveSlotValue(r)) <==> SlotLawful(r)
  {
  }

  lemma ResultMeans(r: Row)
    ensures Admits(InvResultValue(r)) <==> ResultLawful(r) || ResultUndecided(r)
  {
  }

  lemma PayloadMeans(r: Row)
    requires !r.status.OtherStatus?
    ensures Admits(PayloadValue(r)) && Admits(StatusPayloadValue(r)) <==> PayloadLawful(r)
  {
  }

  lemma ClaimMeans(r: Row)
    requires !r.status.OtherStatus?
    ensures Admits(ClaimValue(r)) <==> ClaimLawful(r) || ClaimUndecided(r)
  {
  }

  lemma LeaseMeans(r: Row)
    requires !r.status.OtherStatus?
    ensures Admits(LeaseValue(r)) && Admits(Value(Backoff, r)) <==> LeaseLawful(r)
  {
  }

  lemma ErrorMeans(r: Row)
    ensures Admits(ErrorValue(r)) <==> ErrorLawful(r)
  {
  }

  lemma LaunchMeans(r: Row)
    requires !r.status.OtherStatus?
    ensures Admits(TransportValue(r)) <==> LaunchLawful(r) || TransportUndecided(r)
  {
  }

  lemma TimelineMeans(r: Row)
    requires !r.status.OtherStatus?
    ensures Admits(TimelineValue(r)) <==> TimelineLawful(r)
  {
  }

  lemma IdentityMeans(r: Row)
    ensures Admits(Value(StatusCheck, r)) && Admits(Value(Counters, r)) && Admits(RequestIdentityValue(r)) <==> Identified(r)
  {
  }

  /** The thirteen CHECKs admit exactly the lawful rows: one shape per status, except that the three
      undecided comparisons let their rows through. */
  lemma AdmittedIffLawful(r: Row)
    ensures Admitted(r) <==> Lawful(r)
  {
    hide ActiveSlotValue, InvResultValue, PayloadValue, StatusPayloadValue, ClaimValue, LeaseValue, ErrorValue,
      TransportValue, TimelineValue, RequestIdentityValue, Value, Admits, Admitted, SlotLawful, ResultLawful,
      PayloadLawful, ClaimLawful, LeaseLawful, ErrorLawful, LaunchLawful, TimelineLawful, Identified,
      ResultUndecided, ClaimUndecided, TransportUndecided;
    AdmittedUnfolds(r);
    IdentityMeans(r);
    StatusKnown(r);
    SlotMeans(r);
    ResultMeans(r);
    ErrorMeans(r);
    if !r.status.OtherStatus? {
      PayloadMeans(r);
      ClaimMeans(r);
      LeaseMeans(r);
      LaunchMeans(r);
      TimelineMeans(r);
    }
  }

  lemma StatusKnown(r: Row)
    ensures Identified(r) ==> !r.status.OtherStatus?
    ensures Admits(Value(StatusCheck, r)) ==> !r.status.OtherStatus?
  {
  }

  lemma AdmittedUnfolds(r: Row)
    ensures Admitted(r) <==>
            && Admits(Value(StatusCheck, r)) && Admits(Value(Counters, r)) && Admits(RequestIdentityValue(r))
            && Admits(ActiveSlotValue(r)) && Admits(InvResultValue(r)) && Admits(PayloadValue(r))
            && Admits(StatusPayloadValue(r)) && Admits(ClaimValue(r)) && Admits(LeaseValue(r))
            && Admits(Value(Backoff, r)) && Admits(ErrorValue(r)) && Admits(TransportValue(r)) && Admits(TimelineValue(r))
  {
    hide ActiveSlotValue, InvResultValue, PayloadValue, StatusPayloadValue, ClaimValue, LeaseValue, ErrorValue,
      TransportValue, TimelineValue, RequestIdentityValue, And, Or, Not, Of, StatusIn, Admits;
    assert Value(RequestIdentity, r) == RequestIdentityValue(r) && Value(ActiveSlot, r) == ActiveSlotValue(r);
    assert Value(InvResult, r) == InvResultValue(r) && Value(Payload, r) == PayloadValue(r);
    assert Value(StatusPayload, r) == StatusPayloadValue(r) && Value(Claim, r) == ClaimValue(r);
    assert Value(Lease, r) == LeaseValue(r) && Value(Error, r) == ErrorValue(r);
    assert Value(TransportCheck, r) == TransportValue(r) && Value(Timeline, r) == TimelineValue(r);
  }

  // ---- What an admitted row may look like all the same ----

  /** A resumable row carries its payload and a terminal status, and there the result CHECK is tight. */
  lemma ResumableRow(r: Row)
    requires Admitted(r) && r.status in {Ready, Claiming, Claimed, Launched, Completed}
    ensures r.payload.Is? && r.payloadHash.Is? && |r.payloadHash.value| == 64 && r.readyAt.Is? && r.readyAt.value >= r.createdAt
    ensures r.terminal.Is? && !r.terminal.value.OtherTerminal?
    ensures r.terminal == Is(TerminalCompleted) ==>
              r.resultKind.Is? && r.resultId.Is? && r.resultHash.Is? && |r.resultHash.value| == 64
    ensures r.terminal != Is(TerminalCompleted) ==> r.resultKind.Null? && r.resultId.Null? && r.resultHash.Null?
  {
    ResultUnknownIff(r);
    assert Admits(Value(InvResult, r)) && Admits(Value(Payload, r));
    assert Admits(Value(StatusPayload, r)) && Admits(Value(Timeline, r));
  }

  /** A launched row has its claim and its launch in order. The turn generation is the next one or
      missing, and the transport is a known one or missing: nothing rules the two gaps out. */
  lemma LaunchedRow(r: Row)
    requires Admitted(r) && r.status in {Launched, Completed}
    ensures r.resumeSourceLogId.Is? && r.resumeSourceLogId.value > 0
    ensures r.readyAt.Is? && r.claimedAt.Is? && r.launchedAt.Is?
    ensures r.createdAt <= r.readyAt.value <= r.claimedAt.value <= r.launchedAt.value
    ensures r.claimedGeneration.Null? || r.claimedGeneration.value == r.fromGeneration + 1
    ensures r.transport.Null? || !r.transport.value.OtherTransport?
    ensures r.leaseToken.Null? && r.leaseExpiresAt.Null?
  {
    LaunchedClaim(r);
    LaunchedTransport(r);
    assert Admits(Value(Timeline, r)) && Admits(Value(Lease, r));
    hide Admitted, ClaimValue, TransportValue;
  }

  lemma LaunchedClaim(r: Row)
    requires Admitted(r) && r.status in {Launched, Completed}
    ensures r.resumeSourceLogId.Is? && r.resumeSourceLogId.value > 0 && r.claimedAt.Is?
    ensures r.claimedGeneration.Null? || r.claimedGeneration.value == r.fromGeneration + 1
  {
    assert Admits(Value(Claim, r));
    hide Admitted;
  }

  lemma LaunchedTransport(r: Row)
    requires Admitted(r) && r.status in {Launched, Completed}
    ensures r.launchedAt.Is? && (r.transport.Null? || !r.transport.value.OtherTransport?)
  {
    assert Admits(Value(TransportCheck, r));
    hide Admitted;
  }

  function Text(n: nat): (s: string)
    ensures |s| == n
  {
    seq(n, _ => 'a')
  }

  /** A completed resume that every CHECK admits, with neither a turn generation nor a transport. */
  lemma GapWitness() returns (r: Row)
    ensures Admitted(r) && r.status == Completed && r.claimedGeneration.Null? && r.transport.Null?
  {
    r := Row(1, 2, Null, Null, Completed, 1, 1, Text(32), 0, 0, 3, 4, 5, Null,
             Is(TerminalFailed), Null, Null, Null, Null, Null, Is("{}"), Is(Text(64)),
             Is(6), Null, Null, Null, Null, Null, Null, Null, 10, Is(11), Is(12), Is(13), Is(14));
    forall k: Check ensures Admits(Value(k, r)) { WitnessPasses(k, r); }
  }

  lemma WitnessPasses(k: Check, r: Row)
    requires r == Row(1, 2, Null, Null, Completed, 1, 1, Text(32), 0, 0, 3, 4, 5, Null,
                      Is(TerminalFailed), Null, Null, Null, Null, Null, Is("{}"), Is(Text(64)),
                      Is(6), Null, Null, Null, Null, Null, Null, Null, 10, Is(11), Is(12), Is(13), Is(14))
    ensures Admits(Value(k, r))
  {
  }

  /** A failed row whose result has a kind, an id and a hash but no terminal status. */
  lemma ResultGapWitness() returns (r: Row)
    ensures Admitted(r) && r.status == Failed && r.terminal.Null? && r.resultKind.Is?
  {
    r := Row(1, 2, Null, Null, Failed, 1, 1, Text(32), 0, 0, 3, 4, 5, Null,
             Null, Is("plan"), Is(9), Is(Text(64)), Null, Null, Null, Null,
             Null, Null, Null, Null, Null, Null, Is("e"), Is("m"), 10, Null, Null, Null, Is(14));
    ResultUnknownIff(r);
  }

  // ---- The active slots ----

  predicate Distinct(a: Nullable<int>, b: Nullable<int>) { Eq(a, b) != True }

  /** The rows of a table whose four UNIQUE constraints and CHECKs hold. */
  predicate Table(rows: map<nat, Row>) {
    && (forall i | i in rows :: Admitted(rows[i]))
    && (forall i, j | i in rows && j in rows && i != j ::
          Distinct(rows[i].activeTaskId, rows[j].activeTaskId)
          && Distinct(rows[i].activeInvocationId, rows[j].activeInvocationId))
  }

  lemma ActiveOwnsSlots(r: Row)
    requires Admitted(r)
    ensures r.status in {Pending, Ready, Claiming, Claimed} ==>
              r.activeTaskId == Is(r.taskId) && r.activeInvocationId == Is(r.invocationId)
    ensures r.status !in {Pending, Ready, Claiming, Claimed} ==> r.activeTaskId.Null? && r.activeInvocationId.Null?
  {
    assert Admits(Value(ActiveSlot, r));
    hide Admitted;
  }

  /** At most one row of a Task, and one of an invocation, is active; the others never block a slot. */
  lemma OneActiveRow(rows: map<nat, Row>, i: nat, j: nat)
    requires Table(rows) && i in rows && j in rows
    requires rows[i].status in {Pending, Ready, Claiming, Claimed} && rows[j].status in {Pending, Ready, Claiming, Claimed}
    requires rows[i].taskId == rows[j].taskId || rows[i].invocationId == rows[j].invocationId
    ensures i == j
  {
    hide Admitted;
    ActiveOwnsSlots(rows[i]);
    ActiveOwnsSlots(rows[j]);
  }
}
