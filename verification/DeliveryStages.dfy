/** The delivery tables of alembic/versions/9e5b2a7c4d10_add_delivery_loop_state.py, and the stage that
    alembic/versions/a7d4e9c2f610_add_delivery_frontend_review_stage.py adds and takes away. Each
    revision is one transaction, as on SQLite and PostgreSQL. */
module DeliveryStages {
  import opened ThreeValued

  /** The phases of runs and the statuses of cycles share one vocabulary here. */
  datatype Stage =
    | Planning | Coding | PreReview | FrontendReview | Publishing | Monitoring | Done
    | Completed | Failed | Cancelled | Superseded | OtherStage(text: string)

  datatype Vocabulary = Vocabulary(phases: set<Stage>, statuses: set<Stage>, active: set<Stage>)

  const LEGACY: Vocabulary := Vocabulary(
    {Planning, Coding, PreReview, Publishing, Monitoring, Done},
    {Planning, Coding, PreReview, Publishing, Completed, Failed, Cancelled, Superseded},
    {Planning, Coding, PreReview, Publishing})

  const WIDENED: Vocabulary := Vocabulary(
    {Planning, Coding, PreReview, FrontendReview, Publishing, Monitoring, Done},
    {Planning, Coding, PreReview, FrontendReview, Publishing, Completed, Failed, Cancelled, Superseded},
    {Planning, Coding, PreReview, FrontendReview, Publishing})

  datatype Evidence = Evidence(
    runId: Nullable<string>, verdict: Nullable<string>, summary: Nullable<string>, skipReason: Nullable<string>)

  const NO_EVIDENCE := Evidence(Null, Null, Null, Null)

  datatype Run = Run(phase: Stage)
  datatype Cycle = Cycle(runId: int, activeRunId: Nullable<int>, status: Stage, number: int, version: int, evidence: Evidence)

  function PhaseCheck(w: Vocabulary, r: Run): Truth { Of(r.phase in w.phases) }

  function StatusCheck(w: Vocabulary, c: Cycle): Truth { Of(c.status in w.statuses) }

  function ActiveSlotCheck(w: Vocabulary, c: Cycle): Truth {
    Or(And(Of(c.status in w.active), And(IsNotNull(c.activeRunId), Eq(c.activeRunId, Is(c.runId)))),
       And(Not(Of(c.status in w.active)), IsNull(c.activeRunId)))
  }

  predicate CycleAdmitted(w: Vocabulary, c: Cycle) {
    Admits(StatusCheck(w, c)) && Admits(ActiveSlotCheck(w, c)) && c.number >= 1 && c.version >= 1
  }

  predicate RowsAdmitted(w: Vocabulary, runs: map<nat, Run>, cycles: map<nat, Cycle>) {
    && (forall i | i in runs :: Admits(PhaseCheck(w, runs[i])))
    && (forall i | i in cycles :: CycleAdmitted(w, cycles[i]))
  }

  predicate KeysHold(cycles: map<nat, Cycle>) {
    forall i, j | i in cycles && j in cycles && i != j ::
      && Eq(cycles[i].activeRunId, cycles[j].activeRunId) != True
      && Eq(cycles[i].evidence.runId, cycles[j].evidence.runId) != True
      && !(cycles[i].runId == cycles[j].runId && cycles[i].number == cycles[j].number)
  }

  // ---- Widening and narrowing ----

  predicate InStage(runs: map<nat, Run>, cycles: map<nat, Cycle>) {
    || (exists i | i in runs :: runs[i].phase == FrontendReview)
    || (exists i | i in cycles :: cycles[i].status == FrontendReview)
  }

  lemma CycleWidens(c: Cycle)
    ensures CycleAdmitted(LEGACY, c) <==> CycleAdmitted(WIDENED, c) && c.status != FrontendReview
  {
  }

  lemma RunWidens(r: Run)
    ensures Admits(PhaseCheck(LEGACY, r)) <==> Admits(PhaseCheck(WIDENED, r)) && r.phase != FrontendReview
  {
  }

  /** The legacy constraints hold exactly where the widened ones hold and nothing is in the new stage:
      so widening admits every legacy row, and the count the downgrade takes decides narrowing. */
  lemma LegacyIffWidenedAndLeft(runs: map<nat, Run>, cycles: map<nat, Cycle>)
    ensures RowsAdmitted(LEGACY, runs, cycles) <==> RowsAdmitted(WIDENED, runs, cycles) && !InStage(runs, cycles)
  {
    hide PhaseCheck, CycleAdmitted;
    forall i | i in runs
      ensures Admits(PhaseCheck(LEGACY, runs[i])) <==> Admits(PhaseCheck(WIDENED, runs[i])) && runs[i].phase != FrontendReview
    {
      RunWidens(runs[i]);
    }
    forall i | i in cycles
      ensures CycleAdmitted(LEGACY, cycles[i]) <==> CycleAdmitted(WIDENED, cycles[i]) && cycles[i].status != FrontendReview
    {
      CycleWidens(cycles[i]);
    }
  }

  /** The stage is what widening lets in, and all it lets in: a run in it, and a cycle in it that holds its
      run's slot. */
  lemma WidenedAdmitsStage(r: Run, c: Cycle)
    ensures Admits(PhaseCheck(WIDENED, r)) <==> Admits(PhaseCheck(LEGACY, r)) || r.phase == FrontendReview
    ensures CycleAdmitted(WIDENED, c) <==>
            || CycleAdmitted(LEGACY, c)
            || (c.status == FrontendReview && c.activeRunId == Is(c.runId) && c.number >= 1 && c.version >= 1)
  {
  }

  /** What the legacy CHECKs admit: the phases, and the statuses with the slot they go with. */
  lemma LegacyMeans(r: Run, c: Cycle)
    ensures Admits(PhaseCheck(LEGACY, r)) <==> r.phase in {Planning, Coding, PreReview, Publishing, Monitoring, Done}
    ensures CycleAdmitted(LEGACY, c) <==>
            && c.number >= 1 && c.version >= 1
            && (|| (c.status in {Planning, Coding, PreReview, Publishing} && c.activeRunId == Is(c.runId))
                || (c.status in {Completed, Failed, Cancelled, Superseded} && c.activeRunId.Null?))
  {
  }

  /** What the keys refuse: two cycles in one run's slot, with one review run, or with one number in a run. */
  lemma KeysMean(cycles: map<nat, Cycle>)
    ensures KeysHold(cycles) <==>
            forall i, j | i in cycles && j in cycles && i != j ::
              && (cycles[i].activeRunId.Is? ==> cycles[i].activeRunId != cycles[j].activeRunId)
              && (cycles[i].evidence.runId.Is? ==> cycles[i].evidence.runId != cycles[j].evidence.runId)
              && (cycles[i].runId == cycles[j].runId ==> cycles[i].number != cycles[j].number)
  {
  }

  /** The slot is the run exactly while the status is an active one. */
  lemma SlotFollowsStatus(w: Vocabulary, c: Cycle)
    requires CycleAdmitted(w, c)
    ensures c.activeRunId == if c.status in w.active then Is(c.runId) else Null
  {
  }

  /** One active cycle per run, at most. */
  lemma OneActiveCycle(w: Vocabulary, cycles: map<nat, Cycle>, i: nat, j: nat)
    requires i in cycles && j in cycles && CycleAdmitted(w, cycles[i]) && CycleAdmitted(w, cycles[j]) && KeysHold(cycles)
    requires cycles[i].status in w.active && cycles[j].status in w.active && cycles[i].runId == cycles[j].runId
    ensures i == j
  {
    hide CycleAdmitted;
    SlotFollowsStatus(w, cycles[i]);
    SlotFollowsStatus(w, cycles[j]);
  }

  function WithoutEvidence(cycles: map<nat, Cycle>): map<nat, Cycle> {
    map i | i in cycles :: cycles[i].(evidence := NO_EVIDENCE)
  }

  // ---- The tables ----

  /** The two tables under one of the two revisions. Before the upgrade there are no evidence columns. */
  class Tables {
    var widened: bool
    var runs: map<nat, Run>
    var cycles: map<nat, Cycle>

    function InForce(): Vocabulary
      reads this
    {
      if widened then WIDENED else LEGACY
    }

    ghost predicate Valid()
      reads this
    {
      && RowsAdmitted(InForce(), runs, cycles) && KeysHold(cycles)
      && (!widened ==> forall i | i in cycles :: cycles[i].evidence == NO_EVIDENCE)
    }

    constructor ()
      ensures Valid() && !widened && runs == map[] && cycles == map[]
    {
      widened, runs, cycles := false, map[], map[];
    }

    /** Any write by the application: the server takes it exactly when the constraints in force hold. */
    method Write(newRuns: map<nat, Run>, newCycles: map<nat, Cycle>) returns (taken: bool)
      requires Valid()
      requires !widened ==> forall i | i in newCycles :: newCycles[i].evidence == NO_EVIDENCE
      modifies this
      ensures Valid() && widened == old(widened)
      ensures taken == (RowsAdmitted(InForce(), newRuns, newCycles) && KeysHold(newCycles))
      ensures runs == (if taken then newRuns else old(runs)) && cycles == if taken then newCycles else old(cycles)
    {
      taken := RowsAdmitted(InForce(), newRuns, newCycles) && KeysHold(newCycles);
      if taken { runs, cycles := newRuns, newCycles; }
    }

    /** The upgrade keeps every row and cannot fail on one. */
    method Upgrade()
      requires Valid() && !widened
      modifies this
      ensures Valid() && widened && runs == old(runs) && cycles == old(cycles)
    {
      LegacyIffWidenedAndLeft(runs, cycles);
      widened := true;
    }

    /** The downgrade is refused exactly while something is in the stage, and then changes nothing;
        otherwise every row stays, less the evidence of the stage. */
    method Downgrade() returns (refused: bool)
      requires Valid() && widened
      modifies this
      ensures Valid() && refused == old(InStage(runs, cycles)) && widened == refused
      ensures runs == old(runs) && cycles == if refused then old(cycles) else WithoutEvidence(old(cycles))
    {
      refused := InStage(runs, cycles);
      if refused { return; }
      LegacyIffWidenedAndLeft(runs, cycles);
      EvidenceIsFree(cycles);
      widened, cycles := false, WithoutEvidence(cycles);
    }
  }

  lemma EvidenceIsFree(cycles: map<nat, Cycle>)
    requires KeysHold(cycles)
    ensures KeysHold(WithoutEvidence(cycles))
    ensures (forall i | i in cycles :: CycleAdmitted(LEGACY, cycles[i])) ==>
            forall i | i in cycles :: CycleAdmitted(LEGACY, WithoutEvidence(cycles)[i])
  {
    hide LEGACY;
  }

  // ---- Histories ----

  datatype State = State(widened: bool, runs: map<nat, Run>, cycles: map<nat, Cycle>)

  datatype Step = Wrote(runs: map<nat, Run>, cycles: map<nat, Cycle>) | Upgraded | Downgraded

  function VocabularyOf(s: State): Vocabulary { if s.widened then WIDENED else LEGACY }

  predicate Sound(s: State) { RowsAdmitted(VocabularyOf(s), s.runs, s.cycles) && KeysHold(s.cycles) }

  /** What one step makes of a state, refusals included. */
  function After(s: State, step: Step): State {
    match step
    case Wrote(runs, cycles) =>
      if RowsAdmitted(VocabularyOf(s), runs, cycles) && KeysHold(cycles) then s.(runs := runs, cycles := cycles) else s
    case Upgraded => if s.widened then s else s.(widened := true)
    case Downgraded =>
      if !s.widened || InStage(s.runs, s.cycles) then s else State(false, s.runs, WithoutEvidence(s.cycles))
  }

  function AfterAll(s: State, steps: seq<Step>): State {
    if steps == [] then s else After(AfterAll(s, steps[..|steps| - 1]), steps[|steps| - 1])
  }

  lemma {:induction false} HistoryIsSound(s: State, steps: seq<Step>)
    requires Sound(s)
    ensures Sound(AfterAll(s, steps))
  {
    hide RowsAdmitted, KeysHold, InStage;
    if steps != [] {
      HistoryIsSound(s, steps[..|steps| - 1]);
      StepIsSound(AfterAll(s, steps[..|steps| - 1]), steps[|steps| - 1]);
    }
  }

  lemma StepIsSound(s: State, step: Step)
    requires Sound(s)
    ensures Sound(After(s, step))
  {
    hide KeysHold, CycleAdmitted, InStage;
    LegacyIffWidenedAndLeft(s.runs, s.cycles);
    EvidenceIsFree(s.cycles);
  }

  /** A downgrade that is not refused keeps everything exactly when no cycle has evidence of the stage. */
  lemma EvidenceLossIsExact(s: State)
    requires Sound(s) && s.widened && !InStage(s.runs, s.cycles)
    ensures After(After(s, Downgraded), Upgraded) == s <==> forall i | i in s.cycles :: s.cycles[i].evidence == NO_EVIDENCE
  {
    hide Sound, InStage, NO_EVIDENCE;
    var t := After(s, Downgraded);
    assert forall i | i in s.cycles :: t.cycles[i] == s.cycles[i].(evidence := NO_EVIDENCE);
    if forall i | i in s.cycles :: s.cycles[i].evidence == NO_EVIDENCE {
      assert t.cycles == s.cycles;
    }
  }

  /** The input on which evidence goes: a cycle that has left the stage keeps the run and the verdict it
      got there, no query looks at them, and the downgrade drops them. */
  lemma EvidenceLossWitness() returns (s: State, i: nat)
    ensures Sound(s) && s.widened && !InStage(s.runs, s.cycles)
    ensures i in s.cycles && s.cycles[i].evidence.runId.Is? && s.cycles[i].evidence.verdict.Is?
    ensures !After(s, Downgraded).widened && After(s, Downgraded).cycles[i].evidence == NO_EVIDENCE
  {
    i := 1;
    s := State(true, map[1 := Run(Publishing)],
               map[1 := Cycle(1, Is(1), Publishing, 1, 1, Evidence(Is("run"), Is("approved"), Null, Null))]);
  }

  /** Over any history of writes, upgrades and downgrades a run never has two active cycles. */
  lemma OneActiveCycleEver(s: State, steps: seq<Step>, i: nat, j: nat)
    requires Sound(s)
    requires i in AfterAll(s, steps).cycles && j in AfterAll(s, steps).cycles
    requires AfterAll(s, steps).cycles[i].runId == AfterAll(s, steps).cycles[j].runId
    requires AfterAll(s, steps).cycles[i].status in VocabularyOf(AfterAll(s, steps)).active
    requires AfterAll(s, steps).cycles[j].status in VocabularyOf(AfterAll(s, steps)).active
    ensures i == j
  {
    hide After, AfterAll, CycleAdmitted, KeysHold, VocabularyOf;
    HistoryIsSound(s, steps);
    var t := AfterAll(s, steps);
    OneActiveCycle(VocabularyOf(t), t.cycles, i, j);
  }
}
