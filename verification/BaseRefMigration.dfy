/** alembic/versions/2b8d4f6a1c90_freeze_pr_review_base_ref.py: the upgrade where DDL commits by itself. */
module BaseRefMigration {
  import opened ThreeValued
  import opened Relational
  import opened MySql

  predicate ReviewsSchema(t: Table) {
    && {RepoId, PrNumber, BaseSha, HeadSha} <= t.columns && t.required <= t.columns
    && t.checks == {} && t.keys <= {OldSubjectKey, NewSubjectKey}
    && (OldSubjectKey in t.keys || NewSubjectKey in t.keys)
    && (NewSubjectKey in t.keys ==> BaseRef in t.required)
  }

  predicate QueueSchema(t: Table) {
    && {RunId, TriggerHead, ReviewId} <= t.columns && t.required <= t.columns
    && t.checks == {} && t.keys <= {OldQueueKey, NewQueueKey}
    && (OldQueueKey in t.keys || NewQueueKey in t.keys)
  }

  /** Some subject key and some queue key is enforced in every state a run can reach. */
  predicate Schema(db: Db) {
    && db.Keys == {Reviews, QueueActions, Repos}
    && ReviewsSchema(db[Reviews]) && QueueSchema(db[QueueActions]) && DefaultBranch in db[Repos].columns
    && (NewQueueKey in db[QueueActions].keys ==> db[Reviews].keys == {NewSubjectKey})
  }

  predicate Frozen(db: Db)
    requires Schema(db)
  {
    && BaseRef in db[Reviews].required && db[Reviews].keys == {NewSubjectKey}
    && db[QueueActions].keys == {NewQueueKey}
  }

  const AddBaseRef := NoChange.(addColumns := {BaseRef})
  const RequireBaseRef := NoChange.(require := {BaseRef})
  const Backfill := FillNulls(Reviews, BaseRef, RepoId, Repos, DefaultBranch)

  function AddKey(k: Key): Change { NoChange.(addKeys := {k}) }

  function DropKey(k: Key): Change { NoChange.(dropKeys := {k}) }

  /** The one DDL statement owed; the back-fill may run whenever the column exists. */
  function NextUpgrade(db: Db): Nullable<Statement>
    requires Schema(db)
  {
    var t, q := db[Reviews], db[QueueActions];
    if BaseRef !in t.columns then Is(Alter(Reviews, AddBaseRef))
    else if BaseRef !in t.required then Is(Alter(Reviews, RequireBaseRef))
    else if NewSubjectKey !in t.keys then Is(Alter(Reviews, AddKey(NewSubjectKey)))
    else if OldSubjectKey in t.keys then Is(Alter(Reviews, DropKey(OldSubjectKey)))
    else if NewQueueKey !in q.keys then Is(Alter(QueueActions, AddKey(NewQueueKey)))
    else if OldQueueKey in q.keys then Is(Alter(QueueActions, DropKey(OldQueueKey)))
    else Null
  }

  predicate Issues(db: Db, s: Statement)
    requires Schema(db)
  {
    NextUpgrade(db) == Is(s) || (s == Backfill && BaseRef in db[Reviews].columns)
  }

  lemma ReviewsStep(t: Table, ch: Change)
    requires ReviewsSchema(t)
    requires
      || (BaseRef !in t.columns && ch == AddBaseRef)
      || (BaseRef in t.columns && ch == RequireBaseRef)
      || (BaseRef in t.required && NewSubjectKey !in t.keys && ch == AddKey(NewSubjectKey))
      || (NewSubjectKey in t.keys && OldSubjectKey in t.keys && ch == DropKey(OldSubjectKey))
    ensures Accepts(t, ch) && ReviewsSchema(Altered(t, ch))
  {
  }

  lemma QueueStep(t: Table, ch: Change)
    requires QueueSchema(t)
    requires
      || (NewQueueKey !in t.keys && ch == AddKey(NewQueueKey))
      || (NewQueueKey in t.keys && OldQueueKey in t.keys && ch == DropKey(OldQueueKey))
    ensures Accepts(t, ch) && QueueSchema(Altered(t, ch))
  {
  }

  lemma Step(db: Db, s: Statement)
    requires Schema(db) && Issues(db, s)
    ensures Applicable(db, s) && Schema(Effect(db, s))
  {
    if s.Alter? {
      if s.table == Reviews { ReviewsStep(db[Reviews], s.change); } else { QueueStep(db[QueueActions], s.change); }
      hide Accepts, ReviewsSchema, QueueSchema;
    }
  }

  /** The statements left, by the one that is owed next. */
  function Distance(db: Db): nat
    requires Schema(db)
  {
    var t, q := db[Reviews], db[QueueActions];
    if BaseRef !in t.columns then 6 else if BaseRef !in t.required then 5
    else if NewSubjectKey !in t.keys then 4 else if OldSubjectKey in t.keys then 3
    else if NewQueueKey !in q.keys then 2 else if OldQueueKey in q.keys then 1 else 0
  }

  /** Crashes and re-runs only ever move the schema forward, to exactly the frozen one. */
  lemma Progress(db: Db, s: Statement)
    requires Schema(db) && Issues(db, s) && Applicable(db, s) && Schema(Effect(db, s))
    ensures s != Backfill ==> Distance(Effect(db, s)) < Distance(db)
    ensures s == Backfill ==> Distance(Effect(db, s)) == Distance(db)
    ensures Distance(db) == 0 <==> Frozen(db)
    ensures NextUpgrade(db).Null? <==> Frozen(db)
  {
  }

  // ---- What the rows allow ----

  /** What a statement of this upgrade asks of the rows: a branch on every review to freeze the column,
      no two actions with one run and review for the queue key, and nothing else. */
  predicate RowsAllow(db: Db, s: Statement)
    requires Schema(db)
  {
    && (s == Alter(Reviews, RequireBaseRef) ==> forall i | i in db[Reviews].rows :: At(db[Reviews].rows[i], BaseRef).Is?)
    && (s == Alter(QueueActions, AddKey(NewQueueKey)) ==> KeyHolds(db[QueueActions].rows, KeyColumns(NewQueueKey)))
  }

  lemma ReviewsCommit(t: Table, ch: Change)
    requires ReviewsSchema(t) && Valid(t) && Accepts(t, ch)
    requires
      || ch == AddBaseRef || ch == RequireBaseRef || ch == DropKey(OldSubjectKey)
      || (OldSubjectKey in t.keys && ch == AddKey(NewSubjectKey))
    ensures Valid(Altered(t, ch)) <==> (ch == RequireBaseRef ==> forall i | i in t.rows :: At(t.rows[i], BaseRef).Is?)
  {
    hide Valid, Accepts, Altered, ReviewsSchema, KeyHolds, Evaluate;
    AlterCommits(t, ch);
    if ch == AddKey(NewSubjectKey) {
      KeyOfValid(t, OldSubjectKey);
      WiderKeyHolds(t.rows, KeyColumns(OldSubjectKey), KeyColumns(NewSubjectKey));
    }
  }

  lemma KeyOfValid(t: Table, k: Key)
    requires Valid(t) && k in t.keys
    ensures KeyHolds(t.rows, KeyColumns(k))
  {
  }

  lemma QueueCommit(t: Table, ch: Change)
    requires QueueSchema(t) && Valid(t) && Accepts(t, ch) && ch in {AddKey(NewQueueKey), DropKey(OldQueueKey)}
    ensures Valid(Altered(t, ch)) <==> (ch == AddKey(NewQueueKey) ==> KeyHolds(t.rows, KeyColumns(NewQueueKey)))
  {
    hide Valid, Accepts, Altered, QueueSchema, KeyHolds, Evaluate;
    AlterCommits(t, ch);
  }

  lemma FilledRow(t: Table, repos: Table, i: nat)
    requires ReviewsSchema(t) && i in t.rows && Fits(t, t.rows[i]) && BaseRef in t.columns
    ensures var u := Filled(t, BaseRef, RepoId, repos, DefaultBranch);
            && Fits(u, u.rows[i]) && RowKeeps(t.rows[i], u.rows[i], {})
            && (forall c | c != BaseRef :: At(u.rows[i], c) == At(t.rows[i], c))
            && (BaseRef in t.required ==> u.rows[i] == t.rows[i])
  {
  }

  lemma FilledRows(t: Table, repos: Table)
    requires ReviewsSchema(t) && Valid(t) && BaseRef in t.columns
    ensures var u := Filled(t, BaseRef, RepoId, repos, DefaultBranch);
            && SameSchema(t, u) && u.rows.Keys == t.rows.Keys
            && (forall i | i in t.rows :: Fits(u, u.rows[i]))
            && (forall i, c | i in t.rows && c != BaseRef :: At(u.rows[i], c) == At(t.rows[i], c))
            && (BaseRef in t.required ==> u.rows == t.rows)
  {
    hide Fits, ReviewsSchema, Filled, KeyHolds, RowKeeps, At;
    FilledShape(t, repos);
    forall i | i in t.rows
      ensures Fits(Filled(t, BaseRef, RepoId, repos, DefaultBranch), Filled(t, BaseRef, RepoId, repos, DefaultBranch).rows[i])
      ensures forall c | c != BaseRef :: At(Filled(t, BaseRef, RepoId, repos, DefaultBranch).rows[i], c) == At(t.rows[i], c)
      ensures BaseRef in t.required ==> Filled(t, BaseRef, RepoId, repos, DefaultBranch).rows[i] == t.rows[i]
    {
      FilledRow(t, repos, i);
    }
  }

  lemma FilledShape(t: Table, repos: Table)
    ensures var u := Filled(t, BaseRef, RepoId, repos, DefaultBranch); SameSchema(t, u) && u.rows.Keys == t.rows.Keys
  {
  }

  lemma FilledKeys(t: Table, rows: map<nat, Row>)
    requires ReviewsSchema(t) && rows.Keys == t.rows.Keys
    requires forall k | k in t.keys :: KeyHolds(t.rows, KeyColumns(k))
    requires forall i, c | i in t.rows && c != BaseRef :: At(rows[i], c) == At(t.rows[i], c)
    requires BaseRef in t.required ==> rows == t.rows
    ensures forall k | k in t.keys :: KeyHolds(rows, KeyColumns(k))
  {
    hide KeyHolds, At;
    if NewSubjectKey !in t.keys { KeyWithoutColumn(t.rows, rows, KeyColumns(OldSubjectKey), BaseRef); }
  }

  /** The back-fill touches only NULLs, which no key of the moment can see. */
  lemma BackfillCommits(t: Table, repos: Table)
    requires ReviewsSchema(t) && Valid(t) && BaseRef in t.columns
    ensures Valid(Filled(t, BaseRef, RepoId, repos, DefaultBranch))
  {
    hide ReviewsSchema, Fits, Filled, KeyHolds, At;
    FilledRows(t, repos);
    FilledKeys(t, Filled(t, BaseRef, RepoId, repos, DefaultBranch).rows);
  }

  lemma KeyWithoutColumn(rows: map<nat, Row>, after: map<nat, Row>, key: set<Column>, c: Column)
    requires KeyHolds(rows, key) && c !in key && after.Keys == rows.Keys
    requires forall i, d | i in rows && d != c :: At(after[i], d) == At(rows[i], d)
    ensures KeyHolds(after, key)
  {
    hide At, Collide;
    forall i, j | i in after && j in after && i != j
      ensures !Collide(after[i], after[j], key)
    {
      assert !Collide(rows[i], rows[j], key);
      CollideWithout(rows[i], rows[j], after[i], after[j], key, c);
    }
  }

  lemma CollideWithout(r: Row, s: Row, after: Row, other: Row, key: set<Column>, c: Column)
    requires c !in key && forall d | d != c :: At(after, d) == At(r, d) && At(other, d) == At(s, d)
    ensures Collide(after, other, key) <==> Collide(r, s, key)
  {
    hide At;
  }

  /** Each statement commits exactly when the rows allow it. In particular the wider subject key can
      never fail while the old one holds, and neither can the back-fill. */
  lemma RowsDecide(db: Db, s: Statement)
    requires Schema(db) && ValidDb(db) && Issues(db, s) && Applicable(db, s)
    ensures Commits(db, s) <==> RowsAllow(db, s)
  {
    hide Valid, Accepts, Altered, Filled, ReviewsSchema, QueueSchema, KeyHolds;
    assert Valid(db[Reviews]) && Valid(db[QueueActions]);
    ValidLocally(db, s.table, Effect(db, s)[s.table]);
    if s == Backfill { BackfillCommits(db[Reviews], db[Repos]); }
    else if s.table == Reviews { ReviewsDecide(db, s.change); }
    else { QueueCommit(db[QueueActions], s.change); }
  }

  lemma ReviewsDecide(db: Db, ch: Change)
    requires Schema(db) && Issues(db, Alter(Reviews, ch)) && Valid(db[Reviews]) && Accepts(db[Reviews], ch)
    ensures Valid(Altered(db[Reviews], ch)) <==> RowsAllow(db, Alter(Reviews, ch))
  {
    hide Valid, Accepts, Altered;
    ReviewsCommit(db[Reviews], ch);
  }

  /** Right after the back-fill the column can be frozen exactly when every review had a branch already
      or its repository has one. */
  lemma BackfillDecidesFreeze(t: Table, repos: Table)
    requires ReviewsSchema(t) && Valid(t) && BaseRef in t.columns && BaseRef !in t.required
    ensures (forall i | i in t.rows :: At(Filled(t, BaseRef, RepoId, repos, DefaultBranch).rows[i], BaseRef).Is?)
            <==> forall i | i in t.rows ::
                   At(t.rows[i], BaseRef).Is? || ParentField(repos, At(t.rows[i], RepoId), DefaultBranch).Is?
  {
    var u := Filled(t, BaseRef, RepoId, repos, DefaultBranch);
    assert forall i | i in t.rows ::
      At(u.rows[i], BaseRef) == (if At(t.rows[i], BaseRef).Is? then At(t.rows[i], BaseRef)
                                 else ParentField(repos, At(t.rows[i], RepoId), DefaultBranch));
  }

  // ---- Runs ----

  ghost predicate TableKept(t: Table, u: Table) {
    t.rows.Keys == u.rows.Keys && forall i | i in t.rows :: RowKeeps(t.rows[i], u.rows[i], {})
  }

  /** No row goes in any table and no value that was set changes, a frozen base ref above all. */
  ghost predicate LosesNothing(a: Db, b: Db) { forall n | n in a && n in b :: TableKept(a[n], b[n]) }

  lemma TableLosesNothing(db: Db, s: Statement)
    requires Schema(db) && ValidDb(db) && Issues(db, s) && Applicable(db, s)
    ensures TableKept(db[s.table], Effect(db, s)[s.table])
  {
    hide Valid, Accepts, Fits, ReviewsSchema, QueueSchema, Filled, Altered, RowKeeps, KeyHolds;
    var t := db[s.table];
    if s == Backfill {
      FilledShape(t, db[Repos]);
      forall i | i in t.rows
        ensures RowKeeps(t.rows[i], Filled(t, BaseRef, RepoId, db[Repos], DefaultBranch).rows[i], {})
      {
        FittingRow(t, i);
        FilledRow(t, db[Repos], i);
      }
    } else {
      forall i | i in t.rows { AlterKeepsRows(t, s.change, i); }
      AlteredKeys(t, s.change);
    }
  }

  lemma FittingRow(t: Table, i: nat)
    requires Valid(t) && i in t.rows
    ensures Fits(t, t.rows[i])
  {
  }

  lemma AlteredKeys(t: Table, ch: Change)
    ensures Altered(t, ch).rows.Keys == t.rows.Keys
  {
  }

  lemma StatementLosesNothing(db: Db, s: Statement)
    requires Schema(db) && ValidDb(db) && Issues(db, s) && Applicable(db, s)
    ensures LosesNothing(db, Effect(db, s))
  {
    TableLosesNothing(db, s);
    hide ReviewsSchema, QueueSchema, Valid, Accepts, Altered, Filled, Issues;
    forall n | n in db && n != s.table ensures TableKept(db[n], Effect(db, s)[n]) {
      assert Effect(db, s)[n] == db[n];
    }
  }

  ghost predicate Issued(e: Event) { e.Ran? ==> Schema(e.before) && Issues(e.before, e.statement) }

  ghost predicate SafeEvent(e: Event) {
    Schema(e.before) && Schema(e.after) && (e.Ran? ==> LosesNothing(e.before, e.after))
  }

  lemma SchemaShared(a: Db, b: Db)
    requires SameSchemas(a, b) && Schema(a)
    ensures Schema(b) && NextUpgrade(b) == NextUpgrade(a)
    ensures forall s :: Issues(a, s) ==> Issues(b, s)
  {
    assert forall n | n in a :: SameSchema(a[n], b[n]);
  }

  lemma EventIsSafe(e: Event)
    requires Happened(e) && Schema(e.before) && ValidDb(e.before) && Issued(e)
    ensures SafeEvent(e) && Schema(e.after) && ValidDb(e.after)
  {
    match e
    case Wrote(a, b) => SchemaShared(a, b);
    case Ran(a, s, b) => Step(a, s); StatementLosesNothing(a, s);
  }

  /** At every crash point of every run some subject key holds, and no statement of a re-run changes
      a base ref that is already written. */
  lemma RunKeepsBaseRefs(from: Db, events: seq<Event>, to: Db)
    requires Leads(from, events, to) && Schema(from) && ValidDb(from)
    requires forall k | 0 <= k < |events| :: Issued(events[k])
    ensures Schema(to) && ValidDb(to)
    ensures forall k | 0 <= k < |events| :: SafeEvent(events[k])
  {
    hide Happened, Leads, SafeEvent, Issued, Schema, ValidDb;
    forall e: Event | Happened(e) && Schema(e.before) && ValidDb(e.before) && (Issued(e))
      ensures SafeEvent(e) && Schema(e.after) && ValidDb(e.after)
    {
      EventIsSafe(e);
    }
    RunInvariant(db => Schema(db) && ValidDb(db), e => Issued(e), e => SafeEvent(e), from, events, to);
  }

  /** Whichever key stands, no two reviews ever share repository, number, ref, base and head. */
  lemma SubjectsStayUnique(db: Db)
    requires Schema(db) && ValidDb(db)
    ensures KeyHolds(db[Reviews].rows, KeyColumns(NewSubjectKey))
    ensures forall i, j | i in db[Reviews].rows && j in db[Reviews].rows && i != j ::
              !SameSubject(db[Reviews].rows[i], db[Reviews].rows[j])
  {
    hide SameSubject;
    var t := db[Reviews];
    if OldSubjectKey in t.keys { WiderKeyHolds(t.rows, KeyColumns(OldSubjectKey), KeyColumns(NewSubjectKey)); }
    forall i, j | i in t.rows && j in t.rows
      ensures Collide(t.rows[i], t.rows[j], KeyColumns(NewSubjectKey)) <==> SameSubject(t.rows[i], t.rows[j])
    {
      SubjectIs(t.rows[i], t.rows[j]);
    }
  }

  ghost predicate SameSubject(r: Row, q: Row) {
    forall c | c in {RepoId, PrNumber, BaseRef, BaseSha, HeadSha} :: At(r, c).Is? && At(r, c) == At(q, c)
  }

  lemma SubjectIs(r: Row, q: Row)
    ensures Collide(r, q, KeyColumns(NewSubjectKey)) <==> SameSubject(r, q)
  {
    hide At;
    CollideMeans(r, q);
  }

  // ---- The script ----

  datatype Result = Done | Crash | AlterRejected | InvalidBranch | Incomplete

  function Halt(o: Outcome): Result { if o == Crashed then Crash else AlterRejected }

  predicate GoodBranch(f: Field) {
    f.Is? && f.value.Text? && 0 < |f.value.s| <= 200
    && '\0' !in f.value.s && '\n' !in f.value.s && '\r' !in f.value.s
  }

  /** Between the two databases every missing base ref was filled with the default branch of the repository
      the review names, and stayed missing only where there is none; every other one stayed as it was. */
  ghost predicate FilledFromRepos(a: Db, b: Db) {
    && {Reviews, Repos} <= a.Keys && Reviews in b && a[Reviews].rows.Keys == b[Reviews].rows.Keys
    && forall i | i in a[Reviews].rows ::
         var was, repo, now := At(a[Reviews].rows[i], BaseRef), At(a[Reviews].rows[i], RepoId), At(b[Reviews].rows[i], BaseRef);
         if was.Is? then now == was
         else if repo.Is? && repo.value.Num? && repo.value.n >= 0 && repo.value.n in a[Repos].rows then
           now == At(a[Repos].rows[repo.value.n], DefaultBranch)
         else now.Null?
  }

  /** A text of 1 to 200 characters on one line. */
  ghost predicate IsBranchName(f: Field) {
    exists text: string ::
      f == Is(Text(text)) && 1 <= |text| <= 200 && !exists c | c in text :: c == '\0' || c == '\n' || c == '\r'
  }

  ghost predicate AllBranchesGood(db: Db) {
    Reviews in db && forall i | i in db[Reviews].rows :: IsBranchName(At(db[Reviews].rows[i], BaseRef))
  }

  lemma GoodBranchIs(f: Field)
    ensures GoodBranch(f) <==> IsBranchName(f)
  {
    if GoodBranch(f) { assert f == Is(Text(f.value.s)); }
  }

  lemma NoBadBranchIs(db: Db)
    requires Schema(db)
    ensures HasBadBranch(db) <==> !AllBranchesGood(db)
  {
    hide GoodBranch, IsBranchName, ReviewsSchema, QueueSchema;
    forall i | i in db[Reviews].rows
      ensures GoodBranch(At(db[Reviews].rows[i], BaseRef)) <==> IsBranchName(At(db[Reviews].rows[i], BaseRef))
    {
      GoodBranchIs(At(db[Reviews].rows[i], BaseRef));
    }
  }

  /** The back-fill ran. */
  ghost predicate BackFilled(events: seq<Event>, from: nat) {
    exists k | from <= k < |events| :: events[k].Ran? && FilledFromRepos(events[k].before, events[k].after)
  }

  /** The back-fill ran, and in a state from then on every base ref was good. */
  ghost predicate FilledAndChecked(events: seq<Event>, from: nat) {
    exists k, j | from <= k <= j < |events| ::
      events[k].Ran? && FilledFromRepos(events[k].before, events[k].after) && AllBranchesGood(events[j].after)
  }

  lemma FilledFurther(events: seq<Event>, more: seq<Event>, from: nat, since: nat)
    requires events <= more && since <= from
    ensures BackFilled(events, from) ==> BackFilled(more, since)
    ensures FilledAndChecked(events, from) ==> FilledAndChecked(more, since)
    ensures FilledAndChecked(events, from) ==> BackFilled(events, from)
  {
    hide FilledFromRepos, AllBranchesGood;
    if BackFilled(events, from) {
      var k :| from <= k < |events| && events[k].Ran? && FilledFromRepos(events[k].before, events[k].after);
      assert more[k] == events[k];
    }
    if FilledAndChecked(events, from) {
      var k, j :| from <= k <= j < |events| && events[k].Ran? && FilledFromRepos(events[k].before, events[k].after)
        && AllBranchesGood(events[j].after);
      assert more[k] == events[k] && more[j] == events[j];
    }
  }

  lemma BackfillFills(a: Db, b: Db)
    requires Applicable(a, Backfill) && b == Effect(a, Backfill)
    ensures FilledFromRepos(a, b)
  {
  }

  lemma RanBackfill(s: Server, from: nat)
    requires s.Valid() && from + 1 < |s.events| && s.events[from + 1].Ran? && s.events[from + 1].statement == Backfill
    ensures BackFilled(s.events, from)
  {
    hide ValidDb, FilledFromRepos, Applicable, Effect, Commits;
    AllHappened(s.origin, s.events, s.db, from + 1);
    BackfillFills(s.events[from + 1].before, s.events[from + 1].after);
  }

  lemma CheckedNow(s: Server, from: nat)
    requires s.Valid() && BackFilled(s.events, from) && AllBranchesGood(s.db)
    ensures FilledAndChecked(s.events, from)
  {
    hide ValidDb, FilledFromRepos, AllBranchesGood, Happened;
    var k :| from <= k < |s.events| && s.events[k].Ran? && FilledFromRepos(s.events[k].before, s.events[k].after);
    assert s.events[|s.events| - 1].after == s.db;
  }

  method Issue(s: Server, st: Statement) returns (o: Outcome)
    requires s.Valid() && Schema(s.db) && Issues(s.db, st)
    modifies s
    ensures s.Valid() && Schema(s.db) && s.origin == old(s.origin)
    ensures s.deaths == old(s.deaths) + if o == Crashed then 1 else 0
    ensures old(s.events) <= s.events && forall k | |old(s.events)| <= k < |s.events| :: Issued(s.events[k])
    ensures o == Committed ==> Became(old(s.db), st, s.db)
    ensures o == Committed ==> |s.events| == |old(s.events)| + 3 && s.events[|old(s.events)| + 1].Ran?
    ensures o == Committed ==> s.events[|old(s.events)| + 1].statement == st
    ensures o == Rejected ==> SameSchemas(old(s.db), s.db) && !RowsAllow(s.db, st)
  {
    Step(s.db, st);
    o := s.Execute(st);
    hide ReviewsSchema, QueueSchema, Valid, Accepts;
    forall k | |old(s.events)| <= k < |s.events|
      ensures Issued(s.events[k])
    {
      if s.events[k].Ran? { SchemaShared(old(s.db), s.events[k].before); }
    }
    if SameSchemas(old(s.db), s.db) { SchemaShared(old(s.db), s.db); }
    else { SchemaShared(Effect(old(s.db), st), s.db); }
    if o == Committed { EffectBecomes(old(s.db), st, s.db); }
    if o == Rejected { RowsDecide(s.db, st); }
  }

  method EnsureColumn(s: Server) returns (r: Result)
    requires s.Valid() && Schema(s.db)
    modifies s
    ensures s.Valid() && Schema(s.db) && s.origin == old(s.origin)
    ensures s.deaths == old(s.deaths) + if r == Crash then 1 else 0
    ensures old(s.events) <= s.events && forall k | |old(s.events)| <= k < |s.events| :: Issued(s.events[k])
    ensures r in {Done, Crash}
    ensures r == Done ==> BaseRef in s.db[Reviews].columns
  {
    hide ValidDb, Leads, Issued, QueueSchema, Altered;
    if BaseRef !in s.db[Reviews].columns {
      var o := Issue(s, Alter(Reviews, AddBaseRef));
      if o != Committed { return Halt(o); }
    }
    if BaseRef !in s.db[Reviews].columns { return Incomplete; }
    r := Done;
  }

  /** A review without a base ref stands in the way of freezing the column. */
  predicate UnfrozenNull(db: Db)
    requires Schema(db)
  {
    BaseRef !in db[Reviews].required && exists i | i in db[Reviews].rows :: At(db[Reviews].rows[i], BaseRef).Null?
  }

  /** A review's base ref is missing, empty, too long or not one line. */
  predicate HasBadBranch(db: Db)
    requires Schema(db)
  {
    exists i | i in db[Reviews].rows :: !GoodBranch(At(db[Reviews].rows[i], BaseRef))
  }

  method MakeRequired(s: Server) returns (r: Result)
    requires s.Valid() && Schema(s.db) && BaseRef in s.db[Reviews].columns
    modifies s
    ensures s.Valid() && Schema(s.db) && s.origin == old(s.origin)
    ensures s.deaths == old(s.deaths) + if r == Crash then 1 else 0
    ensures old(s.events) <= s.events && forall k | |old(s.events)| <= k < |s.events| :: Issued(s.events[k])
    ensures r in {Done, Crash, AlterRejected}
    ensures r == AlterRejected ==> UnfrozenNull(s.db)
    ensures r == Done ==> SubjectReady(s.db)
  {
    hide ValidDb, Leads, Issued, QueueSchema, Altered;
    if BaseRef !in s.db[Reviews].required {
      var o := Issue(s, Alter(Reviews, RequireBaseRef));
      if o != Committed { return Halt(o); }
    }
    if BaseRef !in s.db[Reviews].required { return Incomplete; }
    r := Done;
  }

  lemma BackfillIsAllowed(db: Db)
    requires Schema(db)
    ensures RowsAllow(db, Backfill)
  {
    hide ReviewsSchema, QueueSchema;
  }

  method FreezeColumn(s: Server) returns (r: Result)
    requires s.Valid() && Schema(s.db)
    modifies s
    ensures s.Valid() && Schema(s.db) && s.origin == old(s.origin)
    ensures s.deaths == old(s.deaths) + if r == Crash then 1 else 0
    ensures old(s.events) <= s.events && forall k | |old(s.events)| <= k < |s.events| :: Issued(s.events[k])
    ensures r in {Done, Crash, AlterRejected, InvalidBranch}
    ensures r == InvalidBranch ==> BackFilled(s.events, |old(s.events)|) && !AllBranchesGood(s.db)
    ensures r in {Done, AlterRejected} ==> FilledAndChecked(s.events, |old(s.events)|)
    ensures r == AlterRejected ==> UnfrozenNull(s.db)
    ensures r == Done ==> SubjectReady(s.db)
  {
    hide ValidDb, Leads, Issued, QueueSchema, ReviewsSchema, NextUpgrade, HasBadBranch, UnfrozenNull, RowsAllow,
      BackFilled, FilledAndChecked, AllBranchesGood;
    ghost var first := s.events;
    r := EnsureColumn(s);
    if r != Done { return; }
    ghost var so := s.events;
    var o := Issue(s, Backfill);
    if o != Committed {
      BackfillIsAllowed(s.db);
      return Halt(o);
    }
    RanBackfill(s, |so|);
    FilledFurther(s.events, s.events, |so|, |first|);
    NoBadBranchIs(s.db);
    if HasBadBranch(s.db) { return InvalidBranch; }
    CheckedNow(s, |first|);
    so := s.events;
    r := MakeRequired(s);
    FilledFurther(so, s.events, |first|, |first|);
  }

  ghost predicate SubjectReady(db: Db) {
    Schema(db) && BaseRef in db[Reviews].required && BaseRef in db[Reviews].columns
  }

  method AddSubjectKey(s: Server) returns (r: Result)
    requires s.Valid() && SubjectReady(s.db)
    modifies s
    ensures s.Valid() && Schema(s.db) && s.origin == old(s.origin)
    ensures s.deaths == old(s.deaths) + if r == Crash then 1 else 0
    ensures old(s.events) <= s.events && forall k | |old(s.events)| <= k < |s.events| :: Issued(s.events[k])
    ensures r in {Done, Crash}
    ensures r == Done ==> SubjectReady(s.db) && NewSubjectKey in s.db[Reviews].keys
  {
    hide ValidDb, Leads, Issued, QueueSchema, KeyHolds;
    if OldSubjectKey !in s.db[Reviews].keys && NewSubjectKey !in s.db[Reviews].keys { return Incomplete; }
    if NewSubjectKey !in s.db[Reviews].keys {
      var o := Issue(s, Alter(Reviews, AddKey(NewSubjectKey)));
      if o != Committed { return Halt(o); }
    }
    if NewSubjectKey !in s.db[Reviews].keys { return Incomplete; }
    r := Done;
  }

  /** The wider key first, then the old one goes: a fence stands at every crash point. */
  method SwapSubjectKey(s: Server) returns (r: Result)
    requires s.Valid() && SubjectReady(s.db)
    modifies s
    ensures s.Valid() && Schema(s.db) && s.origin == old(s.origin)
    ensures s.deaths == old(s.deaths) + if r == Crash then 1 else 0
    ensures old(s.events) <= s.events && forall k | |old(s.events)| <= k < |s.events| :: Issued(s.events[k])
    ensures r in {Done, Crash}
    ensures r == Done ==> SubjectReady(s.db) && s.db[Reviews].keys == {NewSubjectKey}
  {
    hide ValidDb, Leads, Issued, QueueSchema, KeyHolds;
    r := AddSubjectKey(s);
    if r != Done { return; }
    if OldSubjectKey in s.db[Reviews].keys {
      var o := Issue(s, Alter(Reviews, DropKey(OldSubjectKey)));
      if o != Committed { return Halt(o); }
    }
    if OldSubjectKey in s.db[Reviews].keys || NewSubjectKey !in s.db[Reviews].keys { return Incomplete; }
  }

  ghost predicate QueueReady(db: Db) { SubjectReady(db) && db[Reviews].keys == {NewSubjectKey} }

  method AddQueueKey(s: Server) returns (r: Result)
    requires s.Valid() && QueueReady(s.db)
    modifies s
    ensures s.Valid() && Schema(s.db) && s.origin == old(s.origin)
    ensures s.deaths == old(s.deaths) + if r == Crash then 1 else 0
    ensures old(s.events) <= s.events && forall k | |old(s.events)| <= k < |s.events| :: Issued(s.events[k])
    ensures r in {Done, Crash, AlterRejected}
    ensures r == AlterRejected ==> !KeyHolds(s.db[QueueActions].rows, KeyColumns(NewQueueKey))
    ensures r == Done ==> QueueReady(s.db) && NewQueueKey in s.db[QueueActions].keys
  {
    hide ValidDb, Leads, Issued, ReviewsSchema, KeyHolds, KeyColumns;
    assert QueueSchema(s.db[QueueActions]);
    if OldQueueKey !in s.db[QueueActions].keys && NewQueueKey !in s.db[QueueActions].keys { return Incomplete; }
    if NewQueueKey !in s.db[QueueActions].keys {
      var o := Issue(s, Alter(QueueActions, AddKey(NewQueueKey)));
      if o != Committed { return Halt(o); }
    }
    if NewQueueKey !in s.db[QueueActions].keys { return Incomplete; }
    r := Done;
  }

  method SwapQueueKey(s: Server) returns (r: Result)
    requires s.Valid() && QueueReady(s.db)
    modifies s
    ensures s.Valid() && Schema(s.db) && s.origin == old(s.origin)
    ensures s.deaths == old(s.deaths) + if r == Crash then 1 else 0
    ensures old(s.events) <= s.events && forall k | |old(s.events)| <= k < |s.events| :: Issued(s.events[k])
    ensures r in {Done, Crash, AlterRejected}
    ensures r == AlterRejected ==> !KeyHolds(s.db[QueueActions].rows, KeyColumns(NewQueueKey))
    ensures r == Done ==> Frozen(s.db)
  {
    hide ValidDb, Leads, Issued, ReviewsSchema, KeyHolds, KeyColumns;
    r := AddQueueKey(s);
    if r != Done { return; }
    if OldQueueKey in s.db[QueueActions].keys {
      var o := Issue(s, Alter(QueueActions, DropKey(OldQueueKey)));
      if o != Committed { return Halt(o); }
    }
    assert QueueSchema(s.db[QueueActions]);
    if OldQueueKey in s.db[QueueActions].keys || NewQueueKey !in s.db[QueueActions].keys { return Incomplete; }
  }

  /** One attempt: it ends frozen, by a crash, or because of a bad branch, a review left without one, or
      queue actions that collide under the new key; so without such rows re-runs converge. Every "lost its
      column", "no owned constraint" and "did not converge" refusal is unreachable. */
  method Upgrade(s: Server) returns (r: Result)
    requires s.Valid() && Schema(s.db)
    modifies s
    ensures s.Valid() && Schema(s.db) && s.origin == old(s.origin)
    ensures s.deaths == old(s.deaths) + if r == Crash then 1 else 0
    ensures old(s.events) <= s.events && forall k | |old(s.events)| <= k < |s.events| :: Issued(s.events[k])
    ensures r in {Done, Crash, AlterRejected, InvalidBranch}
    ensures r == InvalidBranch ==> BackFilled(s.events, |old(s.events)|) && !AllBranchesGood(s.db)
    ensures r in {Done, AlterRejected} ==> FilledAndChecked(s.events, |old(s.events)|)
    ensures r == AlterRejected ==> UnfrozenNull(s.db) || QueueCollision(s.db)
    ensures r == Done ==> Frozen(s.db)
  {
    hide ValidDb, Leads, Issued, ReviewsSchema, QueueSchema, UnfrozenNull, KeyHolds, KeyColumns, BackFilled,
      FilledAndChecked, AllBranchesGood, QueueCollision;
    ghost var first := s.events;
    r := FreezeColumn(s);
    if r != Done { return; }
    ghost var so := s.events;
    r := SwapSubjectKey(s);
    FilledFurther(so, s.events, |first|, |first|);
    if r != Done { return; }
    r := SwapQueueKey(s);
    FilledFurther(so, s.events, |first|, |first|);
    CollisionIs(s.db);
  }

  /** Two queue actions of one run and one review. */
  ghost predicate QueueCollision(db: Db) {
    QueueActions in db
    && exists i, j | i in db[QueueActions].rows && j in db[QueueActions].rows && i != j ::
         var r, q := db[QueueActions].rows[i], db[QueueActions].rows[j];
         && At(r, RunId).Is? && At(r, RunId) == At(q, RunId)
         && At(r, ReviewId).Is? && At(r, ReviewId) == At(q, ReviewId)
  }

  lemma CollisionIs(db: Db)
    requires QueueActions in db
    ensures KeyHolds(db[QueueActions].rows, KeyColumns(NewQueueKey)) <==> !QueueCollision(db)
  {
    hide Collide, KeyColumns, At;
    var rows := db[QueueActions].rows;
    forall i, j | i in rows && j in rows
      ensures Collide(rows[i], rows[j], KeyColumns(NewQueueKey)) <==>
              && At(rows[i], RunId).Is? && At(rows[i], RunId) == At(rows[j], RunId)
              && At(rows[i], ReviewId).Is? && At(rows[i], ReviewId) == At(rows[j], ReviewId)
    {
      CollideMeans(rows[i], rows[j]);
    }
  }
}
