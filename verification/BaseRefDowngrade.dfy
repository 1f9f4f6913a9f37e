/** The fenced downgrade of alembic/versions/2b8d4f6a1c90_freeze_pr_review_base_ref.py on SQLite: no
    writer runs beside it, but each statement commits on its own and the process may die between two. */
module BaseRefDowngrade {
  import opened ThreeValued
  import opened Relational
  import opened MySql
  import opened BaseRefMigration

  datatype Ending = Restored | Died | QueueRowsCollide | ReviewsExist | WrongShape | Unowned

  const DropColumn := NoChange.(dropColumns := {BaseRef})

  predicate Legacy(db: Db)
    requires Schema(db)
  {
    BaseRef !in db[Reviews].columns && db[Reviews].keys == {OldSubjectKey} && db[QueueActions].keys == {OldQueueKey}
  }

  /** Without the column only the legacy keys can stand: the replay branch never finds anything else. */
  lemma MissingColumnIsLegacy(db: Db)
    requires Schema(db) && BaseRef !in db[Reviews].columns
    ensures Legacy(db)
  {
  }

  lemma SameColumnsSameRows(t: Table, ch: Change)
    requires Valid(t) && Columns(t, ch) == t.columns
    ensures Altered(t, ch).rows == t.rows
  {
    hide Fits, Evaluate, KeyHolds, Project, Valid;
    forall i | i in t.rows ensures Project(t.rows[i], t.columns) == t.rows[i] {
      FittingRow(t, i);
      ProjectedWhole(t, t.rows[i]);
    }
  }

  lemma ProjectedWhole(t: Table, r: Row)
    requires Fits(t, r)
    ensures Project(r, t.columns) == r
  {
    hide Evaluate;
    assert r.Keys == t.columns;
  }

  /** One fenced statement. */
  method Run(s: Server, n: TableName, ch: Change) returns (o: Outcome)
    requires s.Valid() && Applicable(s.db, Alter(n, ch))
    modifies s
    ensures s.Valid()
    ensures s.deaths == old(s.deaths) + if o == Crashed then 1 else 0
    ensures o == Committed ==> s.db == Effect(old(s.db), Alter(n, ch))
    ensures o == Rejected ==> s.db == old(s.db) && !Commits(s.db, Alter(n, ch))
    ensures o == Crashed ==> s.db == old(s.db) || s.db == Effect(old(s.db), Alter(n, ch))
  {
    hide *;
    if * {
      s.deaths := s.deaths + 1;
      return Crashed;
    }
    var committed := s.Apply(Alter(n, ch));
    if !committed { return Rejected; }
    if * {
      s.deaths := s.deaths + 1;
      return Crashed;
    }
    o := Committed;
  }

  predicate QueueChange(t: Table, ch: Change) {
    || (OldQueueKey !in t.keys && ch == AddKey(OldQueueKey))
    || (OldQueueKey in t.keys && NewQueueKey in t.keys && ch == DropKey(NewQueueKey))
  }

  lemma QueueChangeStep(db: Db, ch: Change)
    requires Schema(db) && ValidDb(db) && BaseRef in db[Reviews].columns && QueueChange(db[QueueActions], ch)
    ensures Applicable(db, Alter(QueueActions, ch)) && Schema(Effect(db, Alter(QueueActions, ch)))
    ensures Effect(db, Alter(QueueActions, ch))[QueueActions].rows == db[QueueActions].rows
    ensures !Commits(db, Alter(QueueActions, ch)) ==> !KeyHolds(db[QueueActions].rows, KeyColumns(OldQueueKey))
  {
    hide ReviewsSchema, Valid, KeyHolds, Evaluate;
    var t := db[QueueActions];
    SameColumnsSameRows(t, ch);
    AlterCommits(t, ch);
    ValidLocally(db, QueueActions, Altered(t, ch));
  }

  predicate SubjectChange(t: Table, ch: Change) {
    || (OldSubjectKey !in t.keys && ch == AddKey(OldSubjectKey))
    || (OldSubjectKey in t.keys && NewSubjectKey in t.keys && ch == DropKey(NewSubjectKey))
    || (t.keys == {OldSubjectKey} && ch == DropColumn)
  }

  lemma EmptyReviewsStep(t: Table, ch: Change)
    requires ReviewsSchema(t) && BaseRef in t.columns && SubjectChange(t, ch) && t.rows == map[]
    ensures Accepts(t, ch) && ReviewsSchema(Altered(t, ch))
    ensures Altered(t, ch).rows == map[] && Valid(Altered(t, ch))
  {
  }

  /** With no review left nothing on that table can be refused, and nothing is lost. */
  lemma SubjectChangeStep(db: Db, ch: Change)
    requires Schema(db) && ValidDb(db) && BaseRef in db[Reviews].columns && SubjectChange(db[Reviews], ch)
    requires db[Reviews].rows == map[] && db[QueueActions].keys == {OldQueueKey}
    ensures Applicable(db, Alter(Reviews, ch)) && Schema(Effect(db, Alter(Reviews, ch)))
    ensures Effect(db, Alter(Reviews, ch))[Reviews].rows == map[] && Commits(db, Alter(Reviews, ch))
  {
    hide QueueSchema, ReviewsSchema, Accepts, Valid, SubjectChange;
    EmptyReviewsStep(db[Reviews], ch);
    ValidLocally(db, Reviews, Altered(db[Reviews], ch));
  }

  ghost predicate InProgress(before: Db, db: Db) {
    && Schema(before) && Schema(db) && ValidDb(db) && BaseRef in db[Reviews].columns
    && db[Reviews].rows == map[] && db[QueueActions].rows == before[QueueActions].rows && db[Repos] == before[Repos]
  }

  method RestoreQueueKey(s: Server) returns (r: Ending)
    requires s.Valid() && InProgress(s.db, s.db)
    modifies s
    ensures s.Valid() && InProgress(old(s.db), s.db)
    ensures s.deaths == old(s.deaths) + if r == Died then 1 else 0
    ensures r in {Restored, Died, QueueRowsCollide}
    ensures r == QueueRowsCollide ==> !KeyHolds(old(s.db)[QueueActions].rows, KeyColumns(OldQueueKey))
    ensures r == Restored ==> s.db[QueueActions].keys == {OldQueueKey} && s.db[Reviews] == old(s.db)[Reviews]
  {
    hide ReviewsSchema, Valid, KeyHolds, Leads;
    if OldQueueKey !in s.db[QueueActions].keys {
      QueueChangeStep(s.db, AddKey(OldQueueKey));
      var o := Run(s, QueueActions, AddKey(OldQueueKey));
      if o != Committed { return if o == Crashed then Died else QueueRowsCollide; }
    }
    if NewQueueKey in s.db[QueueActions].keys {
      QueueChangeStep(s.db, DropKey(NewQueueKey));
      var o := Run(s, QueueActions, DropKey(NewQueueKey));
      if o != Committed { return if o == Crashed then Died else QueueRowsCollide; }
    }
    r := Restored;
  }

  method RestoreSubjectKey(s: Server) returns (r: Ending)
    requires s.Valid() && InProgress(s.db, s.db) && s.db[QueueActions].keys == {OldQueueKey}
    modifies s
    ensures s.Valid() && InProgress(old(s.db), s.db)
    ensures s.deaths == old(s.deaths) + if r == Died then 1 else 0
    ensures r in {Restored, Died}
    ensures r == Restored ==> s.db[Reviews].keys == {OldSubjectKey} && s.db[QueueActions] == old(s.db)[QueueActions]
  {
    hide QueueSchema, Valid, KeyHolds, Leads;
    if OldSubjectKey !in s.db[Reviews].keys {
      SubjectChangeStep(s.db, AddKey(OldSubjectKey));
      var o := Run(s, Reviews, AddKey(OldSubjectKey));
      if o != Committed { return Died; }
    }
    if NewSubjectKey in s.db[Reviews].keys {
      SubjectChangeStep(s.db, DropKey(NewSubjectKey));
      var o := Run(s, Reviews, DropKey(NewSubjectKey));
      if o != Committed { return Died; }
    }
    r := Restored;
  }

  /** Two queue actions of one run and one trigger head. */
  ghost predicate HeadCollision(db: Db) {
    QueueActions in db
    && exists i, j | i in db[QueueActions].rows && j in db[QueueActions].rows && i != j ::
         var r, q := db[QueueActions].rows[i], db[QueueActions].rows[j];
         && At(r, RunId).Is? && At(r, RunId) == At(q, RunId)
         && At(r, TriggerHead).Is? && At(r, TriggerHead) == At(q, TriggerHead)
  }

  lemma HeadCollisionIs(db: Db)
    requires QueueActions in db
    ensures KeyHolds(db[QueueActions].rows, KeyColumns(OldQueueKey)) <==> !HeadCollision(db)
  {
    hide Collide, KeyColumns, At;
    var rows := db[QueueActions].rows;
    forall i, j | i in rows && j in rows
      ensures Collide(rows[i], rows[j], KeyColumns(OldQueueKey)) <==>
              && At(rows[i], RunId).Is? && At(rows[i], RunId) == At(rows[j], RunId)
              && At(rows[i], TriggerHead).Is? && At(rows[i], TriggerHead) == At(rows[j], TriggerHead)
    {
      CollideMeans(rows[i], rows[j]);
    }
  }

  /** One attempt, from the frozen schema, from any schema an earlier attempt left, or from the legacy
      schema itself. It restores the legacy schema, dies, or is stopped by reviews that still exist or
      by queue rows the legacy key cannot hold; it removes and changes no row at all. */
  method Downgrade(s: Server) returns (r: Ending)
    requires s.Valid() && Schema(s.db)
    modifies s
    ensures s.Valid() && Schema(s.db)
    ensures s.deaths == old(s.deaths) + if r == Died then 1 else 0
    ensures r == Restored ==> Legacy(s.db)
    ensures r == Restored ==>
              && BaseRef !in s.db[Reviews].columns && s.db[Reviews].keys == {OldSubjectKey}
              && s.db[QueueActions].keys == {OldQueueKey}
    ensures r in {ReviewsExist, WrongShape} ==> s.db == old(s.db)
    ensures r == WrongShape <==> old(BaseRef in s.db[Reviews].columns - s.db[Reviews].required)
    ensures r == ReviewsExist <==>
              old(BaseRef !in s.db[Reviews].columns - s.db[Reviews].required && s.db[Reviews].rows != map[])
    ensures r == QueueRowsCollide ==> HeadCollision(s.db)
    ensures r != Unowned
    ensures s.db[QueueActions].rows == old(s.db)[QueueActions].rows
    ensures s.db[Reviews].rows == old(s.db)[Reviews].rows && s.db[Repos] == old(s.db)[Repos]
  {
    hide ReviewsSchema, QueueSchema, Valid, KeyHolds, Leads, HeadCollision;
    HeadCollisionIs(s.db);
    if BaseRef !in s.db[Reviews].columns {
      MissingColumnIsLegacy(s.db);
      if !Legacy(s.db) { return Unowned; }
      return if s.db[Reviews].rows != map[] then ReviewsExist else Restored;
    }
    if BaseRef !in s.db[Reviews].required { return WrongShape; }
    if s.db[Reviews].rows != map[] { return ReviewsExist; }
    r := RestoreQueueKey(s);
    HeadCollisionIs(s.db);
    if r != Restored { return; }
    r := RestoreSubjectKey(s);
    if r != Restored { return; }
    SubjectChangeStep(s.db, DropColumn);
    var o := Run(s, Reviews, DropColumn);
    if o != Committed { return Died; }
    MissingColumnIsLegacy(s.db);
  }
}
