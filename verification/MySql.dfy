/** A server whose DDL commits statement by statement. Between any two statements live writers
    change rows, and the migrating process can die; a later run starts again from what it finds. */
module MySql {
  import opened ThreeValued
  import opened Relational

  datatype Outcome = Committed | Rejected | Crashed

  datatype Event =
    | Wrote(before: Db, after: Db)
    | Ran(before: Db, statement: Statement, after: Db)

  ghost predicate Happened(e: Event) {
    match e
    case Wrote(a, b) => WriterStep(a, b)
    case Ran(a, s, b) => Applicable(a, s) && Commits(a, s) && b == Effect(a, s)
  }

  /** The events lead from one database state to the other, each starting where the last ended. */
  ghost predicate Leads(from: Db, events: seq<Event>, to: Db) {
    if events == [] then from == to
    else
      var e := events[|events| - 1];
      Leads(from, events[..|events| - 1], e.before) && Happened(e) && e.after == to
  }

  lemma LeadsOnce(from: Db, events: seq<Event>, to: Db, other: Db)
    requires Leads(from, events, to) && Leads(from, events, other)
    ensures to == other
  {
  }

  /** The later part of a run leads from where the earlier part ended. */
  lemma {:induction false} LeadsOn(from: Db, first: seq<Event>, mid: Db, events: seq<Event>, to: Db)
    requires Leads(from, first, mid) && first <= events && Leads(from, events, to)
    ensures Leads(mid, events[|first|..], to)
  {
    hide Happened;
    if first == events {
      LeadsOnce(from, first, mid, to);
      assert events[|first|..] == [];
    } else {
      var rest, e := events[..|events| - 1], events[|events| - 1];
      LeadsOn(from, first, mid, rest, e.before);
      var later := events[|first|..];
      assert later[|later| - 1] == e && later[..|later| - 1] == rest[|first|..];
    }
  }

  /** Every event of a run did happen. */
  lemma {:induction false} AllHappened(from: Db, events: seq<Event>, to: Db, k: nat)
    requires Leads(from, events, to) && k < |events|
    ensures Happened(events[k])
  {
    hide Happened;
    var last := |events| - 1;
    if k < last {
      assert events[..last][k] == events[k];
      AllHappened(from, events[..last], events[last].before, k);
    }
  }

  /** How many statements of a run took effect. */
  ghost function Statements(events: seq<Event>): nat {
    if events == [] then 0
    else Statements(events[..|events| - 1]) + if events[|events| - 1].Ran? then 1 else 0
  }

  /** What every single event keeps, a whole run keeps: writers and crashes anywhere, any number of
      attempts. `inv` is about states, `issued` about what the script may do, `safe` about one event. */
  lemma {:induction false} RunInvariant(inv: Db -> bool, issued: Event -> bool, safe: Event -> bool,
                                        from: Db, events: seq<Event>, to: Db)
    requires Leads(from, events, to) && inv(from)
    requires forall k | 0 <= k < |events| :: issued(events[k])
    requires forall e: Event :: Happened(e) && inv(e.before) && issued(e) ==> safe(e) && inv(e.after)
    ensures inv(to)
    ensures forall k | 0 <= k < |events| :: safe(events[k])
  {
    hide Happened;
    if events != [] {
      RunInvariant(inv, issued, safe, from, events[..|events| - 1], events[|events| - 1].before);
    }
  }

  lemma StatementDecides(db: Db, s: Statement)
    requires ValidDb(db) && Applicable(db, s)
    ensures s.Alter? ==> (Commits(db, s) <==> RowsMeet(db[s.table], s.change))
    ensures s.Create? || s.Drop? ==> Commits(db, s)
  {
    hide RowsMeet, Altered, Filled, Accepts, Relational.Valid;
    match s
    case Alter(n, ch) =>
      AlterCommits(db[n], ch);
      ValidLocally(db, n, Altered(db[n], ch));
    case Create(n, t) =>
      EmptyIsValid(t);
      ValidLocally(db, n, t);
    case _ =>
  }

  lemma RanLeads(origin: Db, events: seq<Event>, db: Db, s: Statement)
    requires Leads(origin, events, db) && Applicable(db, s) && Commits(db, s)
    ensures ValidDb(Effect(db, s)) && Leads(origin, events + [Ran(db, s, Effect(db, s))], Effect(db, s))
  {
    hide ValidDb, Effect, Applicable;
    var e := Ran(db, s, Effect(db, s));
    assert (events + [e])[..|events|] == events;
  }

  lemma EmptyIsValid(t: Table)
    requires t.rows == map[]
    ensures Relational.Valid(t)
  {
  }

  class Server {
    var db: Db
    ghost var origin: Db
    ghost var events: seq<Event>
    ghost var deaths: nat  // of the migrating process

    ghost predicate Valid()
      reads this`db, this`origin, this`events
    {
      ValidDb(db) && Leads(origin, events, db)
    }

    /** Whatever the writers do before the next statement. */
    method Interleave()
      requires Valid()
      modifies this`db, this`events
      ensures Valid() && origin == old(origin)
      ensures SameSchemas(old(db), db)
      ensures events == old(events) + [Wrote(old(db), db)]
    {
      var next: Db := *;
      if !WriterStep(db, next) { next := db; }
      events := events + [Wrote(db, next)];
      db := next;
    }

    /** The statement itself: all of it or none of it. An ALTER commits exactly when the rows as they
        stand meet what it adds, CREATE and DROP always do. */
    method Apply(s: Statement) returns (committed: bool)
      requires Valid() && Applicable(db, s)
      modifies this`db, this`events
      ensures Valid() && origin == old(origin)
      ensures s.Alter? ==> (committed <==> RowsMeet(old(db)[s.table], s.change))
      ensures s.Create? || s.Drop? ==> committed
      ensures committed == Commits(old(db), s)
      ensures db == if committed then Effect(old(db), s) else old(db)
      ensures events == old(events) + if committed then [Ran(old(db), s, db)] else []
    {
      hide RowsMeet, ValidDb, Commits, Effect, Applicable, Leads;
      StatementDecides(db, s);
      committed := Commits(db, s);
      if committed { RanLeads(origin, events, db, s); }
      if committed {
        events := events + [Ran(db, s, Effect(db, s))];
        db := Effect(db, s);
      }
    }

    /** One statement of a migration: writers run before and after it, and the process can die
        on either side of it. */
    method Execute(s: Statement) returns (o: Outcome)
      requires Valid() && Applicable(db, s)
      modifies this
      ensures Valid() && origin == old(origin)
      ensures deaths == old(deaths) + if o == Crashed then 1 else 0
      ensures o == Committed ==> SameSchemas(Effect(old(db), s), db)
      ensures o == Committed ==>
                && |events| == |old(events)| + 3 && events[|old(events)| + 1].Ran?
                && events[|old(events)| + 1].statement == s
      ensures o == Rejected ==> SameSchemas(old(db), db) && Applicable(db, s) && !Commits(db, s)
      ensures o == Crashed ==> SameSchemas(old(db), db) || SameSchemas(Effect(old(db), s), db)
      ensures old(events) <= events
      ensures forall k | |old(events)| <= k < |events| && events[k].Ran? ::
                SameSchemas(old(db), events[k].before) && events[k].statement == s
    {
      hide *;
      Interleave();
      ghost var before := db;
      SchemaDecides(old(db), before, s);
      if * {
        deaths := deaths + 1;
        return Crashed;
      }
      var committed := Apply(s);
      if !committed { return Rejected; }
      Interleave();
      SameSchemasTransitive(Effect(old(db), s), Effect(before, s), db);
      if * {
        deaths := deaths + 1;
        return Crashed;
      }
      o := Committed;
    }
  }

  /** The events of this attempt alone, as a run of their own. */
  lemma AttemptRun(s: Server, origin: Db, first: seq<Event>, before: Db)
    requires s.Valid() && s.origin == origin && Leads(origin, first, before) && first <= s.events
    ensures Leads(before, s.events[|first|..], s.db)
  {
    hide ValidDb, Happened;
    LeadsOn(origin, first, before, s.events, s.db);
  }
}
