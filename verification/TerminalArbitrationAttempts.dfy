/** Any sequence of attempts at the terminal-arbitration migration, in either direction, against one
    live server. */
module TerminalArbitrationAttempts {
  import opened ThreeValued
  import opened Relational
  import opened MySql
  import opened TerminalArbitration
  import opened TerminalArbitrationRuns
  import opened TerminalArbitrationScript

  datatype Command = Up | Down

  predicate AllDown(commands: seq<Command>) { forall k | 0 <= k < |commands| :: commands[k] == Down }

  ghost predicate OnlyScripted(events: seq<Event>, from: nat) {
    forall k | from <= k < |events| :: DowngradeEvent(events[k]) || UpgradeEvent(events[k])
  }

  /** A state with a row in the way of the command. */
  ghost predicate Obstructs(c: Command, e: Event) {
    Schema(e.after) && if c == Down then DowngradeConflict(e.after) else UpgradeConflict(e.after)
  }

  ghost predicate Obstructed(c: Command, events: seq<Event>, from: nat) {
    exists j | from <= j < |events| :: Obstructs(c, events[j])
  }

  lemma StillObstructed(commands: seq<Command>, results: seq<Result>, events: seq<Event>, more: seq<Event>, from: nat)
    requires |results| <= |commands| && events <= more
    requires forall k | 0 <= k < |results| && results[k] in {AlterRejected, Preflight} :: Obstructed(commands[k], events, from)
    ensures forall k | 0 <= k < |results| && results[k] in {AlterRejected, Preflight} :: Obstructed(commands[k], more, from)
  {
    hide Obstructs, Obstructed;
    forall k | 0 <= k < |results| && results[k] in {AlterRejected, Preflight} ensures Obstructed(commands[k], more, from) {
      ObstructedFurther(commands[k], events, more, from);
    }
  }

  lemma ObstructedSince(c: Command, events: seq<Event>, from: nat, earlier: nat)
    requires Obstructed(c, events, from) && earlier <= from
    ensures Obstructed(c, events, earlier)
  {
    hide Obstructs;
  }

  lemma ObstructedFurther(c: Command, events: seq<Event>, more: seq<Event>, from: nat)
    requires Obstructed(c, events, from) && events <= more
    ensures Obstructed(c, more, from)
  {
    hide Obstructs;
    var j :| from <= j < |events| && Obstructs(c, events[j]);
    assert more[j] == events[j];
  }

  /** What writers cannot change. */
  lemma SharedState(a: Db, b: Db)
    requires SameSchemas(a, b) && Schema(a)
    ensures Schema(b) && (Gated(a) ==> Gated(b)) && (Legacy(a) ==> Legacy(b))
  {
    hide TableSchema, Gated, Legacy, DowngradeDistance, NextDowngrade;
    DistanceShared(a, b);
    DowngradeEnds(a);
    DowngradeEnds(b);
    if Gated(a) { GatedShared(a, b); }
  }

  /** The state a run has come to is the one its last event left. */
  lemma LastObstructs(s: Server, c: Command, from: nat)
    requires s.Valid() && Schema(s.db) && from < |s.events|
    requires if c == Down then DowngradeConflict(s.db) else UpgradeConflict(s.db)
    ensures Obstructed(c, s.events, from)
  {
    hide ValidDb, Happened, DowngradeConflict, UpgradeConflict, Schema;
    assert Obstructs(c, s.events[|s.events| - 1]);
  }

  lemma ScriptedFurther(events: seq<Event>, more: seq<Event>, from: nat)
    requires from <= |events| && events <= more && OnlyScripted(events, from)
    requires OnlyScripted(more, |events|)
    ensures OnlyScripted(more, from)
    ensures OnlyDowngrade(events, from) && OnlyDowngrade(more, |events|) ==> OnlyDowngrade(more, from)
  {
    hide DowngradeEvent, UpgradeEvent;
    forall k | from <= k < |more| ensures DowngradeEvent(more[k]) || UpgradeEvent(more[k]) {
      if k < |events| { assert more[k] == events[k]; }
    }
    if OnlyDowngrade(events, from) && OnlyDowngrade(more, |events|) {
      forall k | from <= k < |more| ensures DowngradeEvent(more[k]) {
        if k < |events| { assert more[k] == events[k]; }
      }
    }
  }

  /** The run of all the attempts loses nothing. */
  lemma AttemptsLoseNothing(before: Db, events: seq<Event>, from: nat, after: Db)
    requires from <= |events| && Leads(before, events[from..], after) && Schema(before) && ValidDb(before)
    requires OnlyScripted(events, from)
    ensures forall k | from <= k < |events| :: SafeEvent(events[k])
  {
    hide DowngradeEvent, UpgradeEvent, Leads, Schema, ValidDb, SafeEvent;
    var run := events[from..];
    RunLosesNothing(before, run, after);
    forall k | from <= k < |events| ensures SafeEvent(events[k]) { assert events[k] == run[k - from]; }
  }

  function Crashes(results: seq<Result>): nat {
    if results == [] then 0
    else Crashes(results[..|results| - 1]) + if results[|results| - 1] == Crash then 1 else 0
  }

  /** Writers, and then one attempt. */
  method One(s: Server, c: Command) returns (r: Result)
    requires s.Valid() && Schema(s.db)
    modifies s
    ensures s.Valid() && Schema(s.db) && s.origin == old(s.origin) && old(s.events) <= s.events
    ensures s.deaths == old(s.deaths) + if r == Crash then 1 else 0
    ensures OnlyScripted(s.events, |old(s.events)|) && (c == Down ==> OnlyDowngrade(s.events, |old(s.events)|))
    ensures r in {AlterRejected, Preflight} ==> Obstructed(c, s.events, |old(s.events)|)
    ensures c == Down ==> (r == Done || old(Legacy(s.db)) ==> Legacy(s.db))
    ensures c == Down && old(Gated(s.db)) ==> Gated(s.db) && r in {Done, Crash}
  {
    hide ValidDb, Leads, Schema, Gated, Legacy, DowngradeDistance, OnlyScripted, OnlyDowngrade, OnlyUpgrade,
      Obstructed, ReceiptsUngated, PhaseOneOwed, Current, UpgradeDistance, DowngradeConflict, UpgradeConflict;
    ghost var was, first := s.db, s.events;
    s.Interleave();
    SharedState(was, s.db);
    ghost var so, db := s.events, s.db;
    if c == Down {
      r := Downgrade(s);
      LegacyStays(db, s.db, Statements(s.events[|so|..]));
    } else {
      r := Upgrade(s);
    }
    AfterWriters(first, so, s.events);
    if r in {AlterRejected, Preflight} { LastObstructs(s, c, |first|); }
  }

  lemma AfterWriters(first: seq<Event>, so: seq<Event>, events: seq<Event>)
    requires first <= so <= events && |so| == |first| + 1 && so[|first|].Wrote?
    requires OnlyDowngrade(events, |so|) || OnlyUpgrade(events, |so|)
    ensures OnlyScripted(events, |first|) && (OnlyDowngrade(events, |so|) ==> OnlyDowngrade(events, |first|))
  {
    hide UpgradeIssues, DowngradeIssues, Schema;
    assert events[|first|] == so[|first|];
  }

  /** Whatever the attempts, and whatever writers do before, in and between them, no event loses anything,
      and an attempt that is refused met a row in its way: without such a row in any state
      every attempt gets through, dies, or stops at a fenced receipt table. If all of them are downgrades, then
      together they commit exactly the distance covered, at most eleven statements; once one of them
      has come through, the schema is the legacy one for good; and if the gates were in at the start,
      each of them comes through or dies. */
  method Attempt(s: Server, commands: seq<Command>) returns (results: seq<Result>)
    requires s.Valid() && Schema(s.db)
    modifies s
    ensures s.Valid() && Schema(s.db) && s.origin == old(s.origin) && old(s.events) <= s.events
    ensures |results| == |commands| && s.deaths == old(s.deaths) + Crashes(results)
    ensures forall k | |old(s.events)| <= k < |s.events| :: SafeEvent(s.events[k])
    ensures AllDown(commands) ==>
              Statements(s.events[|old(s.events)|..]) + DowngradeDistance(s.db) == old(DowngradeDistance(s.db)) <= 11
    ensures forall k | 0 <= k < |results| && results[k] in {AlterRejected, Preflight} ::
              Obstructed(commands[k], s.events, |old(s.events)|)
    ensures AllDown(commands) && Done in results ==> Legacy(s.db)
    ensures AllDown(commands) && old(Gated(s.db)) ==> forall k | 0 <= k < |results| :: results[k] in {Done, Crash}
  {
    hide ValidDb, Leads, Schema, Gated, Legacy, DowngradeDistance, OnlyScripted, OnlyDowngrade, OnlyUpgrade, SafeEvent,
      Obstructed, ReceiptsUngated, PhaseOneOwed, Current, UpgradeDistance, DowngradeConflict, UpgradeConflict;
    ghost var before, first, origin := s.db, s.events, s.origin;
    results := [];
    NothingScripted(s.events);
    for k := 0 to |commands|
      invariant s.Valid() && Schema(s.db) && s.origin == origin && first <= s.events && |results| == k
      invariant s.deaths == old(s.deaths) + Crashes(results)
      invariant OnlyScripted(s.events, |first|)
      invariant forall j | 0 <= j < k && results[j] in {AlterRejected, Preflight} :: Obstructed(commands[j], s.events, |first|)
      invariant AllDown(commands) ==> OnlyDowngrade(s.events, |first|)
      invariant AllDown(commands) && Done in results ==> Legacy(s.db)
      invariant AllDown(commands) && Gated(before) ==> Gated(s.db) && forall j | 0 <= j < k :: results[j] in {Done, Crash}
    {
      ghost var so := s.events;
      var r := One(s, commands[k]);
      ScriptedFurther(so, s.events, |first|);
      StillObstructed(commands, results, so, s.events, |first|);
      if r in {AlterRejected, Preflight} { ObstructedSince(commands[k], s.events, |so|, |first|); }
      assert (results + [r])[..k] == results;
      results := results + [r];
    }
    AttemptRun(s, origin, first, before);
    AttemptsLoseNothing(before, s.events, |first|, s.db);
    if AllDown(commands) { DowngradeRunOf(before, s.events, |first|, s.db); }
  }

  lemma NothingScripted(events: seq<Event>)
    ensures OnlyScripted(events, |events|) && OnlyDowngrade(events, |events|)
  {
  }

  lemma LegacyStays(before: Db, after: Db, statements: nat)
    requires Schema(before) && Schema(after) && statements + DowngradeDistance(after) == DowngradeDistance(before)
    ensures Legacy(before) ==> Legacy(after)
  {
    hide Legacy, DowngradeDistance, NextDowngrade, TableSchema;
    DowngradeEnds(before);
    DowngradeEnds(after);
  }

  lemma DowngradeRunOf(before: Db, events: seq<Event>, from: nat, after: Db)
    requires Schema(before) && ValidDb(before) && from <= |events| && Leads(before, events[from..], after)
    requires OnlyDowngrade(events, from)
    ensures Schema(after)
    ensures Statements(events[from..]) + DowngradeDistance(after) == DowngradeDistance(before) <= 11
  {
    hide Legacy, DowngradeDistance, NextDowngrade, TableSchema, Leads, ValidDb, DowngradeEvent;
    DowngradeRunPays(before, events[from..], after);
    DowngradeEnds(before);
  }
}
