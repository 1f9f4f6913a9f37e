/** The credential swap of `codex_login` in scripts/codex_login.py. Every call that can raise may raise
    here, before or after it has taken effect, an interrupt may arrive between any two statements, and a
    child process may rewrite or remove auth.json for as long as it runs. */
module CodexLogin {
  import opened ThreeValued

  type Credential = Nullable<string>

  datatype Files = Files(auth: Credential, backup: Credential)

  /** How the guarded body ends: it sets `login_succeeded`, returns an error, or raises. */
  datatype BodyEnd = Succeeded | Returned | BodyRaised

  datatype Outcome = LoggedIn | ErrorResult | Raised

  /** The credential there was before the login, if any, is in one of the two files. */
  predicate Survives(old_: Credential, f: Files) { old_.Null? || f.auth == old_ || f.backup == old_ }

  function Ticks(b: bool): nat { if b then 1 else 0 }

  /** At some step from `from` on the old credential was aside and auth.json was there. */
  ghost predicate Written(old_: Credential, trace: seq<Files>, from: nat) {
    exists k | from <= k < |trace| :: trace[k].backup == old_ && trace[k].auth.Is?
  }

  lemma WrittenFurther(old_: Credential, trace: seq<Files>, more: seq<Files>, from: nat, since: nat)
    requires Written(old_, trace, from) && trace <= more && since <= from
    ensures Written(old_, more, since)
  {
    var k :| from <= k < |trace| && trace[k].backup == old_ && trace[k].auth.Is?;
    assert more[k] == trace[k];
  }

  class Home {
    var auth: Credential    // auth.json
    var backup: Credential  // the uniquely named backup of this attempt
    var loginRuns: bool     // `codex login` is alive
    var smokeRuns: bool     // a smoke test is alive that nobody waits for any more
    ghost var trace: seq<Files>
    ghost var faults: nat      // exceptions raised and interrupts received
    ghost var complaints: nat  // reasons the body found to give up

    ghost function Now(): Files
      reads this`auth, this`backup
    {
      Files(auth, backup)
    }

    ghost predicate Traced()
      reads this`auth, this`backup, this`trace
    {
      trace != [] && trace[|trace| - 1] == Now()
    }

    /** Some child can still write. */
    predicate Outlives()
      reads this`loginRuns, this`smokeRuns
    {
      loginRuns || smokeRuns
    }

    /** Something raises here, or nothing does. */
    method Fault() returns (raised: bool)
      modifies this`faults
      ensures faults == old(faults) + Ticks(raised)
    {
      raised := *;
      if raised { faults := faults + 1; }
    }

    /** The body finds a reason to give up, or none. */
    method Complaint() returns (found: bool)
      modifies this`complaints
      ensures complaints == old(complaints) + Ticks(found)
    {
      found := *;
      if found { complaints := complaints + 1; }
    }

    /** os.replace (auth.json, candidate) and the assignment of `backup_path`. An interrupt may fall before
        the rename or between the two: then the rename has happened and no variable names the file. */
    method MoveAside() returns (named: bool)
      requires Traced() && auth.Is?
      modifies this`auth, this`backup, this`trace, this`faults
      ensures Traced() && trace == old(trace) + [Now()] && faults == old(faults) + Ticks(!named)
      ensures Now() == Files(Null, old(auth)) || (!named && Now() == old(Now()))
    {
      var raised := Fault();
      named := !raised;
      var moved: bool := *;
      if named || moved { auth, backup := Null, auth; }
      trace := trace + [Now()];
    }

    /** os.replace (backup_path, auth.json), which overwrites whatever is there. */
    method MoveBack() returns (raised: bool)
      requires Traced() && backup.Is?
      modifies this`auth, this`backup, this`trace, this`faults
      ensures Traced() && trace == old(trace) + [Now()] && faults == old(faults) + Ticks(raised)
      ensures Now() == Files(old(backup), Null) || (raised && Now() == old(Now()))
    {
      raised := Fault();
      var moved: bool := *;
      if !raised || moved { auth, backup := backup, Null; }
      trace := trace + [Now()];
    }

    /** unlink (missing_ok) of the backup. */
    method UnlinkBackup() returns (raised: bool)
      requires Traced()
      modifies this`backup, this`trace, this`faults
      ensures Traced() && trace == old(trace) + [Now()] && faults == old(faults) + Ticks(raised)
      ensures backup.Null? || (raised && backup == old(backup))
    {
      raised := Fault();
      var gone: bool := *;
      if !raised || gone { backup := Null; }
      trace := trace + [Now()];
    }

    /** unlink (missing_ok) of auth.json. */
    method UnlinkAuth() returns (raised: bool)
      requires Traced()
      modifies this`auth, this`trace, this`faults
      ensures Traced() && trace == old(trace) + [Now()] && faults == old(faults) + Ticks(raised)
      ensures auth.Null? || (raised && auth == old(auth))
    {
      raised := Fault();
      var gone: bool := *;
      if !raised || gone { auth := Null; }
      trace := trace + [Now()];
    }

    /** Anything a living child does to auth.json. */
    method ChildRuns()
      requires Traced()
      modifies this`auth, this`trace
      ensures Traced() && trace == old(trace) + [Now()]
      ensures !Outlives() ==> auth == old(auth)
    {
      if Outlives() { auth := *; }
      trace := trace + [Now()];
    }

    /** From its start on the child may write; the backup is left alone. */
    method Observe() returns (raised: bool)
      requires Traced()
      modifies this`auth, this`trace, this`faults
      ensures Traced() && trace == old(trace) + [Now()] && faults == old(faults) + Ticks(raised)
    {
      ChildRuns();
      raised := Fault();
    }

    /** From the start of the child to the auth.json it writes. `started` says that `proc` is assigned; the
        body goes on as long as it neither raises nor gives up, and then auth.json was there at the last
        step. */
    method Obtain() returns (end: BodyEnd, started: bool)
      requires Traced()
      modifies this`auth, this`trace, this`loginRuns, this`faults, this`complaints
      ensures Traced() && old(trace) <= trace && |trace| > |old(trace)|
      ensures forall k | |old(trace)| <= k < |trace| :: trace[k].backup == backup
      ensures faults == old(faults) + Ticks(end == BodyRaised) && complaints == old(complaints) + Ticks(end == Returned)
      ensures end != BodyRaised ==> started
      ensures end == Succeeded ==> auth.Is?
    {
      end, started := BodyRaised, false;
      loginRuns := *;  // create_subprocess_exec: an interrupt may leave a child that `proc` does not name
      var raised := Observe();
      if raised { return; }
      loginRuns, started := true, true;
      raised := Observe();
      if raised { return; }
      var found := Complaint();  // no authorize URL, no playwright
      if found { return Returned, started; }
      raised := Observe();  // the browser
      if raised { return; }
      ChildRuns();
      if auth.Null? {  // codex did not write auth.json
        complaints := complaints + 1;
        return Returned, started;
      }
      end := Succeeded;
    }

    /** From the start of the child on, the body does not touch the backup. */
    method Drive() returns (end: BodyEnd, started: bool)
      requires Traced()
      modifies this`auth, this`trace, this`loginRuns, this`smokeRuns, this`faults, this`complaints
      ensures Traced() && old(trace) <= trace
      ensures forall k | |old(trace)| <= k < |trace| :: trace[k].backup == backup
      ensures end == Succeeded ==> started && Written(backup, trace, |old(trace)|)
      ensures end == Returned ==> started && |trace| > |old(trace)|
      ensures faults == old(faults) + Ticks(end == BodyRaised) && complaints == old(complaints) + Ticks(end == Returned)
    {
      end, started := Obtain();
      if end != Succeeded { return; }
      ghost var so := trace;
      assert so[|so| - 1].auth.Is? && so[|so| - 1].backup == backup && Written(backup, so, |old(trace)|);
      end := BodyRaised;
      var raised := Fault();  // config.toml
      if raised { return; }
      smokeRuns := *;  // killed at its timeout or cancelled, and not waited for in either case
      raised := Observe();  // the smoke test
      if raised { return; }
      WrittenFurther(backup, so, trace, |old(trace)|, |old(trace)|);
      end := Succeeded;
    }

    /** The guarded body. The child runs only once the old credential has been moved aside. `named` says
        that `backup_path` is assigned; the backup is orphaned when the rename took place and the
        assignment did not. */
    method Body(hadAuth: bool) returns (end: BodyEnd, started: bool, named: bool, ghost orphaned: bool)
      requires Traced() && backup.Null? && !Outlives() && hadAuth == auth.Is?
      modifies this
      ensures Traced() && old(trace) <= trace
      ensures forall k | |old(trace)| <= k < |trace| :: Survives(old(auth), trace[k])
      ensures backup == if named || orphaned then old(auth) else Null
      ensures named || orphaned ==> hadAuth && named != orphaned
      ensures hadAuth && !named ==> end == BodyRaised && !Outlives() && auth == if orphaned then Null else old(auth)
      ensures end == Succeeded ==> started && named == hadAuth && Written(old(auth), trace, |old(trace)|)
      ensures end == Returned ==> started && |trace| > |old(trace)|
      ensures faults == old(faults) + Ticks(end == BodyRaised) && complaints == old(complaints) + Ticks(end == Returned)
    {
      ghost var original, first := auth, trace;
      end, started, named, orphaned := BodyRaised, false, false, false;
      var raised := Fault();
      if raised { return; }
      if hadAuth {
        named := MoveAside();
        orphaned := !named && backup.Is?;
        if !named { return; }
        raised := Fault();  // chmod
        if raised { return; }
      }
      ghost var so := trace;
      end, started := Drive();
      if end == Succeeded { WrittenFurther(backup, trace, trace, |so|, |first|); }
    }

    /** Kill the child and wait for it; either call may raise, and the child may live on then. */
    method Kill(started: bool) returns (cleanupSucceeded: bool)
      requires Traced()
      modifies this
      ensures Traced() && trace == old(trace) + [Now()] && backup == old(backup)
      ensures faults == old(faults) + Ticks(!cleanupSucceeded) && complaints == old(complaints)
      ensures !old(Outlives()) ==> auth == old(auth) && !Outlives()
      ensures cleanupSucceeded && started ==> !loginRuns
      ensures !old(loginRuns) ==> !loginRuns
    {
      ChildRuns();
      if * { loginRuns := false; }  // either may have ended by itself
      if * { smokeRuns := false; }
      var raised := Fault();
      cleanupSucceeded := !raised;
      if started && loginRuns {
        loginRuns := *;
        if cleanupSucceeded { loginRuns := false; }
      }
    }

    /** Commit to the new credential or put the old state back. `restored` says that the restoring rename
        or unlink, if this clause knows of one to do, took place. */
    method Resolve(hadAuth: bool, named: bool, success: bool, ghost original: Credential, ghost orphaned: bool)
        returns (raised: bool, ghost restored: bool, ghost committed: bool)
      requires Traced() && hadAuth == original.Is?
      requires backup == if named || orphaned then original else Null
      requires named || orphaned ==> hadAuth && named != orphaned
      requires hadAuth && !named ==> !success && !Outlives() && auth == if orphaned then Null else original
      modifies this`auth, this`backup, this`trace, this`faults
      ensures Traced() && old(trace) <= trace
      ensures forall k | |old(trace)| <= k < |trace| - Ticks(committed) :: Survives(original, trace[k])
      ensures committed ==> success && backup.Null? && (!Outlives() ==> auth == old(auth))
      ensures !committed && restored && !orphaned ==> Now() == Files(original, Null)
      ensures orphaned ==> Now() == old(Now())
      ensures !raised ==> restored && (committed <==> success)
      ensures faults >= old(faults) && (raised <==> faults > old(faults))
    {
      raised, restored, committed := true, false, false;
      var failed := Fault();  // before the first test
      if failed { return; }
      if success {
        if !named {
          raised, restored, committed := false, true, true;
          return;
        }
        raised := UnlinkBackup();
        committed, restored := backup.Null?, !raised;
        if backup.Is? {
          ChildRuns();
          failed := Fault();  // exists
          if failed { return; }
          failed := MoveBack();
          restored := backup.Null?;
        }
      } else if named {
        raised := MoveBack();
        restored := backup.Null?;
      } else if !hadAuth {
        raised := UnlinkAuth();
        restored := auth.Null?;
      } else {
        raised, restored := false, true;
      }
    }

    /** The `finally` clause, and what a child that has outlived it does next. */
    method Settle(hadAuth: bool, named: bool, end: BodyEnd, started: bool, ghost original: Credential, ghost orphaned: bool)
        returns (raised: bool, ghost restored: bool, ghost committed: bool, ghost childLeft: Credential)
      requires Traced() && hadAuth == original.Is?
      requires backup == if named || orphaned then original else Null
      requires named || orphaned ==> hadAuth && named != orphaned
      requires hadAuth && !named ==> end == BodyRaised && !Outlives() && auth == if orphaned then Null else original
      modifies this
      ensures Traced() && old(trace) <= trace
      ensures forall k | |old(trace)| <= k < |trace| - Ticks(committed) - Ticks(Outlives()) :: Survives(original, trace[k])
      ensures committed ==> end == Succeeded && backup.Null? && (!Outlives() ==> auth == childLeft)
      ensures !committed && restored && !orphaned && !Outlives() ==> Now() == Files(original, Null)
      ensures orphaned ==> Now() == old(Now()) && !Outlives()
      ensures !raised ==> restored && (committed <==> end == Succeeded)
      ensures !committed && end == Succeeded ==> raised
      ensures faults >= old(faults) && (raised <==> faults > old(faults)) && complaints == old(complaints)
      ensures started && (committed || !raised) ==> !loginRuns
    {
      var cleanupSucceeded := Kill(started);
      childLeft := auth;
      raised, restored, committed :=
        Resolve(hadAuth, named, end == Succeeded && cleanupSucceeded, original, orphaned);
      raised := raised || !cleanupSucceeded;
      if Outlives() { ChildRuns(); }
    }

    /** The whole login. The old credential is in one of the two files at every step until the login
        commits or a child that outlives the login writes again. Without such a child it ends committed,
        with the file the child left and no backup; or orphaned, with no auth.json and the credential in a
        backup nobody names; or, if the restoring rename or unlink took place, exactly as it began. It
        raises exactly when something raised, and logs in when nothing did and the body had no complaint. */
    method Login(prerequisites: bool)
        returns (o: Outcome, ghost restored: bool, ghost committed: bool, ghost orphaned: bool, ghost childLeft: Credential)
      requires Traced() && backup.Null? && !Outlives()
      modifies this
      ensures Traced() && old(trace) <= trace
      ensures forall k | |old(trace)| <= k < |trace| - Ticks(committed) - Ticks(Outlives()) :: Survives(old(auth), trace[k])
      ensures o == LoggedIn ==> committed
      ensures committed ==> backup.Null? && (!Outlives() ==> auth == childLeft) && !loginRuns
      ensures committed ==> Written(old(auth), trace, |old(trace)|)
      ensures o in {LoggedIn, ErrorResult} ==> !loginRuns
      ensures o == ErrorResult && prerequisites ==> |trace| > |old(trace)|
      ensures o == Raised <==> faults > old(faults)
      ensures o == ErrorResult ==> !prerequisites || complaints > old(complaints)
      ensures prerequisites && faults == old(faults) && complaints == old(complaints) ==> o == LoggedIn
      ensures !committed && restored && !orphaned && !Outlives() ==> Now() == Files(old(auth), Null)
      ensures !committed && !restored ==> o == Raised
      ensures orphaned ==> o == Raised && !committed && !Outlives() && old(auth).Is? && Now() == Files(Null, old(auth))
      ensures !prerequisites ==> o == ErrorResult && Now() == old(Now()) && trace == old(trace)
    {
      ghost var original := auth;
      restored, committed, orphaned, childLeft := true, false, false, auth;
      if !prerequisites { return ErrorResult, restored, committed, orphaned, childLeft; }
      var failed := Fault();  // mkdir, chmod
      if failed { return Raised, restored, committed, orphaned, childLeft; }
      var hadAuth := auth.Is?;
      var end, started, named;
      end, started, named, orphaned := Body(hadAuth);
      ghost var middle := trace;
      var raised;
      raised, restored, committed, childLeft := Settle(hadAuth, named, end, started, original, orphaned);
      if committed { WrittenFurther(original, middle, trace, |old(trace)|, |old(trace)|); }
      var late := Fault();  // after the last statement of the body
      o := if raised || late || end == BodyRaised then Raised else if end == Returned then ErrorResult else LoggedIn;
    }
  }
}
