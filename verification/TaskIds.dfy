/** Task ids on SQLite: the high-water mark of alembic/versions/9e5b2a7c4d10_add_delivery_loop_state.py,
    the table rebuilds of that migration and of 4b8d2f6a1c90_add_terminal_arbitration_identity.py, and
    the purge of stale access grants. */
module TaskIds {
  import opened ThreeValued

  // ---- MAX ----

  predicate IsMax(m: Nullable<int>, s: set<int>) {
    (m.Null? <==> s == {}) && (m.Is? ==> m.value in s && forall y | y in s :: y <= m.value)
  }

  predicate IsLargest(x: int, s: set<int>) { x in s && forall y | y in s :: y <= x }

  lemma Element<T>(s: set<T>) returns (x: T)
    requires s != {}
    ensures x in s
  {
    x :| x in s;
  }

  lemma {:induction false} MaxExists(s: set<int>)
    requires s != {}
    ensures exists x :: IsLargest(x, s)
    decreases |s|
  {
    var x := Element(s);
    var rest := s - {x};
    if rest != {} {
      MaxExists(rest);
      var z :| IsLargest(z, rest);
      var m := if z <= x then x else z;
      forall y | y in s ensures y <= m { assert y == x || y in rest; }
      assert IsLargest(m, s);
    } else {
      forall y | y in s ensures y <= x { assert y == x || y in rest; }
      assert IsLargest(x, s);
    }
  }

  /** SELECT MAX: NULL over nothing. */
  function MaxOf(s: set<int>): (m: Nullable<int>)
    ensures IsMax(m, s)
  {
    if s == {} then Null
    else
      MaxExists(s);
      var x :| x in s && IsLargest(x, s);
      Is(x)
  }

  function OrZero(a: Nullable<int>): int { if a.Is? then a.value else 0 }

  function Larger(a: int, b: int): int { if a < b then b else a }

  // ---- An AUTOINCREMENT table ----

  /** The live ids of a table and its row in sqlite_sequence, if any. */
  datatype Ids = Ids(live: set<int>, sequence: Nullable<int>)

  /** The largest id the table is known to have used. */
  function High(t: Ids): int { Larger(0, Larger(OrZero(t.sequence), OrZero(MaxOf(t.live)))) }

  function Inserted(t: Ids): Ids { Ids(t.live + {High(t) + 1}, Is(High(t) + 1)) }

  function Deleted(t: Ids, id: int): Ids { t.(live := t.live - {id}) }

  /** Copying the rows into a new AUTOINCREMENT table starts its sequence afresh: at the largest copied
      id, or, when nothing was copied, at no row or a zero. */
  function Rebuilt(t: Ids, zeroRow: bool): Ids {
    Ids(t.live, if t.live == {} then (if zeroRow then Is(0) else Null) else MaxOf(t.live))
  }

  /** UPDATE ... CASE, and INSERT when there was no row to update. */
  function Advanced(t: Ids, highwater: Nullable<int>): Ids {
    if highwater.Null? then t
    else if t.sequence.Is? && t.sequence.value >= highwater.value then t
    else t.(sequence := highwater)
  }

  /** What the terminal-arbitration migration does to the table in either direction. */
  function Rearranged(t: Ids, zeroRow: bool): Ids { Advanced(Rebuilt(t, zeroRow), t.sequence) }

  /** The sequence has kept up with the live ids. */
  predicate Tracked(t: Ids) { forall id | id in t.live :: t.sequence.Is? && 0 < id <= t.sequence.value }

  datatype Step = Insert | Delete(id: int) | Rearrange(zeroRow: bool)

  function After(t: Ids, step: Step): Ids {
    match step
    case Insert => Inserted(t)
    case Delete(id) => Deleted(t, id)
    case Rearrange(zeroRow) => Rearranged(t, zeroRow)
  }

  function AfterAll(t: Ids, steps: seq<Step>): Ids
    decreases |steps|
  {
    if steps == [] then t else AfterAll(After(t, steps[0]), steps[1..])
  }

  /** The ids the inserts of a history are given, in order. */
  function Issued(t: Ids, steps: seq<Step>): seq<int>
    decreases |steps|
  {
    if steps == [] then []
    else (if steps[0] == Insert then [High(t) + 1] else []) + Issued(After(t, steps[0]), steps[1..])
  }

  lemma StepNeverLowers(t: Ids, step: Step)
    requires Tracked(t)
    ensures Tracked(After(t, step))
    ensures High(After(t, step)) == High(t) + if step == Insert then 1 else 0
  {
    hide MaxOf;
  }

  /** Every id issued is above the mark at the start and above every id issued before it. */
  lemma {:induction false} IssuedAscends(t: Ids, steps: seq<Step>)
    requires Tracked(t)
    ensures Tracked(AfterAll(t, steps))
    ensures forall i | 0 <= i < |Issued(t, steps)| :: Issued(t, steps)[i] == High(t) + 1 + i
    decreases |steps|
  {
    hide After, High, Tracked;
    if steps != [] {
      StepNeverLowers(t, steps[0]);
      IssuedAscends(After(t, steps[0]), steps[1..]);
    }
  }

  lemma LiveIsBelow(t: Ids, id: int)
    requires id in t.live
    ensures id <= High(t)
  {
  }

  function Inserts(n: nat): (steps: seq<Step>)
    ensures |steps| == n
  {
    if n == 0 then [] else [Insert] + Inserts(n - 1)
  }

  lemma {:induction false} InsertsIssue(t: Ids, n: nat)
    requires Tracked(t)
    ensures |Issued(t, Inserts(n))| == n
    decreases n
  {
    hide High, Tracked, After;
    if n > 0 {
      StepNeverLowers(t, Insert);
      assert Inserts(n)[1..] == Inserts(n - 1);
      InsertsIssue(After(t, Insert), n - 1);
    }
  }

  ghost predicate MayBeIssued(t: Ids, id: int) { exists steps :: id in Issued(t, steps) }

  /** An id is safe from every later history exactly when the mark has reached it. */
  lemma IssuedIffAboveMark(t: Ids, id: int)
    requires Tracked(t)
    ensures MayBeIssued(t, id) <==> id > High(t)
  {
    hide High, Tracked;
    forall steps ensures id in Issued(t, steps) ==> id > High(t) { IssuedAscends(t, steps); }
    if id > High(t) {
      var n := id - High(t);
      InsertsIssue(t, n);
      IssuedAscends(t, Inserts(n));
      assert Issued(t, Inserts(n))[n - 1] == id;
    }
  }

  /** No history, with deletions and rebuilds anywhere in it, ever issues the same id twice. */
  lemma NeverIssuedTwice(t: Ids, steps: seq<Step>, i: nat, j: nat)
    requires Tracked(t) && i < j < |Issued(t, steps)|
    ensures Issued(t, steps)[i] < Issued(t, steps)[j]
  {
    IssuedAscends(t, steps);
  }

  // ---- The database ----

  datatype Task = Task(createdAt: Nullable<int>, sharedFromId: Nullable<int>)

  /** A row of task_shares or of team_task_shares. */
  datatype Grant = Grant(taskId: int, createdAt: Nullable<int>)

  function Before(a: Nullable<int>, b: Nullable<int>): Truth {
    if a.Null? || b.Null? then Unknown else Of(a.value < b.value)
  }

  /** The WHERE clause of the purge. */
  predicate Stale(tasks: map<int, Task>, g: Grant) {
    g.taskId !in tasks || Selects(Before(g.createdAt, tasks[g.taskId].createdAt))
  }

  function Kept(tasks: map<int, Task>, grants: map<nat, Grant>): map<nat, Grant> {
    map i | i in grants && !Stale(tasks, grants[i]) :: grants[i]
  }

  /** The legacy ids the high-water query sees. */
  function Mentioned(tasks: map<int, Task>, grants: map<nat, Grant>, received: map<int, Nullable<int>>): set<int> {
    tasks.Keys + (set i | i in grants :: grants[i].taskId)
    + (set i | i in received && received[i].Is? :: received[i].value)
  }

  function MentionedShares(tasks: map<int, Task>, received: map<int, Nullable<int>>): set<int> {
    received.Keys + set i | i in tasks && tasks[i].sharedFromId.Is? :: tasks[i].sharedFromId.value
  }

  lemma LiveIsMentioned(tasks: map<int, Task>, grants: map<nat, Grant>, received: map<int, Nullable<int>>)
    ensures tasks.Keys <= Mentioned(tasks, grants, received) && received.Keys <= MentionedShares(tasks, received)
  {
  }

  /** The id lies above every Task, every grant's Task and every Task a received share is kept as. */
  ghost predicate AboveTasks(id: int, tasks: map<int, Task>, grants: map<nat, Grant>, received: map<int, Nullable<int>>) {
    && (forall k | k in tasks :: k < id)
    && (forall i | i in grants :: grants[i].taskId < id)
    && (forall i | i in received && received[i].Is? :: received[i].value < id)
  }

  /** The id lies above every received share and every share a Task was made from. */
  ghost predicate AboveShares(id: int, tasks: map<int, Task>, received: map<int, Nullable<int>>) {
    && (forall k | k in received :: k < id)
    && (forall i | i in tasks && tasks[i].sharedFromId.Is? :: tasks[i].sharedFromId.value < id)
  }

  lemma AboveMentioned(id: int, tasks: map<int, Task>, grants: map<nat, Grant>, received: map<int, Nullable<int>>)
    ensures AboveTasks(id, tasks, grants, received) <==> forall m | m in Mentioned(tasks, grants, received) :: m < id
    ensures AboveShares(id, tasks, received) <==> forall m | m in MentionedShares(tasks, received) :: m < id
  {
    var ms, ss := Mentioned(tasks, grants, received), MentionedShares(tasks, received);
    assert forall k | k in tasks :: k in ms;
    assert forall i | i in grants :: grants[i].taskId in ms;
    assert forall i | i in received && received[i].Is? :: received[i].value in ms;
    assert forall k | k in received :: k in ss;
    assert forall i | i in tasks && tasks[i].sharedFromId.Is? :: tasks[i].sharedFromId.value in ss;
  }

  lemma IssuableTasks(t: Ids, tasks: map<int, Task>, grants: map<nat, Grant>, received: map<int, Nullable<int>>)
    requires Tracked(t) && High(t) == Larger(0, OrZero(MaxOf(Mentioned(tasks, grants, received))))
    ensures forall id :: MayBeIssued(t, id) <==> id > 0 && AboveTasks(id, tasks, grants, received)
  {
    hide Tracked, High, MaxOf, Mentioned, AboveTasks, MayBeIssued;
    forall id ensures MayBeIssued(t, id) <==> id > 0 && AboveTasks(id, tasks, grants, received) {
      IssuableIffAboveMentioned(t, Mentioned(tasks, grants, received), id);
      AboveMentioned(id, tasks, grants, received);
    }
  }

  lemma IssuableShares(t: Ids, tasks: map<int, Task>, received: map<int, Nullable<int>>)
    requires Tracked(t) && High(t) == Larger(0, OrZero(MaxOf(MentionedShares(tasks, received))))
    ensures forall id :: MayBeIssued(t, id) <==> id > 0 && AboveShares(id, tasks, received)
  {
    hide Tracked, High, MaxOf, MentionedShares, AboveShares, MayBeIssued;
    forall id ensures MayBeIssued(t, id) <==> id > 0 && AboveShares(id, tasks, received) {
      IssuableIffAboveMentioned(t, MentionedShares(tasks, received), id);
      AboveMentioned(id, tasks, map[], received);
    }
  }

  lemma TaskMarkIs(high: int, tasks: map<int, Task>, grants: map<nat, Grant>, received: map<int, Nullable<int>>)
    requires high == Larger(0, OrZero(MaxOf(Mentioned(tasks, grants, received))))
    ensures AboveTasks(high + 1, tasks, grants, received)
    ensures high > 0 ==>
              || high in tasks || (exists i | i in grants :: grants[i].taskId == high)
              || (exists i | i in received :: received[i] == Is(high))
  {
    hide MaxOf;
    AboveMentioned(high + 1, tasks, grants, received);
  }

  lemma ShareMarkIs(high: int, tasks: map<int, Task>, received: map<int, Nullable<int>>)
    requires high == Larger(0, OrZero(MaxOf(MentionedShares(tasks, received))))
    ensures AboveShares(high + 1, tasks, received)
    ensures high > 0 ==> high in received || (exists i | i in tasks :: tasks[i].sharedFromId == Is(high))
  {
    hide MaxOf;
    AboveMentioned(high + 1, tasks, map[], received);
  }

  class Database {
    var tasks: map<int, Task>
    var grants: map<nat, Grant>
    var received: map<int, Nullable<int>>  // id -> local_task_id
    var taskSequence: Nullable<int>
    var receivedSequence: Nullable<int>

    function TaskTable(): Ids
      reads this
    {
      Ids(tasks.Keys, taskSequence)
    }

    function ShareTable(): Ids
      reads this
    {
      Ids(received.Keys, receivedSequence)
    }

    method LegacyTaskIdHighwater() returns (highwater: Nullable<int>)
      ensures IsMax(highwater, Mentioned(tasks, grants, received))
    {
      highwater := MaxOf(Mentioned(tasks, grants, received));
    }

    method LegacySharedIdHighwater() returns (highwater: Nullable<int>)
      ensures IsMax(highwater, MentionedShares(tasks, received))
    {
      highwater := MaxOf(MentionedShares(tasks, received));
    }

    method PurgeStaleGrants()
      modifies this`grants
      ensures grants == Kept(tasks, old(grants))
    {
      grants := map i | i in grants && !Stale(tasks, grants[i]) :: grants[i];
    }

    method RebuildTasks(zeroRow: bool)
      modifies this`taskSequence
      ensures TaskTable() == Rebuilt(old(TaskTable()), zeroRow)
    {
      taskSequence := if tasks.Keys == {} then (if zeroRow then Is(0) else Null) else MaxOf(tasks.Keys);
    }

    method AdvanceTasks(highwater: Nullable<int>)
      modifies this`taskSequence
      ensures TaskTable() == Advanced(old(TaskTable()), highwater)
    {
      if highwater.Null? { return; }
      var advanced := taskSequence.Is?;
      if advanced && taskSequence.value < highwater.value { taskSequence := highwater; }
      if !advanced { taskSequence := highwater; }
    }

    method RebuildReceived(zeroRow: bool)
      modifies this`receivedSequence
      ensures ShareTable() == Rebuilt(old(ShareTable()), zeroRow)
    {
      receivedSequence := if received.Keys == {} then (if zeroRow then Is(0) else Null) else MaxOf(received.Keys);
    }

    method AdvanceReceived(highwater: Nullable<int>)
      modifies this`receivedSequence
      ensures ShareTable() == Advanced(old(ShareTable()), highwater)
    {
      if highwater.Null? { return; }
      var advanced := receivedSequence.Is?;
      if advanced && receivedSequence.value < highwater.value { receivedSequence := highwater; }
      if !advanced { receivedSequence := highwater; }
    }

    /** The delivery-loop upgrade: both marks are taken before the purge removes the grants that
        carry them. Each mark is the largest id of the old rows, so exactly the ids above all of them can
        be issued from now on, and no purged grant's id ever is. */
    method Upgrade(zeroRow: bool)
      requires forall id | id in tasks || id in received :: id > 0
      modifies this
      ensures tasks == old(tasks) && received == old(received)
      ensures grants == Kept(tasks, old(grants))
      ensures Tracked(TaskTable()) && High(TaskTable()) == Larger(0, OrZero(MaxOf(old(Mentioned(tasks, grants, received)))))
      ensures forall id | id in tasks :: id <= High(TaskTable())
      ensures forall i | i in old(grants) :: old(grants)[i].taskId <= High(TaskTable())
      ensures forall i | i in received && received[i].Is? :: received[i].value <= High(TaskTable())
      ensures High(TaskTable()) > 0 ==>
                || High(TaskTable()) in tasks
                || (exists i | i in old(grants) :: old(grants)[i].taskId == High(TaskTable()))
                || (exists i | i in received :: received[i] == Is(High(TaskTable())))
      ensures forall id :: MayBeIssued(TaskTable(), id) <==> id > 0 && AboveTasks(id, tasks, old(grants), received)
      ensures forall id | id in received :: id <= High(ShareTable())
      ensures forall i | i in tasks && tasks[i].sharedFromId.Is? :: tasks[i].sharedFromId.value <= High(ShareTable())
      ensures High(ShareTable()) > 0 ==>
                || High(ShareTable()) in received
                || (exists i | i in tasks :: tasks[i].sharedFromId == Is(High(ShareTable())))
      ensures forall id :: MayBeIssued(ShareTable(), id) <==> id > 0 && AboveShares(id, tasks, received)
      ensures Tracked(ShareTable())
      ensures High(ShareTable()) == Larger(0, OrZero(MaxOf(old(MentionedShares(tasks, received)))))
    {
      hide MaxOf, Mentioned, MentionedShares, Kept, Tracked, High, MayBeIssued;
      LiveIsMentioned(tasks, grants, received);
      var taskMark := LegacyTaskIdHighwater();
      var shareMark := LegacySharedIdHighwater();
      PurgeStaleGrants();
      RebuildTasks(zeroRow);
      MarkReached(TaskTable(), taskMark, Mentioned(tasks, old(grants), received), zeroRow);
      AdvanceTasks(taskMark);
      RebuildReceived(zeroRow);
      MarkReached(ShareTable(), shareMark, MentionedShares(tasks, received), zeroRow);
      AdvanceReceived(shareMark);
      TaskMarkIs(High(TaskTable()), tasks, old(grants), received);
      ShareMarkIs(High(ShareTable()), tasks, received);
      IssuableTasks(TaskTable(), tasks, old(grants), received);
      IssuableShares(ShareTable(), tasks, received);
    }

    /** The terminal-arbitration migration, up or down: the id mark survives the rebuild. */
    method Rearbitrate(zeroRow: bool)
      requires Tracked(TaskTable())
      modifies this`taskSequence
      ensures TaskTable() == After(old(TaskTable()), Rearrange(zeroRow)) && High(TaskTable()) == old(High(TaskTable()))
    {
      var highwater := taskSequence;
      StepNeverLowers(TaskTable(), Rearrange(zeroRow));
      RebuildTasks(zeroRow);
      AdvanceTasks(highwater);
    }

    method InsertTask(task: Task) returns (id: int)
      requires Tracked(TaskTable())
      modifies this`tasks, this`taskSequence
      ensures id == old(High(TaskTable())) + 1 && id !in old(tasks) && tasks == old(tasks)[id := task]
      ensures TaskTable() == After(old(TaskTable()), Insert)
    {
      id := High(TaskTable()) + 1;
      ghost var before := TaskTable();
      assert id !in tasks by { if id in tasks { LiveIsBelow(before, id); } }
      tasks := tasks[id := task];
      taskSequence := Is(id);
    }
  }

  lemma MarkReached(t: Ids, mark: Nullable<int>, mentioned: set<int>, zeroRow: bool)
    requires IsMax(mark, mentioned) && t.live <= mentioned && (forall id | id in t.live :: id > 0)
    requires t == Rebuilt(t, zeroRow)
    ensures Tracked(Advanced(t, mark)) && High(Advanced(t, mark)) == Larger(0, OrZero(MaxOf(mentioned)))
  {
    hide MaxOf;
  }

  /** A grant survives the purge exactly when its Task is live and not known to be newer than it. */
  lemma KeptGrant(tasks: map<int, Task>, grants: map<nat, Grant>, i: nat)
    requires i in grants
    ensures i in Kept(tasks, grants) <==>
            && grants[i].taskId in tasks
            && (var born := tasks[grants[i].taskId].createdAt;
                grants[i].createdAt.Null? || born.Null? || born.value <= grants[i].createdAt.value)
    ensures i in Kept(tasks, grants) ==> Kept(tasks, grants)[i] == grants[i]
  {
  }

  /** After the upgrade a history can issue an id exactly when it is above every id that named a Task,
      a grant or a received share before; so none of those is ever issued again. */
  lemma IssuableIffAboveMentioned(t: Ids, mentioned: set<int>, id: int)
    requires Tracked(t) && High(t) == Larger(0, OrZero(MaxOf(mentioned)))
    ensures MayBeIssued(t, id) <==> id > 0 && forall m | m in mentioned :: m < id
  {
    IssuedIffAboveMark(t, id);
    var m := MaxOf(mentioned);
    if m.Is? { assert m.value in mentioned; }
  }

  /** But an id that was used and deleted before the upgrade, above everything still mentioned, is not
      remembered: one Task, 7, is left and 8 is gone without a trace, and the next Task is 8 again. */
  lemma ForgottenIdComesBack(zeroRow: bool)
    ensures var left := map[7 := Task(Null, Null)];
            var t := Advanced(Rebuilt(Ids(left.Keys, Null), zeroRow), MaxOf(Mentioned(left, map[], map[])));
            Tracked(t) && MayBeIssued(t, 8)
  {
    var left := map[7 := Task(Null, Null)];
    assert left.Keys == {7} && Mentioned(left, map[], map[]) == {7};
    var t := Advanced(Rebuilt(Ids({7}, Null), zeroRow), MaxOf({7}));
    assert High(t) == 7;
    IssuedIffAboveMark(t, 8);
  }
}
