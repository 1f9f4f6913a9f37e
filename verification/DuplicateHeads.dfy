/** The downgrade of alembic/versions/5f7a9c2e4d61_add_pr_review_base_sha_snapshot.py: clearing the head
    of every review but the newest of its (repo, pr, head) group, so that the narrow key fits again. */
module DuplicateHeads {
  import opened ThreeValued
  import opened TaskIds

  datatype Review = Review(repoId: int, prNumber: int, baseSha: Nullable<string>, headSha: Nullable<string>, payload: int)

  datatype Group = Group(repoId: int, prNumber: int, headSha: string)

  type Reviews = map<int, Review>

  /** repo_id = .. AND pr_number = .. AND head_sha = .. */
  predicate InGroup(r: Review, g: Group) {
    r.repoId == g.repoId && r.prNumber == g.prNumber && Selects(Eq(r.headSha, Is(g.headSha)))
  }

  function Members(rows: Reviews, g: Group): set<int> { set i | i in rows && InGroup(rows[i], g) }

  /** GROUP BY repo_id, pr_number, head_sha HAVING COUNT(*) > 1, in whatever order. */
  ghost predicate ListsDuplicates(groups: seq<Group>, rows: Reviews) {
    && (forall a, b | 0 <= a < b < |groups| :: groups[a] != groups[b])
    && (forall g :: g in groups <==> |Members(rows, g)| > 1)
  }

  /** ORDER BY id DESC. */
  function Descending(ids: set<int>): (order: seq<int>)
    ensures forall i :: i in order <==> i in ids
    ensures forall a, b | 0 <= a < b < |order| :: order[a] > order[b]
    decreases |ids|
  {
    if ids == {} then []
    else
      var top := MaxOf(ids).value;
      [top] + Descending(ids - {top})
  }

  /** A newer review has the same key. */
  predicate Superseded(rows: Reviews, i: int)
    requires i in rows
  {
    rows[i].headSha.Is? && exists j | j in rows :: j > i && SameKey(rows[i], rows[j])
  }

  /** Equal in all three columns; NULL heads never are. */
  predicate SameKey(r: Review, s: Review) {
    r.repoId == s.repoId && r.prNumber == s.prNumber && Selects(Eq(r.headSha, s.headSha))
  }

  function GroupOf(r: Review): Group
    requires r.headSha.Is?
  {
    Group(r.repoId, r.prNumber, r.headSha.value)
  }

  function Cleared(r: Review): Review { r.(headSha := Null) }

  /** The rows once the groups in `done` have been dealt with. */
  function ClearedIn(rows: Reviews, done: seq<Group>): Reviews {
    map i | i in rows :: if Superseded(rows, i) && GroupOf(rows[i]) in done then Cleared(rows[i]) else rows[i]
  }

  /** The specification of the whole clearing. */
  function Deduplicated(rows: Reviews): Reviews {
    map i | i in rows :: if Superseded(rows, i) then Cleared(rows[i]) else rows[i]
  }

  /** No (repo, pr, head) twice, NULL heads aside: what the legacy UNIQUE demands. */
  predicate HeadsUnique(rows: Reviews) {
    forall i, j | i in rows && j in rows && i != j :: !SameKey(rows[i], rows[j])
  }

  lemma SupersededInDuplicate(rows: Reviews, i: int)
    requires i in rows && Superseded(rows, i)
    ensures |Members(rows, GroupOf(rows[i]))| > 1
  {
    var j :| j in rows && j > i && SameKey(rows[i], rows[j]);
    var m := Members(rows, GroupOf(rows[i]));
    assert {i, j} <= m;
    assert |m| == |m - {i, j}| + 2 by { assert m == (m - {i, j}) + {i, j} && |{i, j}| == 2; }
  }

  lemma AllGroupsDone(rows: Reviews, groups: seq<Group>)
    requires ListsDuplicates(groups, rows)
    ensures ClearedIn(rows, groups) == Deduplicated(rows)
  {
    hide Members, Superseded;
    forall i | i in rows && Superseded(rows, i) ensures rows[i].headSha.Is? && GroupOf(rows[i]) in groups {
      SupersededHasHead(rows, i);
      SupersededInDuplicate(rows, i);
    }
  }

  lemma SupersededHasHead(rows: Reviews, i: int)
    requires i in rows && Superseded(rows, i)
    ensures rows[i].headSha.Is?
  {
  }

  /** Clearing other groups does not change who is in this one. */
  lemma MembersUntouched(rows: Reviews, done: seq<Group>, g: Group)
    requires g !in done
    ensures Members(ClearedIn(rows, done), g) == Members(rows, g)
  {
    hide Superseded;
    var now := ClearedIn(rows, done);
    forall i | i in rows ensures InGroup(now[i], g) <==> InGroup(rows[i], g) {
      if Superseded(rows, i) { SupersededHasHead(rows, i); }
    }
  }

  /** In a group every member but the newest is superseded. */
  lemma SupersededBelowTop(rows: Reviews, g: Group, order: seq<int>, i: int)
    requires order == Descending(Members(rows, g)) && i in rows && InGroup(rows[i], g)
    ensures i in order && GroupOf(rows[i]) == g
    ensures Superseded(rows, i) <==> i != order[0]
  {
    hide Members, Descending;
    MembersAre(rows, g);
    var k :| 0 <= k < |order| && order[k] == i;
    assert order[0] in order;
    if k > 0 { assert order[0] > i && SameKey(rows[i], rows[order[0]]); }
    if j :| j in rows && j > i && SameKey(rows[i], rows[j]) {
      assert InGroup(rows[j], g) && j in order;
    }
  }

  lemma MembersAre(rows: Reviews, g: Group)
    ensures forall i :: i in Members(rows, g) <==> i in rows && InGroup(rows[i], g)
  {
  }

  /** Part-way through a group: of its ids all up to the k-th, save the first, are cleared. */
  ghost predicate CutShort(before: Reviews, g: Group, ids: seq<int>, k: nat, rows: Reviews) {
    && rows.Keys == before.Keys
    && forall i | i in before :: rows[i] == if IsPast(ids, k, i) then Cleared(before[i]) else before[i]
  }

  predicate IsPast(ids: seq<int>, k: nat, i: int) { exists n | 1 <= n < k && n < |ids| :: ids[n] == i }

  lemma GroupStarts(before: Reviews, g: Group, ids: seq<int>)
    ensures CutShort(before, g, ids, 1, before)
  {
  }

  lemma GroupStep(before: Reviews, g: Group, ids: seq<int>, k: nat, rows: Reviews)
    requires ids == Descending(Members(before, g)) && 1 <= k < |ids| && CutShort(before, g, ids, k, rows)
    ensures ids[k] in rows && InGroup(rows[ids[k]], g)
    ensures CutShort(before, g, ids, k + 1, rows[ids[k] := Cleared(rows[ids[k]])])
  {
    hide Members, Descending;
    MembersAre(before, g);
    assert ids[k] in ids && !IsPast(ids, k, ids[k]);
    forall i | i in before ensures IsPast(ids, k + 1, i) <==> IsPast(ids, k, i) || i == ids[k] {
      if i == ids[k] { assert IsPast(ids, k + 1, i); }
    }
  }

  lemma GroupEnds(before: Reviews, g: Group, ids: seq<int>, k: nat, rows: Reviews)
    requires ids == Descending(Members(before, g)) && k >= |ids| && CutShort(before, g, ids, k, rows)
    ensures rows == map i | i in before ::
              if i in Members(before, g) && i != Descending(Members(before, g))[0] then Cleared(before[i]) else before[i]
  {
    hide Members, Descending;
    forall i | i in before ensures IsPast(ids, k, i) <==> i in Members(before, g) && i != ids[0] {
      if i in Members(before, g) && i != ids[0] {
        var n :| 0 <= n < |ids| && ids[n] == i;
        assert IsPast(ids, k, i);
      }
      if n :| 1 <= n < k && n < |ids| && ids[n] == i { assert i in ids && ids[0] > ids[n]; }
    }
    var goal := map i | i in before :: 
      if i in Members(before, g) && i != Descending(Members(before, g))[0] then Cleared(before[i]) else before[i];
    assert rows.Keys == goal.Keys && forall i | i in before :: rows[i] == goal[i];
    assert rows == goal;
  }

  class Table {
    var rows: Reviews

    /** UPDATE ... WHERE id = .. and the key is still the group's. */
    method ClearHead(id: int, g: Group)
      modifies this
      ensures rows == if id in old(rows) && InGroup(old(rows)[id], g) then old(rows)[id := Cleared(old(rows)[id])] else old(rows)
    {
      if id in rows && InGroup(rows[id], g) { rows := rows[id := Cleared(rows[id])]; }
    }

    /** One group: its members by descending id, all but the first cleared. */
    method ClearGroup(g: Group)
      modifies this
      ensures rows == old(map i | i in rows ::
                if i in Members(rows, g) && i != Descending(Members(rows, g))[0] then Cleared(rows[i]) else rows[i])
    {
      hide *;
      ghost var before := rows;
      var ids := Descending(Members(rows, g));
      var k := 1;
      GroupStarts(before, g, ids);
      while k < |ids|
        invariant 1 <= k && (ids != [] ==> k <= |ids|)
        invariant CutShort(before, g, ids, k, rows)
      {
        GroupStep(before, g, ids, k, rows);
        ClearHead(ids[k], g);
        k := k + 1;
      }
      GroupEnds(before, g, ids, k, rows);
    }

    /** The downgrade's clearing, for the duplicate groups in any order. */
    method ClearDuplicateHeads(groups: seq<Group>)
      requires ListsDuplicates(groups, rows)
      modifies this
      ensures rows == Deduplicated(old(rows))
    {
      ghost var before := rows;
      hide Superseded, Members, Descending, Deduplicated;
      assert ClearedIn(rows, []) == rows;
      for n := 0 to |groups|
        invariant rows == ClearedIn(before, groups[..n])
      {
        var g := groups[n];
        assert g !in groups[..n];
        MembersUntouched(before, groups[..n], g);
        ClearGroup(g);
        GroupDone(before, groups[..n], g, rows);
        assert groups[..n + 1] == groups[..n] + [g];
      }
      assert groups[..|groups|] == groups;
      AllGroupsDone(before, groups);
    }
  }

  lemma GroupDone(before: Reviews, done: seq<Group>, g: Group, after: Reviews)
    requires g !in done
    requires var now := ClearedIn(before, done);
             var members := Members(before, g);
             after == map i | i in now :: if i in members && i != Descending(members)[0] then Cleared(now[i]) else now[i]
    ensures after == ClearedIn(before, done + [g])
  {
    hide Superseded, Members, Descending;
    MembersAre(before, g);
    var now, goal := ClearedIn(before, done), ClearedIn(before, done + [g]);
    forall i | i in before ensures after[i] == goal[i] {
      if Superseded(before, i) { SupersededHasHead(before, i); }
      if InGroup(before[i], g) {
        SupersededBelowTop(before, g, Descending(Members(before, g)), i);
      }
    }
    assert after.Keys == goal.Keys;
  }

  /** Whatever the reviews were, the clearing leaves non-NULL heads unique per repository and pull
      request, so the legacy constraint can be created. */
  lemma HeadsAreUnique(rows: Reviews)
    ensures HeadsUnique(Deduplicated(rows))
    ensures var now := Deduplicated(rows);
            forall i, j | i in now && j in now && i != j && now[i].headSha.Is? && now[i].headSha == now[j].headSha ::
              now[i].repoId != now[j].repoId || now[i].prNumber != now[j].prNumber
  {
    var now := Deduplicated(rows);
    forall i, j | i in now && j in now && i != j ensures !SameKey(now[i], now[j]) {
      if i < j { NotBothKept(rows, i, j); } else { NotBothKept(rows, j, i); }
    }
  }

  lemma NotBothKept(rows: Reviews, i: int, j: int)
    requires i in rows && j in rows && i < j
    ensures !SameKey(Deduplicated(rows)[i], Deduplicated(rows)[j])
    ensures !SameKey(Deduplicated(rows)[j], Deduplicated(rows)[i])
  {
  }

  /** No review goes; a head goes only where a newer review has it, and nothing but the head ever does. */
  lemma OnlyOlderHeadsGo(rows: Reviews, i: int)
    requires i in rows
    ensures Deduplicated(rows).Keys == rows.Keys
    ensures var now, was := Deduplicated(rows)[i], rows[i];
            && now.repoId == was.repoId && now.prNumber == was.prNumber && now.baseSha == was.baseSha
            && now.payload == was.payload && (now.headSha == was.headSha || now.headSha.Null?)
    ensures Deduplicated(rows)[i].headSha != rows[i].headSha <==>
            rows[i].headSha.Is? && exists j | j in rows ::
              && j > i && rows[j].repoId == rows[i].repoId && rows[j].prNumber == rows[i].prNumber
              && rows[j].headSha == rows[i].headSha
  {
  }

  /** The newest review of every group keeps its head. */
  lemma NewestKeepsHead(rows: Reviews, g: Group, i: int)
    requires i in Members(rows, g) && forall j | j in Members(rows, g) :: j <= i
    ensures Deduplicated(rows)[i] == rows[i] && InGroup(Deduplicated(rows)[i], g)
  {
    hide Members;
    MembersAre(rows, g);
    forall j | j in rows && SameKey(rows[i], rows[j]) ensures j <= i { assert InGroup(rows[j], g); }
  }
}
