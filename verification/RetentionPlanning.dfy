/** The lists of a retention plan (src/retention/policy.ts): its lanes in a row, and the
    grouping that `applyRetention` recovers from them. */
module RetentionPlanning {

  import opened RetentionModel
  import opened RetentionSafety

  function Flatten(groups: seq<seq<Candidate>>): seq<Candidate> {
    if groups == [] then [] else Flatten(groups[..|groups| - 1]) + groups[|groups| - 1]
  }

  // -------------------------------------------------------------------------- lanes

  ghost predicate Differ(a: seq<Candidate>, b: seq<Candidate>) { a != [] && b != [] && a[0].key != b[0].key }

  ghost predicate AllDiffer(groups: seq<seq<Candidate>>) {
    forall j, k :: 0 <= j < k < |groups| ==> Differ(groups[j], groups[k])
  }

  ghost predicate Listed(db: Db, proof: Proof, key: Key, groups: seq<seq<Candidate>>) {
    GroupOf(db, proof, key) != [] ==> GroupOf(db, proof, key) in groups
  }

  ghost predicate OfKinds(db: Db, proof: Proof, kinds: set<Kind>, group: seq<Candidate>) {
    IsGroup(db, proof, group) && group[0].key.kind in kinds
  }

  /** Everything of the given lanes, but for the rows of `kind` that are still to come. */
  ghost predicate Lanes(db: Db, proof: Proof, kinds: set<Kind>, kind: Kind, rows: set<nat>, groups: seq<seq<Candidate>>)
  {
    && (forall k :: 0 <= k < |groups| ==> OfKinds(db, proof, kinds, groups[k]))
    && AllDiffer(groups)
    && (forall k :: 0 <= k < |groups| && groups[k] != [] && groups[k][0].key.kind == kind ==>
          groups[k][0].key.id !in rows)
    && (forall key: Key {:trigger Listed(db, proof, key, groups)} ::
          key.kind in kinds && !(key.kind == kind && key.id in rows) ==> Listed(db, proof, key, groups))
  }

  lemma OneMoreRow(
    db: Db, proof: Proof, kinds: set<Kind>, kind: Kind, rows: set<nat>, groups: seq<seq<Candidate>>, id: nat)
    requires Lanes(db, proof, kinds, kind, rows, groups) && id in rows && kind in kinds
    ensures
      var found := GroupOf(db, proof, Key(kind, id));
      var next := if found == [] then groups else groups + [found];
      Flatten(next) == Flatten(groups) + found && Lanes(db, proof, kinds, kind, rows - {id}, next)
  {
    var found := GroupOf(db, proof, Key(kind, id));
    if found != [] {
      GroupShape(db, proof, Key(kind, id));
      assert (groups + [found])[..|groups|] == groups;
      RowAdded(db, proof, kinds, kind, rows, groups, id, found);
    } else {
      forall key: Key | key.kind in kinds && !(key.kind == kind && key.id in rows - {id})
        ensures Listed(db, proof, key, groups)
      {
        if key.kind == kind && key.id == id { assert key == Key(kind, id); }
      }
    }
  }

  lemma RowAdded(
    db: Db, proof: Proof, kinds: set<Kind>, kind: Kind, rows: set<nat>, groups: seq<seq<Candidate>>, id: nat,
    found: seq<Candidate>)
    requires Lanes(db, proof, kinds, kind, rows, groups) && id in rows && kind in kinds
    requires found != [] && found == GroupOf(db, proof, Key(kind, id)) && found[0].key == Key(kind, id)
    ensures Lanes(db, proof, kinds, kind, rows - {id}, groups + [found])
  {
    var next := groups + [found];
    forall key: Key | key.kind in kinds && !(key.kind == kind && key.id in rows - {id})
      ensures Listed(db, proof, key, next)
    {
      if key.kind == kind && key.id == id {
        assert key == Key(kind, id) && next[|groups|] == found;
      } else {
        assert Listed(db, proof, key, groups);
      }
    }
    forall j, k | 0 <= j < k < |next| ensures Differ(next[j], next[k]) {
      assert OfKinds(db, proof, kinds, groups[j]);
      if k < |groups| { assert Differ(groups[j], groups[k]); }
    }
  }

  /** A further lane, none of its rows looked at. */
  lemma NextLane(
    db: Db, proof: Proof, kinds: set<Kind>, last: Kind, kind: Kind, rows: set<nat>, groups: seq<seq<Candidate>>)
    requires Lanes(db, proof, kinds, last, {}, groups) && kind !in kinds
    requires forall id: nat :: id !in rows ==> GroupOf(db, proof, Key(kind, id)) == []
    ensures Lanes(db, proof, kinds + {kind}, kind, rows, groups)
  {
    forall k | 0 <= k < |groups| ensures OfKinds(db, proof, kinds + {kind}, groups[k]) {
      assert OfKinds(db, proof, kinds, groups[k]);
    }
    forall key: Key | key.kind in kinds + {kind} && !(key.kind == kind && key.id in rows)
      ensures Listed(db, proof, key, groups)
    {
      if key.kind == kind {
        assert key == Key(kind, key.id);
      } else {
        assert Listed(db, proof, key, groups);
      }
    }
  }

  lemma OnlyStoredRows(db: Db, proof: Proof, kind: Kind, id: nat)
    requires if OnParts(Key(kind, id)) then id !in db.parts else id !in db.files
    ensures GroupOf(db, proof, Key(kind, id)) == []
  {
  }

  /** All four lanes make the plan. */
  lemma LanesMakePlan(db: Db, proof: Proof, groups: seq<seq<Candidate>>)
    requires Lanes(db, proof, {SessionAudio, RejectedSessionAudio, IncomingAudio, Quarantine}, Quarantine, {}, groups)
    ensures PlanGroups(db, proof, groups)
  {
    var kinds := {SessionAudio, RejectedSessionAudio, IncomingAudio, Quarantine};
    forall k | 0 <= k < |groups| ensures groups[k] != [] && IsGroup(db, proof, groups[k]) {
      assert OfKinds(db, proof, kinds, groups[k]);
    }
    forall j, k | 0 <= j < k < |groups| ensures groups[j][0].key != groups[k][0].key {
      assert Differ(groups[j], groups[k]);
    }
    forall key: Key | GroupOf(db, proof, key) != [] ensures GroupOf(db, proof, key) in groups {
      assert key.kind in kinds;
      assert Listed(db, proof, key, groups);
    }
  }

  // ----------------------------------------------------------------------- grouping

  /** Where the candidates of a key are collected, if anywhere. */
  function Position(groups: seq<seq<Candidate>>, key: Key): (k: nat)
    ensures k <= |groups|
    ensures k < |groups| ==> groups[k] != [] && groups[k][0].key == key
  {
    if groups == [] then 0
    else
      var last := |groups| - 1;
      var before := Position(groups[..last], key);
      if before < last then before else if groups[last] != [] && groups[last][0].key == key then last else |groups|
  }

  /** One more candidate goes to its group, or starts one. */
  function AddTo(groups: seq<seq<Candidate>>, c: Candidate): seq<seq<Candidate>> {
    var k := Position(groups, c.key);
    if k < |groups| then groups[k := groups[k] + [c]] else groups + [[c]]
  }

  /** The candidates by key, in order of first occurrence. */
  function GroupsOf(candidates: seq<Candidate>): seq<seq<Candidate>> {
    if candidates == [] then [] else AddTo(GroupsOf(candidates[..|candidates| - 1]), candidates[|candidates| - 1])
  }

  lemma {:induction false} PositionIsFirst(groups: seq<seq<Candidate>>, key: Key)
    ensures forall j :: 0 <= j < Position(groups, key) ==> !(groups[j] != [] && groups[j][0].key == key)
  {
    if groups != [] { PositionIsFirst(groups[..|groups| - 1], key); }
  }

  /** The first place with the key is its position. */
  lemma PositionUnique(groups: seq<seq<Candidate>>, key: Key, k: nat)
    requires k <= |groups| && (k < |groups| ==> groups[k] != [] && groups[k][0].key == key)
    requires forall j :: 0 <= j < k ==> !(groups[j] != [] && groups[j][0].key == key)
    ensures Position(groups, key) == k
  {
    PositionIsFirst(groups, key);
  }

  lemma PositionAfter(groups: seq<seq<Candidate>>, c: Candidate, key: Key)
    ensures
      var next := AddTo(groups, c);
      Position(next, key) ==
        if key == c.key then Position(groups, key)
        else if Position(groups, key) == |groups| then |next| else Position(groups, key)
  {
    var next, k := AddTo(groups, c), Position(groups, key);
    PositionIsFirst(groups, key);
    PositionUnique(next, key, if key != c.key && k == |groups| then |next| else k);
  }

  ghost predicate Uniform(group: seq<Candidate>) {
    group != [] && forall i :: 0 <= i < |group| ==> group[i].key == group[0].key
  }

  /** Grouping takes a flattened plan apart again. */
  lemma {:induction false} GroupsOfFlatten(groups: seq<seq<Candidate>>)
    requires AllDiffer(groups) && forall k :: 0 <= k < |groups| ==> Uniform(groups[k])
    ensures GroupsOf(Flatten(groups)) == groups
  {
    if groups != [] {
      var front, last := groups[..|groups| - 1], groups[|groups| - 1];
      GroupsOfFlatten(front);
      forall k | 0 <= k < |front| ensures front[k][0].key != last[0].key {
        assert Differ(groups[k], groups[|groups| - 1]);
      }
      OneGroupMore(Flatten(front), front, last, |last|);
      assert last[..|last|] == last;
    }
  }

  lemma {:induction false} OneGroupMore(
    before: seq<Candidate>, front: seq<seq<Candidate>>, group: seq<Candidate>, n: nat)
    requires GroupsOf(before) == front && 0 < n <= |group| && Uniform(group)
    requires forall k :: 0 <= k < |front| ==> front[k] != [] && front[k][0].key != group[0].key
    ensures GroupsOf(before + group[..n]) == front + [group[..n]]
  {
    var all := before + group[..n];
    assert all[..|all| - 1] == before + group[..n - 1];
    if n == 1 {
      assert before + group[..0] == before && group[..1] == [group[0]];
      PositionUnique(front, group[0].key, |front|);
    } else {
      OneGroupMore(before, front, group, n - 1);
      JoinsLast(front, group, n - 1);
    }
  }

  lemma JoinsLast(front: seq<seq<Candidate>>, group: seq<Candidate>, n: nat)
    requires 0 < n < |group| && Uniform(group)
    requires forall k :: 0 <= k < |front| ==> front[k] != [] && front[k][0].key != group[0].key
    ensures AddTo(front + [group[..n]], group[n]) == front + [group[..n + 1]]
  {
    PositionUnique(front + [group[..n]], group[0].key, |front|);
    assert group[..n] + [group[n]] == group[..n + 1];
    assert (front + [group[..n]])[|front| := group[..n + 1]] == front + [group[..n + 1]];
  }

  lemma PlanIsUniform(db: Db, proof: Proof, groups: seq<seq<Candidate>>)
    requires PlanGroups(db, proof, groups)
    ensures AllDiffer(groups) && forall k :: 0 <= k < |groups| ==> Uniform(groups[k])
  {
    forall k | 0 <= k < |groups| ensures Uniform(groups[k]) {
      assert IsGroup(db, proof, groups[k]);
      GroupShape(db, proof, groups[k][0].key);
    }
  }

  lemma {:induction false} FlattenCounts(groups: seq<seq<Candidate>>)
    ensures |Flatten(groups)| == AllCount(groups) && TotalBytes(Flatten(groups)) == AllBytes(groups)
  {
    if groups != [] {
      FlattenCounts(groups[..|groups| - 1]);
      BytesAppend(Flatten(groups[..|groups| - 1]), groups[|groups| - 1]);
    }
  }

  lemma {:induction false} BytesAppend(a: seq<Candidate>, b: seq<Candidate>)
    ensures TotalBytes(a + b) == TotalBytes(a) + TotalBytes(b)
  {
    if b == [] {
      assert a + b == a;
    } else {
      assert (a + b)[..|a + b| - 1] == a + b[..|b| - 1];
      BytesAppend(a, b[..|b| - 1]);
    }
  }
}
